/**
 * The bookkeeping of the 2D Arkanoid of src/samples/ecs_arkanoid.h: an
 * `EntityManager` of parallel component vectors with alive flags, the
 * lives/score/brick logic of its `BallSystem`, and the entities
 * `setupGame` creates. Where the ball is after moving (and hence whether it
 * fell out or which bricks it touches) is floating-point kinematics; the
 * model takes those answers as inputs.
 */
module EcsArkanoid {
  import opened Wrappers

  /** `GameplayComponent::Type`. */
  datatype Kind = NoKind | Paddle | Ball | Brick

  datatype Position = Position(x: real, y: real)
  datatype Velocity = Velocity(x: real, y: real)
  datatype RenderSize = RenderSize(w: real, h: real)
  datatype Color = Color(r: real, g: real, b: real, a: real)
  datatype Gameplay = Gameplay(kind: Kind, health: int)

  /** The default member initialisers `emplace_back()` uses. */
  const NoPosition: Position := Position(0.0, 0.0)
  const NoVelocity: Velocity := Velocity(0.0, 0.0)
  const UnitSize: RenderSize := RenderSize(1.0, 1.0)
  const White: Color := Color(1.0, 1.0, 1.0, 1.0)
  const NoGameplay: Gameplay := Gameplay(NoKind, 1)

  /** 2^32 ids: `EntityID` is `unsigned int`. */
  const IdRange: nat := 0x1_0000_0000

  /** `(EntityID)-1`, what `findFirstOfType` answers when nothing matches. */
  const NotFound: UInt32 := 0xFFFF_FFFF

  /** `Constants::REWARD_BRICK`, `Constants::INITIAL_LIVES`. */
  const RewardBrick: int := 100
  const InitialLives: int := 3

  /** `SCR_WIDTH`, `PADDLE_START_Y`, `BALL_START_Y`, `BALL_INITIAL_SPEED_X`, `BALL_INITIAL_SPEED_Y`. */
  const ScreenWidth: real := 1280.0
  const ScreenHeight: real := 720.0
  const PaddleStartY: real := 50.0
  const BallStartY: real := 75.0
  const BallSpeedX: real := 200.0
  const BallSpeedY: real := 300.0

  /** The six component vectors of a manager, taken as values. */
  datatype Snapshot = Snapshot(positions: seq<Position>, velocities: seq<Velocity>, renders: seq<RenderSize>,
                               colors: seq<Color>, gameplay: seq<Gameplay>, alive: seq<bool>)

  /** The components one entity is given. */
  datatype Entry = Entry(position: Position, velocity: Velocity, size: RenderSize, color: Color, gameplay: Gameplay)

  /** All six vectors have the same length. */
  predicate Uniform(s: Snapshot) {
    var n := |s.alive|;
    |s.positions| == n && |s.velocities| == n && |s.renders| == n && |s.colors| == n && |s.gameplay| == n
  }

  /** The components of entity i. */
  function EntryAt(s: Snapshot, i: nat): Entry
    requires Uniform(s) && i < |s.alive|
  {
    Entry(s.positions[i], s.velocities[i], s.renders[i], s.colors[i], s.gameplay[i])
  }

  /** One more entity with the components of e, alive. */
  function Append(s: Snapshot, e: Entry): (t: Snapshot)
    ensures Uniform(s) ==> Uniform(t) && |t.alive| == |s.alive| + 1
  {
    Snapshot(s.positions + [e.position], s.velocities + [e.velocity], s.renders + [e.size],
             s.colors + [e.color], s.gameplay + [e.gameplay], s.alive + [true])
  }

  /** t keeps every entity of s, with its components and flag, and perhaps has more after them. */
  predicate Keeps(t: Snapshot, s: Snapshot)
    requires Uniform(t) && Uniform(s)
  {
    |s.alive| <= |t.alive| && forall i :: 0 <= i < |s.alive| ==> EntryAt(t, i) == EntryAt(s, i) && t.alive[i] == s.alive[i]
  }

  class EntityManager {
    var positions: seq<Position>
    var velocities: seq<Velocity>
    var renders: seq<RenderSize>
    var colors: seq<Color>
    var gameplay: seq<Gameplay>
    var alive: seq<bool>
    var nextID: UInt32

    /**
     * The six vectors grow in lockstep. Until 2^32 ids have been issued,
     * `nextID` is their length, so `createEntity` always appends.
     */
    ghost predicate Valid()
      reads this
    {
      var n := |alive|;
      |positions| == n && |velocities| == n && |renders| == n && |colors| == n && |gameplay| == n
      && n <= IdRange && (n < IdRange ==> nextID == n)
    }

    constructor ()
      ensures Valid() && alive == [] && nextID == 0
    {
      positions, velocities, renders, colors, gameplay, alive := [], [], [], [], [], [];
      nextID := 0;
    }

    /** The component vectors as values. */
    function Snap(): Snapshot
      reads this
    {
      Snapshot(positions, velocities, renders, colors, gameplay, alive)
    }

    /** `isAlive`. */
    predicate IsAlive(id: int)
      reads this
    {
      0 <= id < |alive| && alive[id]
    }

    /**
     * `createEntity`: hands out `nextID` and bumps it (wrapping at 2^32). An
     * id past the vectors appends one default entry to each, alive; an id
     * already inside them (possible only after wrap-around) is revived.
     */
    method CreateEntity() returns (id: UInt32)
      requires Valid()
      modifies this
      ensures Valid()
      ensures id == old(nextID) && nextID == (old(nextID) + 1) % IdRange
      ensures old(|alive|) < IdRange ==> id == old(|alive|)
      ensures id >= old(|alive|) ==>
        alive == old(alive) + [true] && positions == old(positions) + [NoPosition]
        && velocities == old(velocities) + [NoVelocity] && renders == old(renders) + [UnitSize]
        && colors == old(colors) + [White] && gameplay == old(gameplay) + [NoGameplay]
      ensures id < old(|alive|) ==>
        alive == old(alive)[id := true] && positions == old(positions) && velocities == old(velocities)
        && renders == old(renders) && colors == old(colors) && gameplay == old(gameplay)
    {
      id := nextID;
      nextID := (nextID + 1) % IdRange;
      if id >= |alive| {
        positions := positions + [NoPosition];
        velocities := velocities + [NoVelocity];
        renders := renders + [UnitSize];
        colors := colors + [White];
        gameplay := gameplay + [NoGameplay];
        alive := alive + [true];
      } else {
        alive := alive[id := true];
      }
    }

    /** `destroyEntity`: clears the alive flag of an id inside the vectors; any other id changes nothing. */
    method DestroyEntity(id: UInt32)
      modifies this
      ensures forall i :: IsAlive(i) <==> old(IsAlive(i)) && i != id
      ensures id < old(|alive|) ==> alive == old(alive)[id := false]
      ensures id >= old(|alive|) ==> alive == old(alive)
      ensures positions == old(positions) && velocities == old(velocities) && renders == old(renders)
      ensures colors == old(colors) && gameplay == old(gameplay) && nextID == old(nextID)
    {
      if id < |alive| {
        alive := alive[id := false];
      }
    }

    /** Entity i is alive and of kind k. */
    predicate AliveOfKind(i: int, k: Kind)
      reads this
    {
      IsAlive(i) && i < |gameplay| && gameplay[i].kind == k
    }

    /** The first index from i on that is alive and of kind k, or `NotFound`. */
    function FirstFrom(k: Kind, i: nat): (id: UInt32)
      requires Valid()
      reads this
      ensures id == NotFound || i <= id < |alive|
      decreases |alive| - i
    {
      if i >= |alive| then NotFound
      else if AliveOfKind(i, k) then i
      else FirstFrom(k, i + 1)
    }

    /** What `findFirstOfType(k)` answers. */
    function FirstOfKind(k: Kind): (id: UInt32)
      requires Valid()
      reads this
      ensures id == NotFound || id < |alive|
    {
      FirstFrom(k, 0)
    }

    /**
     * The scan from i finds the smallest alive index of kind k at or after
     * i, and answers `NotFound` when there is none.
     */
    lemma {:induction false} FirstFromFacts(k: Kind, i: nat)
      requires Valid()
      ensures (exists j :: i <= j && AliveOfKind(j, k)) ==>
        AliveOfKind(FirstFrom(k, i), k) && i <= FirstFrom(k, i)
        && forall j :: i <= j < FirstFrom(k, i) ==> !AliveOfKind(j, k)
      ensures (forall j :: i <= j ==> !AliveOfKind(j, k)) ==> FirstFrom(k, i) == NotFound
      ensures FirstFrom(k, i) != NotFound ==> AliveOfKind(FirstFrom(k, i), k)
      decreases |alive| - i
    {
      if i < |alive| && !AliveOfKind(i, k) {
        FirstFromFacts(k, i + 1);
        if exists j :: i <= j && AliveOfKind(j, k) {
          var j :| i <= j && AliveOfKind(j, k);
          assert i + 1 <= j;
        }
      }
    }

    /** `findFirstOfType(k)` is the smallest alive index of kind k, or `NotFound` when there is none. */
    lemma FirstOfKindFacts(k: Kind)
      requires Valid()
      ensures (exists j :: AliveOfKind(j, k)) ==>
        AliveOfKind(FirstOfKind(k), k) && forall j :: 0 <= j < FirstOfKind(k) ==> !AliveOfKind(j, k)
      ensures (forall j :: !AliveOfKind(j, k)) ==> FirstOfKind(k) == NotFound
      ensures FirstOfKind(k) != NotFound ==> AliveOfKind(FirstOfKind(k), k)
    {
      FirstFromFacts(k, 0);
    }

    /**
     * `findFirstOfType`: a scan over the vectors returning the first alive
     * index of kind k.
     */
    method FindFirstOfType(k: Kind) returns (id: UInt32)
      requires Valid()
      ensures id == FirstOfKind(k)
    {
      for i := 0 to |alive|
        invariant FirstFrom(k, i) == FirstOfKind(k)
      {
        if IsAlive(i) && gameplay[i].kind == k {
          return i;
        }
      }
      return NotFound;
    }
  }

  /** The globals `score` and `lives` next to the game's entity manager. */
  class Game {
    const em: EntityManager
    var score: int
    var lives: int

    /**
     * What the ball system keeps: a valid manager, between one and
     * `INITIAL_LIVES` lives (a lost last life restores them at once), and a
     * score that is a whole number of bricks.
     */
    ghost predicate Valid()
      reads this, em
    {
      em.Valid() && 1 <= lives <= InitialLives && score >= 0 && score % RewardBrick == 0
    }

    /** The globals' initial values, `score = 0` and `lives = INITIAL_LIVES`. */
    constructor (em: EntityManager)
      requires em.Valid()
      ensures this.em == em && score == 0 && lives == InitialLives && Valid()
    {
      this.em := em;
      score := 0;
      lives := InitialLives;
    }

    /**
     * `BallSystem::resetGame`: lives back to `INITIAL_LIVES`, score 0, and
     * every brick alive again; other entities keep their flags.
     */
    method ResetGame()
      requires em.Valid()
      modifies this, em
      ensures lives == InitialLives && score == 0 && em.Valid()
      ensures |em.alive| == old(|em.alive|)
      ensures forall i :: 0 <= i < |em.alive| ==> em.alive[i] == (old(em.alive[i]) || em.gameplay[i].kind == Brick)
      ensures em.positions == old(em.positions) && em.velocities == old(em.velocities) && em.renders == old(em.renders)
      ensures em.colors == old(em.colors) && em.gameplay == old(em.gameplay) && em.nextID == old(em.nextID)
    {
      lives := InitialLives;
      score := 0;
      for i := 0 to |em.alive|
        invariant em.Valid() && |em.alive| == old(|em.alive|) && lives == InitialLives && score == 0
        invariant forall j :: 0 <= j < i ==> em.alive[j] == (old(em.alive[j]) || em.gameplay[j].kind == Brick)
        invariant forall j :: i <= j < |em.alive| ==> em.alive[j] == old(em.alive[j])
        invariant em.positions == old(em.positions) && em.velocities == old(em.velocities) && em.renders == old(em.renders)
        invariant em.colors == old(em.colors) && em.gameplay == old(em.gameplay) && em.nextID == old(em.nextID)
      {
        if em.gameplay[i].kind == Brick {
          em.alive := em.alive[i := true];
        }
      }
    }

    /**
     * `BallSystem::resetBallAndPaddle`: the paddle (when there is one) back
     * to the bottom centre, the ball just above it moving up at the
     * initial speed, sideways to the right when `ballRight` (the
     * `rand() % 2` coin).
     */
    method ResetBallAndPaddle(ballId: UInt32, paddleId: UInt32, ballRight: bool)
      requires em.Valid() && ballId < |em.positions| && (paddleId != NotFound ==> paddleId < |em.positions|)
      modifies em
      ensures em.Valid()
      ensures em.positions == RoundPositions(old(em.positions), ballId, paddleId)
      ensures em.velocities == RoundVelocities(old(em.velocities), ballId, ballRight)
      ensures em.alive == old(em.alive) && em.renders == old(em.renders) && em.colors == old(em.colors)
      ensures em.gameplay == old(em.gameplay) && em.nextID == old(em.nextID)
    {
      if paddleId != NotFound {
        em.positions := em.positions[paddleId := Position(ScreenWidth * 0.5, PaddleStartY)];
      }
      em.positions := em.positions[ballId := Position(ScreenWidth * 0.5, BallStartY)];
      em.velocities := em.velocities[ballId := Velocity(BallSpeedX * (if ballRight then 1.0 else -1.0), BallSpeedY)];
    }

    /**
     * The brick loop of `BallSystem::update`: the first alive brick the
     * ball touches (`touches(i)`, the circle-box test) is destroyed, scores
     * `REWARD_BRICK` and bounces the ball's velocity in the unit contact
     * normal `normals(i)`; the loop then stops, so at most one brick goes
     * per frame.
     */
    method HitOneBrick(ball: nat, touches: nat -> bool, normals: nat -> Velocity) returns (hit: Option<nat>)
      requires em.Valid() && ball < |em.alive|
      modifies this, em
      ensures em.Valid() && lives == old(lives)
      ensures hit == None ==>
        em.alive == old(em.alive) && score == old(score) && em.velocities == old(em.velocities)
        && Untouched(old(em.alive), old(em.gameplay), touches)
      ensures hit.Some? ==>
        var i := hit.value;
        FirstTouched(old(em.alive), old(em.gameplay), touches, i)
        && em.alive == old(em.alive)[i := false] && score == old(score) + RewardBrick
        && em.velocities == old(em.velocities)[ball := Bounce(old(em.velocities)[ball], normals(i))]
      ensures em.positions == old(em.positions) && em.renders == old(em.renders)
      ensures em.colors == old(em.colors) && em.gameplay == old(em.gameplay) && em.nextID == old(em.nextID)
    {
      hit := None;
      for i := 0 to |em.alive|
        invariant forall j: nat :: j < i ==> !TouchedBrick(em.alive, em.gameplay, touches, j)
        invariant em.alive == old(em.alive) && score == old(score) && em.velocities == old(em.velocities)
      {
        if !em.IsAlive(i) || em.gameplay[i].kind != Brick {
          continue;
        }
        if touches(i) {
          em.DestroyEntity(i);
          score := score + RewardBrick;
          em.velocities := em.velocities[ball := Bounce(em.velocities[ball], normals(i))];
          return Some(i);
        }
      }
    }

    /**
     * The integer side of `BallSystem::update`. Without an alive ball
     * nothing happens. A ball that fell out (`fellOut`) costs one life; the
     * last one restarts the game; then ball and paddle are reset and the
     * frame ends. Otherwise the ball takes the position `moved` and the
     * velocity `steered` that movement, the walls and the paddle give it,
     * and at most one touched brick is destroyed and bounces it.
     */
    method BallUpdate(fellOut: bool, ballRight: bool, moved: Position, steered: Velocity,
                      touches: nat -> bool, normals: nat -> Velocity)
      requires Valid()
      modifies this, em
      ensures Valid()
      ensures old(em.FirstOfKind(Ball)) == NotFound ==>
        score == old(score) && lives == old(lives) && em.alive == old(em.alive) && em.positions == old(em.positions)
        && em.velocities == old(em.velocities)
      ensures old(em.FirstOfKind(Ball)) != NotFound && fellOut && old(lives) > 1 ==>
        lives == old(lives) - 1 && score == old(score) && em.alive == old(em.alive)
      ensures old(em.FirstOfKind(Ball)) != NotFound && fellOut && old(lives) == 1 ==>
        lives == InitialLives && score == 0 && |em.alive| == old(|em.alive|)
        && forall i :: 0 <= i < |em.alive| ==> em.alive[i] == (old(em.alive[i]) || em.gameplay[i].kind == Brick)
      ensures old(em.FirstOfKind(Ball)) != NotFound && fellOut ==>
        em.positions == RoundPositions(old(em.positions), old(em.FirstOfKind(Ball)), old(em.FirstOfKind(Paddle)))
        && em.velocities == RoundVelocities(old(em.velocities), old(em.FirstOfKind(Ball)), ballRight)
      ensures old(em.FirstOfKind(Ball)) != NotFound && !fellOut ==>
        lives == old(lives) && (score == old(score) || score == old(score) + RewardBrick)
        && (score == old(score) <==> em.alive == old(em.alive))
        && em.positions == old(em.positions)[old(em.FirstOfKind(Ball)) := moved]
      ensures old(em.FirstOfKind(Ball)) != NotFound && !fellOut && Untouched(old(em.alive), old(em.gameplay), touches) ==>
        score == old(score) && em.alive == old(em.alive)
        && em.velocities == old(em.velocities)[old(em.FirstOfKind(Ball)) := steered]
      ensures old(em.FirstOfKind(Ball)) != NotFound && !fellOut ==>
        forall i: nat :: FirstTouched(old(em.alive), old(em.gameplay), touches, i) ==>
          em.alive == old(em.alive)[i := false] && score == old(score) + RewardBrick
          && em.velocities == old(em.velocities)[old(em.FirstOfKind(Ball)) := Bounce(steered, normals(i))]
      ensures |em.alive| == old(|em.alive|) && em.gameplay == old(em.gameplay)
    {
      var ballId := em.FindFirstOfType(Ball);
      var paddleId := em.FindFirstOfType(Paddle);
      if ballId == NotFound {
        return;
      }
      em.FirstOfKindFacts(Ball);
      em.FirstOfKindFacts(Paddle);
      if fellOut {
        lives := lives - 1;
        if lives <= 0 {
          ResetGame();
        }
        ResetBallAndPaddle(ballId, paddleId, ballRight);
        return;
      }
      em.positions := em.positions[ballId := moved];
      em.velocities := em.velocities[ballId := steered];
      var hit := HitOneBrick(ballId, touches, normals);
      if hit.Some? {
        forall i: nat | FirstTouched(old(em.alive), old(em.gameplay), touches, i)
          ensures i == hit.value
        {
          FirstTouchedUnique(old(em.alive), old(em.gameplay), touches, hit.value, i);
        }
        FirstTouchedUnique(old(em.alive), old(em.gameplay), touches, hit.value, hit.value);
      }
    }
  }

  /**
   * The positions after `resetBallAndPaddle`: the paddle (when one was
   * found) at the bottom centre, then the ball just above it.
   */
  function RoundPositions(positions: seq<Position>, ballId: nat, paddleId: UInt32): (p: seq<Position>)
    requires ballId < |positions| && (paddleId != NotFound ==> paddleId < |positions|)
    ensures |p| == |positions| && p[ballId] == Position(ScreenWidth * 0.5, BallStartY)
    ensures paddleId != NotFound && paddleId != ballId ==> p[paddleId] == Position(ScreenWidth * 0.5, PaddleStartY)
    ensures forall i :: 0 <= i < |p| && i != ballId && i != paddleId ==> p[i] == positions[i]
  {
    var paddled := if paddleId != NotFound then positions[paddleId := Position(ScreenWidth * 0.5, PaddleStartY)] else positions;
    paddled[ballId := Position(ScreenWidth * 0.5, BallStartY)]
  }

  /**
   * The velocities after `resetBallAndPaddle`: the ball moves up at the
   * initial speed, to the right when `ballRight` (the `rand() % 2` coin).
   */
  function RoundVelocities(velocities: seq<Velocity>, ballId: nat, ballRight: bool): (v: seq<Velocity>)
    requires ballId < |velocities|
    ensures |v| == |velocities| && v[ballId].y == BallSpeedY
    ensures v[ballId].x == if ballRight then BallSpeedX else -BallSpeedX
    ensures forall i :: 0 <= i < |v| && i != ballId ==> v[i] == velocities[i]
  {
    velocities[ballId := Velocity((if ballRight then 1.0 else -1.0) * BallSpeedX, BallSpeedY)]
  }

  /** Entity i is an alive brick (by the flags `alive` and the components `gameplay`) the ball touches. */
  predicate TouchedBrick(alive: seq<bool>, gameplay: seq<Gameplay>, touches: nat -> bool, i: nat) {
    i < |alive| && i < |gameplay| && alive[i] && gameplay[i].kind == Brick && touches(i)
  }

  /** The ball touches no alive brick. */
  predicate Untouched(alive: seq<bool>, gameplay: seq<Gameplay>, touches: nat -> bool) {
    forall i: nat :: i < |alive| ==> !TouchedBrick(alive, gameplay, touches, i)
  }

  /** Entity i is the first alive brick the ball touches. */
  predicate FirstTouched(alive: seq<bool>, gameplay: seq<Gameplay>, touches: nat -> bool, i: nat) {
    TouchedBrick(alive, gameplay, touches, i) && forall j: nat :: j < i ==> !TouchedBrick(alive, gameplay, touches, j)
  }

  /** There is at most one first touched brick, and none when no brick is touched. */
  lemma FirstTouchedUnique(alive: seq<bool>, gameplay: seq<Gameplay>, touches: nat -> bool, i: nat, j: nat)
    requires FirstTouched(alive, gameplay, touches, i)
    ensures FirstTouched(alive, gameplay, touches, j) ==> i == j
    ensures !Untouched(alive, gameplay, touches)
  {
  }

  /** `BALL_SPEEDUP_FACTOR`. */
  const SpeedupFactor: real := 1.02

  function Dot(v: Velocity, n: Velocity): real {
    v.x * n.x + v.y * n.y
  }

  /** The brick bounce: `v - 2 (v . n) n`, then each component times `BALL_SPEEDUP_FACTOR`. */
  function Bounce(v: Velocity, n: Velocity): Velocity {
    var d := Dot(v, n);
    Velocity((v.x - 2.0 * d * n.x) * SpeedupFactor, (v.y - 2.0 * d * n.y) * SpeedupFactor)
  }

  /**
   * In a unit normal the bounce negates the normal component of the
   * velocity, keeps the tangential one, and scales both by the speed-up,
   * so the speed grows by exactly that factor.
   */
  lemma BounceUnit(v: Velocity, n: Velocity)
    requires Dot(n, n) == 1.0
    ensures Dot(Bounce(v, n), n) == -SpeedupFactor * Dot(v, n)
    ensures var w := Bounce(v, n); var t := Velocity(-n.y, n.x);
      Dot(w, t) == SpeedupFactor * Dot(v, t)
    ensures Dot(Bounce(v, n), Bounce(v, n)) == SpeedupFactor * SpeedupFactor * Dot(v, v)
  {
    var d := Dot(v, n);
    var r := Velocity(v.x - 2.0 * d * n.x, v.y - 2.0 * d * n.y);
    assert Bounce(v, n) == Velocity(SpeedupFactor * r.x, SpeedupFactor * r.y);
    calc {
      Dot(r, r);
      v.x * v.x + v.y * v.y - 4.0 * d * (v.x * n.x + v.y * n.y) + 4.0 * d * d * (n.x * n.x + n.y * n.y);
      Dot(v, v) - 4.0 * d * d + 4.0 * d * d * 1.0;
      Dot(v, v);
    }
    assert Dot(Bounce(v, n), Bounce(v, n)) == SpeedupFactor * SpeedupFactor * Dot(r, r);
  }

  /** The parameters of `createBricksGrid`. */
  datatype Layout = Layout(cols: int, rows: int, startX: real, startY: real, brickW: real, brickH: real, padding: real)

  /** `0.3f + 0.7f * ((float)rand() / RAND_MAX)`. */
  function Channel(u: real): real {
    0.3 + 0.7 * u
  }

  /**
   * Brick (r, c): a BRICK at its grid place with the brick size and a
   * colour from the three `rand()` values from k on.
   */
  function BrickEntry(l: Layout, r: nat, c: nat, rnd: nat -> real, k: nat): Entry {
    Entry(Position(l.startX + c as real * (l.brickW + l.padding), l.startY - r as real * (l.brickH + l.padding)),
          NoVelocity, RenderSize(l.brickW, l.brickH),
          Color(Channel(rnd(k)), Channel(rnd(k + 1)), Channel(rnd(k + 2)), 1.0), Gameplay(Brick, 1))
  }

  /** Brick (r, c) of a grid of rows x cols lies inside it in row-major order. */
  lemma SlotBelow(cols: nat, r: nat, c: nat, rows: nat)
    requires r < rows && c < cols
    ensures r * cols + c < rows * cols
  {
    MulMono(r + 1, rows, cols);
    assert (r + 1) * cols == r * cols + cols;
  }

  lemma {:induction false} MulMono(a: nat, b: nat, n: nat)
    requires a <= b
    ensures a * n <= b * n
    decreases b - a
  {
    if a < b {
      MulMono(a, b - 1, n);
      assert b * n == (b - 1) * n + n;
    }
  }

  /**
   * `createBricksGrid` body for brick (r, c): a new entity made a brick at
   * its grid place with the brick size and a colour from three `rand()`
   * values.
   */
  method CreateBrick(em: EntityManager, l: Layout, r: nat, c: nat, calls: nat, rnd: nat -> real) returns (next: nat)
    requires em.Valid() && |em.alive| < IdRange
    modifies em
    ensures em.Valid() && next == calls + 3
    ensures em.Snap() == Append(old(em.Snap()), BrickEntry(l, r, c, rnd, calls))
  {
    ghost var s0 := em.Snap();
    ghost var e := BrickEntry(l, r, c, rnd, calls);
    var id := em.CreateEntity();
    em.gameplay := em.gameplay[id := em.gameplay[id].(kind := Brick)];
    em.positions := em.positions[id := Position(l.startX + c as real * (l.brickW + l.padding), l.startY - r as real * (l.brickH + l.padding))];
    em.renders := em.renders[id := RenderSize(l.brickW, l.brickH)];
    em.colors := em.colors[id := em.colors[id].(r := 0.3 + 0.7 * rnd(calls), g := 0.3 + 0.7 * rnd(calls + 1), b := 0.3 + 0.7 * rnd(calls + 2))];
    next := calls + 3;
    assert e.position == Position(l.startX + c as real * (l.brickW + l.padding), l.startY - r as real * (l.brickH + l.padding));
    assert id as int == |s0.positions|;
    assert em.positions == s0.positions + [e.position];
    assert em.velocities == s0.velocities + [e.velocity];
    assert em.renders == s0.renders + [e.size];
    assert em.colors == s0.colors + [e.color];
    assert em.gameplay == s0.gameplay + [e.gameplay];
    assert em.alive == s0.alive + [true];
  }

  /** Entity i is an alive brick of the layout's size, at rest, with an opaque colour. */
  predicate IsBrick(s: Snapshot, l: Layout, i: nat)
    requires Uniform(s)
  {
    i < |s.alive| && s.gameplay[i] == Gameplay(Brick, 1) && s.alive[i]
    && s.renders[i] == RenderSize(l.brickW, l.brickH) && s.velocities[i] == NoVelocity && s.colors[i].a == 1.0
  }

  /** Appending one more brick keeps the entities so far and the bricks among them. */
  lemma BrickStep(start: Snapshot, before: Snapshot, l: Layout, r: nat, c: nat, rnd: nat -> real, k: nat)
    requires Uniform(start) && Uniform(before) && Keeps(before, start)
    requires forall i :: |start.alive| <= i < |before.alive| ==> IsBrick(before, l, i)
    ensures var after := Append(before, BrickEntry(l, r, c, rnd, k));
      Uniform(after) && Keeps(after, start)
      && forall i :: |start.alive| <= i < |after.alive| ==> IsBrick(after, l, i)
  {
    var after := Append(before, BrickEntry(l, r, c, rnd, k));
    forall i | 0 <= i < |start.alive|
      ensures EntryAt(after, i) == EntryAt(start, i) && after.alive[i] == start.alive[i]
    {
      assert EntryAt(after, i) == EntryAt(before, i);
    }
    forall i | |start.alive| <= i < |after.alive|
      ensures IsBrick(after, l, i)
    {
      if i < |before.alive| {
        assert IsBrick(before, l, i);
      }
    }
  }

  /**
   * Brick (r, c) of a grid laid out from entity `base` on, with the
   * `rand()` stream at `calls`, is entity `base + r * cols + c`, with the
   * components `BrickEntry` gives it and the colour from the three values
   * from `calls + 3 * (r * cols + c)` on.
   */
  predicate PlacedBrick(s: Snapshot, base: nat, l: Layout, rnd: nat -> real, calls: nat, r: nat, c: nat) {
    var k := r * l.cols + c;
    Uniform(s) && 0 <= k && base + k < |s.alive| && EntryAt(s, base + k) == BrickEntry(l, r, c, rnd, calls + 3 * k)
  }

  /** Every brick before (r, c) in row-major order is placed. */
  predicate PlacedBefore(s: Snapshot, base: nat, l: Layout, rnd: nat -> real, calls: nat, r: nat, c: nat) {
    forall r': nat, c': nat :: r' <= r && c' < l.cols && (r' < r || c' < c) ==> PlacedBrick(s, base, l, rnd, calls, r', c')
  }

  /** A placed brick stays placed when one more entity is appended. */
  lemma PlacedKept(before: Snapshot, e: Entry, base: nat, l: Layout, rnd: nat -> real, calls: nat, r: nat, c: nat)
    requires PlacedBrick(before, base, l, rnd, calls, r, c)
    ensures PlacedBrick(Append(before, e), base, l, rnd, calls, r, c)
  {
    var k := r * l.cols + c;
    assert EntryAt(Append(before, e), base + k) == EntryAt(before, base + k);
  }

  /** The entity appended at index `base + r * cols + c` is brick (r, c) when it has brick (r, c)'s components. */
  lemma PlacedNew(before: Snapshot, base: nat, l: Layout, rnd: nat -> real, calls: nat, r: nat, c: nat)
    requires Uniform(before) && 0 <= l.cols && |before.alive| == base + r * l.cols + c
    ensures PlacedBrick(Append(before, BrickEntry(l, r, c, rnd, calls + 3 * (r * l.cols + c))), base, l, rnd, calls, r, c)
  {
    var e := BrickEntry(l, r, c, rnd, calls + 3 * (r * l.cols + c));
    assert EntryAt(Append(before, e), |before.alive|) == e;
  }

  /** Appending brick (r, c) places it and keeps the bricks placed before it. */
  lemma PlacedStep(before: Snapshot, base: nat, l: Layout, rnd: nat -> real, calls: nat, r: nat, c: nat)
    requires Uniform(before) && 0 <= l.cols && c < l.cols && |before.alive| == base + r * l.cols + c
    requires PlacedBefore(before, base, l, rnd, calls, r, c)
    ensures PlacedBefore(Append(before, BrickEntry(l, r, c, rnd, calls + 3 * (r * l.cols + c))), base, l, rnd, calls, r, c + 1)
  {
    var e := BrickEntry(l, r, c, rnd, calls + 3 * (r * l.cols + c));
    forall r': nat, c': nat | r' <= r && c' < l.cols && (r' < r || c' < c + 1)
      ensures PlacedBrick(Append(before, e), base, l, rnd, calls, r', c')
    {
      if r' == r && c' == c {
        PlacedNew(before, base, l, rnd, calls, r, c);
      } else {
        PlacedKept(before, e, base, l, rnd, calls, r', c');
      }
    }
  }

  /** A finished row: every brick before (r, cols) is every brick before (r + 1, 0). */
  lemma PlacedRow(s: Snapshot, base: nat, l: Layout, rnd: nat -> real, calls: nat, r: nat)
    requires 0 <= l.cols && PlacedBefore(s, base, l, rnd, calls, r, l.cols)
    ensures PlacedBefore(s, base, l, rnd, calls, r + 1, 0)
  {
    forall r': nat, c': nat | r' <= r + 1 && c' < l.cols && (r' < r + 1 || c' < 0)
      ensures PlacedBrick(s, base, l, rnd, calls, r', c')
    {
      assert r' < r || (r' == r && c' < l.cols);
    }
  }

  /**
   * `createBricksGrid`: rows x cols new entities, all alive bricks of the
   * given size, brick (r, c) at its grid place with its three `rand()`
   * colour channels, and every earlier entity kept (for grids that fit in
   * the id range).
   */
  method CreateBricksGrid(em: EntityManager, l: Layout, calls: nat, rnd: nat -> real) returns (next: nat)
    requires em.Valid() && l.cols >= 0 && l.rows >= 0 && |em.alive| + l.rows * l.cols < IdRange
    modifies em
    ensures em.Valid() && next == calls + 3 * (l.rows * l.cols)
    ensures |em.alive| == old(|em.alive|) + l.rows * l.cols && Keeps(em.Snap(), old(em.Snap()))
    ensures forall i :: old(|em.alive|) <= i < |em.alive| ==> IsBrick(em.Snap(), l, i)
    ensures forall r: nat, c: nat :: r < l.rows && c < l.cols ==> PlacedBrick(em.Snap(), old(|em.alive|), l, rnd, calls, r, c)
  {
    ghost var start := em.Snap();
    ghost var base := |start.alive|;
    next := calls;
    var r := 0;
    while r < l.rows
      invariant 0 <= r <= l.rows && em.Valid()
      invariant next == calls + 3 * (r * l.cols) && |em.alive| == |start.alive| + r * l.cols
      invariant Keeps(em.Snap(), start) && forall i :: |start.alive| <= i < |em.alive| ==> IsBrick(em.Snap(), l, i)
      invariant PlacedBefore(em.Snap(), base, l, rnd, calls, r, 0)
    {
      var c := 0;
      while c < l.cols
        invariant 0 <= c <= l.cols && em.Valid()
        invariant next == calls + 3 * (r * l.cols + c) && |em.alive| == |start.alive| + r * l.cols + c
        invariant Keeps(em.Snap(), start) && forall i :: |start.alive| <= i < |em.alive| ==> IsBrick(em.Snap(), l, i)
        invariant PlacedBefore(em.Snap(), base, l, rnd, calls, r, c)
      {
        SlotBelow(l.cols, r, c, l.rows);
        BrickStep(start, em.Snap(), l, r, c, rnd, next);
        PlacedStep(em.Snap(), base, l, rnd, calls, r, c);
        next := CreateBrick(em, l, r, c, next, rnd);
        c := c + 1;
      }
      PlacedRow(em.Snap(), base, l, rnd, calls, r);
      assert r * l.cols + l.cols == (r + 1) * l.cols;
      r := r + 1;
    }
    forall r: nat, c: nat | r < l.rows && c < l.cols
      ensures PlacedBrick(em.Snap(), base, l, rnd, calls, r, c)
    {
      assert PlacedBefore(em.Snap(), base, l, rnd, calls, l.rows, 0);
    }
  }

  /** What `setupGame` gives the paddle: bottom centre, 200 x 20, yellow. */
  const PaddleEntry: Entry := Entry(Position(ScreenWidth * 0.5, PaddleStartY), NoVelocity, RenderSize(200.0, 20.0),
                                    Color(0.8, 0.8, 0.2, 1.0), Gameplay(Paddle, 1))

  /** What `setupGame` gives the ball: above the paddle, 16 x 16, orange, moving up and to the side the coin picks. */
  function BallEntry(ballRight: bool): Entry {
    Entry(Position(ScreenWidth * 0.5, BallStartY), Velocity(BallSpeedX * (if ballRight then 1.0 else -1.0), BallSpeedY),
          RenderSize(16.0, 16.0), Color(1.0, 0.5, 0.2, 1.0), Gameplay(Ball, 1))
  }

  /** The paddle part of `setupGame`: a new entity made the paddle. */
  method CreatePaddle(em: EntityManager) returns (paddle: UInt32)
    requires em.Valid() && |em.alive| < IdRange
    modifies em
    ensures em.Valid() && paddle == old(|em.alive|) && em.Snap() == Append(old(em.Snap()), PaddleEntry)
  {
    ghost var s0 := em.Snap();
    paddle := em.CreateEntity();
    em.gameplay := em.gameplay[paddle := em.gameplay[paddle].(kind := Paddle)];
    em.renders := em.renders[paddle := RenderSize(200.0, 20.0)];
    em.positions := em.positions[paddle := Position(ScreenWidth * 0.5, PaddleStartY)];
    em.colors := em.colors[paddle := Color(0.8, 0.8, 0.2, 1.0)];
    assert em.positions == s0.positions + [PaddleEntry.position];
    assert em.renders == s0.renders + [PaddleEntry.size];
    assert em.colors == s0.colors + [PaddleEntry.color];
    assert em.gameplay == s0.gameplay + [PaddleEntry.gameplay];
  }

  /** The ball part of `setupGame`: a new entity made the ball; `ballRight` is the `rand() % 2` coin. */
  method CreateBall(em: EntityManager, ballRight: bool) returns (ball: UInt32)
    requires em.Valid() && |em.alive| < IdRange
    modifies em
    ensures em.Valid() && ball == old(|em.alive|) && em.Snap() == Append(old(em.Snap()), BallEntry(ballRight))
  {
    ghost var s0 := em.Snap();
    ball := em.CreateEntity();
    em.gameplay := em.gameplay[ball := em.gameplay[ball].(kind := Ball)];
    em.renders := em.renders[ball := RenderSize(8.0 * 2.0, 8.0 * 2.0)];
    em.positions := em.positions[ball := Position(ScreenWidth * 0.5, BallStartY)];
    em.velocities := em.velocities[ball := Velocity(BallSpeedX * (if ballRight then 1.0 else -1.0), BallSpeedY)];
    em.colors := em.colors[ball := Color(1.0, 0.5, 0.2, 1.0)];
    ghost var e := BallEntry(ballRight);
    assert em.positions == s0.positions + [e.position];
    assert em.velocities == s0.velocities + [e.velocity];
    assert em.renders == s0.renders + [e.size];
    assert em.colors == s0.colors + [e.color];
    assert em.gameplay == s0.gameplay + [e.gameplay];
  }

  /**
   * `setupGame` on a fresh manager: the paddle is entity 0, the ball
   * entity 1, and entities 2..61 are the 10 x 6 bricks, 100 x 30 with
   * padding 8, the grid centred with its first row at y = 600: brick
   * (r, c) is entity 2 + 10 r + c, coloured from `rand()` values 3 (10 r + c)
   * to 3 (10 r + c) + 2.
   */
  method SetupGame(em: EntityManager, ballRight: bool, rnd: nat -> real) returns (layout: Layout)
    requires em.Valid() && |em.alive| == 0
    modifies em
    ensures layout == Layout(10, 6, 154.0, 600.0, 100.0, 30.0, 8.0)
    ensures em.Valid() && |em.alive| == 62
    ensures EntryAt(em.Snap(), 0) == PaddleEntry && em.alive[0]
    ensures EntryAt(em.Snap(), 1) == BallEntry(ballRight) && em.alive[1]
    ensures forall i :: 2 <= i < 62 ==> IsBrick(em.Snap(), layout, i)
    ensures forall r: nat, c: nat :: r < 6 && c < 10 ==> PlacedBrick(em.Snap(), 2, layout, rnd, 0, r, c)
  {
    var paddle := CreatePaddle(em);
    var ball := CreateBall(em, ballRight);
    assert EntryAt(em.Snap(), 0) == PaddleEntry && em.alive[0];
    var cols, rows := 10, 6;
    var brickW, brickH, pad := 100.0, 30.0, 8.0;
    var totalW := cols as real * brickW + (cols - 1) as real * pad;
    var startX := (ScreenWidth - totalW) * 0.5 + brickW * 0.5;
    var startY := ScreenHeight - 120.0;
    layout := Layout(cols, rows, startX, startY, brickW, brickH, pad);
    var _ := CreateBricksGrid(em, layout, 0, rnd);
  }

  /**
   * After `setupGame`, `findFirstOfType` finds the paddle at 0 and the
   * ball at 1, and the alive bricks are exactly entities 2..61.
   */
  lemma SetupFinds(em: EntityManager)
    requires em.Valid() && |em.alive| == 62
    requires em.gameplay[0].kind == Paddle && em.alive[0] && em.gameplay[1].kind == Ball && em.alive[1]
    requires forall i :: 2 <= i < 62 ==> em.gameplay[i].kind == Brick && em.alive[i]
    ensures em.FirstOfKind(Paddle) == 0 && em.FirstOfKind(Ball) == 1
    ensures forall i :: em.AliveOfKind(i, Brick) <==> 2 <= i < 62
  {
    assert em.AliveOfKind(0, Paddle);
    assert !em.AliveOfKind(0, Ball) && em.AliveOfKind(1, Ball);
    assert em.FirstFrom(Ball, 1) == 1;
    assert em.FirstFrom(Ball, 0) == em.FirstFrom(Ball, 1);
  }
}
