/**
 * The object-oriented 3D Arkanoid of src/samples/oop_arkanoid3d.h: a `Game`
 * holding a vector of bricks with alive flags, a paddle, a ball and the
 * score/lives/flags, and the four game steps `resetGame`,
 * `resetBallPaddle`, `processInput` and `updatePhysics`, plus the brick
 * list `render` uploads.
 *
 * Each step is first a function on a `State` value, with the lemmas about
 * it; the class's methods are proved to perform those functions. The
 * cursor's world x (from GLFW), the frame time, the random brick colours and
 * `glm::normalize(v) * MAX_SPEED` are inputs.
 */
module OopArkanoid3d {
  import opened Wrappers
  import opened Vectors
  import opened Grids
  import opened Arkanoid3d

  /** `Brick`: its transform, colour, the model matrix cached at construction, and the alive flag. */
  datatype Brick = Brick(transform: Transform, color: Color, cachedMatrix: Mat4, alive: bool)

  /** `Brick(p, s, c)`: alive, with the matrix of its transform cached. */
  function NewBrick(p: Vec3, s: Vec3, c: Color): (b: Brick)
    ensures b.alive && b.cachedMatrix == GetMatrix(b.transform)
    ensures b.transform == Transform(p, s) && b.color == c
  {
    Brick(Transform(p, s), c, GetMatrix(Transform(p, s)), true)
  }

  /** `Ball`: transform, velocity and radius (its colour is fixed). */
  datatype Ball = Ball(transform: Transform, velocity: Vec3, radius: real)

  /** The paddle's and the ball's fixed colours. */
  const PaddleColor: Color := Color(0.3, 0.8, 0.3, 1.0)
  const BallColor: Color := Color(1.0, 0.2, 0.2, 1.0)

  /** The state `Game` keeps between frames. */
  datatype State = State(bricks: seq<Brick>, paddle: Transform, ball: Ball,
                         gameOver: bool, gameWon: bool, ballLaunched: bool,
                         score: int, lives: int, lastPaddleX: real, paddleVelocityX: real)

  // ---------------------------------------------------------------- bricks

  /** The number of dead bricks. */
  function DeadCount(bricks: seq<Brick>): (n: nat)
    ensures n <= |bricks|
  {
    if |bricks| == 0 then 0
    else DeadCount(bricks[..|bricks| - 1]) + (if bricks[|bricks| - 1].alive then 0 else 1)
  }

  /** Every brick is dead. */
  predicate AllDead(bricks: seq<Brick>) {
    forall i :: 0 <= i < |bricks| ==> !bricks[i].alive
  }

  /** All bricks are dead exactly when the dead count is the number of bricks; none is dead when all are alive. */
  lemma {:induction false} DeadCountBounds(bricks: seq<Brick>)
    ensures AllDead(bricks) <==> DeadCount(bricks) == |bricks|
    ensures (forall i :: 0 <= i < |bricks| ==> bricks[i].alive) ==> DeadCount(bricks) == 0
  {
    if |bricks| > 0 {
      var init := bricks[..|bricks| - 1];
      DeadCountBounds(init);
      assert forall i :: 0 <= i < |init| ==> init[i] == bricks[i];
    }
  }

  /** `brick.alive = false` on brick i. */
  function Kill(bricks: seq<Brick>, i: nat): (t: seq<Brick>)
    requires i < |bricks|
    ensures |t| == |bricks| && !t[i].alive
  {
    bricks[i := bricks[i].(alive := false)]
  }

  /** Killing an alive brick raises the dead count by exactly one. */
  lemma {:induction false} KillCounts(bricks: seq<Brick>, i: nat)
    requires i < |bricks| && bricks[i].alive
    ensures DeadCount(Kill(bricks, i)) == DeadCount(bricks) + 1
    decreases |bricks|
  {
    var t := Kill(bricks, i);
    var n := |bricks| - 1;
    if i < n {
      assert t[..n] == Kill(bricks[..n], i);
      KillCounts(bricks[..n], i);
    } else {
      assert t[..n] == bricks[..n];
    }
  }

  /**
   * Bricks only fade: the same bricks, except that some alive ones are now
   * dead. Nothing but `resetGame` brings a brick back.
   */
  ghost predicate Fades(before: seq<Brick>, after: seq<Brick>) {
    |after| == |before|
    && forall i :: 0 <= i < |before| ==>
         after[i] == before[i] || (before[i].alive && after[i] == before[i].(alive := false))
  }

  lemma FadesTransitive(a: seq<Brick>, b: seq<Brick>, c: seq<Brick>)
    requires Fades(a, b) && Fades(b, c)
    ensures Fades(a, c)
  {
  }

  /** A brick dead before is dead after, and the dead count never falls. */
  lemma {:induction false} FadesCount(before: seq<Brick>, after: seq<Brick>)
    requires Fades(before, after)
    ensures forall i :: 0 <= i < |before| && !before[i].alive ==> !after[i].alive
    ensures DeadCount(before) <= DeadCount(after)
    decreases |before|
  {
    if |before| > 0 {
      var n := |before| - 1;
      FadesCount(before[..n], after[..n]);
    }
  }

  /**
   * The first alive brick, from index i on, that the ball at `pos` with
   * radius `r` touches: the loop of `updatePhysics` skips dead bricks and
   * breaks at the first hit.
   */
  function FirstHitFrom(bricks: seq<Brick>, pos: Vec3, r: real, i: nat): (hit: Option<nat>)
    requires i <= |bricks|
    ensures hit.Some? ==> (i <= hit.value < |bricks| && bricks[hit.value].alive
      && CheckAABB(bricks[hit.value].transform.pos, bricks[hit.value].transform.scale, pos, r)
      && forall j :: i <= j < hit.value ==> !Touched(bricks[j], pos, r))
    ensures hit.None? ==> forall j :: i <= j < |bricks| ==> !Touched(bricks[j], pos, r)
    decreases |bricks| - i
  {
    if i == |bricks| then None
    else if Touched(bricks[i], pos, r) then Some(i)
    else FirstHitFrom(bricks, pos, r, i + 1)
  }

  /** An alive brick the ball touches. */
  predicate Touched(b: Brick, pos: Vec3, r: real) {
    b.alive && CheckAABB(b.transform.pos, b.transform.scale, pos, r)
  }

  function FirstHit(bricks: seq<Brick>, pos: Vec3, r: real): Option<nat> {
    FirstHitFrom(bricks, pos, r, 0)
  }

  /** The alive bricks, in vector order. */
  function Visible(bricks: seq<Brick>): seq<Brick> {
    if |bricks| == 0 then []
    else Visible(bricks[..|bricks| - 1]) + (if bricks[|bricks| - 1].alive then [bricks[|bricks| - 1]] else [])
  }

  /** The visible list holds exactly the alive bricks, and as many as are not dead. */
  lemma {:induction false} VisibleFacts(bricks: seq<Brick>)
    ensures |Visible(bricks)| + DeadCount(bricks) == |bricks|
    ensures forall b :: b in Visible(bricks) <==> b in bricks && b.alive
  {
    if |bricks| > 0 {
      var n := |bricks| - 1;
      VisibleFacts(bricks[..n]);
      assert bricks == bricks[..n] + [bricks[n]];
    }
  }

  /** The bricks' cached matrices, in order. */
  function MatricesOf(bs: seq<Brick>): seq<Mat4> {
    if |bs| == 0 then [] else MatricesOf(bs[..|bs| - 1]) + [bs[|bs| - 1].cachedMatrix]
  }

  /** The bricks' colours, in order. */
  function ColorsOf(bs: seq<Brick>): seq<Color> {
    if |bs| == 0 then [] else ColorsOf(bs[..|bs| - 1]) + [bs[|bs| - 1].color]
  }

  /** One matrix and one colour per brick, each that brick's. */
  lemma {:induction false} MatricesLength(bs: seq<Brick>)
    ensures |MatricesOf(bs)| == |bs| && |ColorsOf(bs)| == |bs|
    ensures forall k :: 0 <= k < |bs| ==> MatricesOf(bs)[k] == bs[k].cachedMatrix && ColorsOf(bs)[k] == bs[k].color
  {
    if |bs| > 0 {
      MatricesLength(bs[..|bs| - 1]);
    }
  }

  /** One more brick seen extends the render lists by it when it is alive, and leaves them otherwise. */
  lemma VisibleStep(done: seq<Brick>, b: Brick)
    ensures b.alive ==> MatricesOf(Visible(done + [b])) == MatricesOf(Visible(done)) + [b.cachedMatrix]
    ensures b.alive ==> ColorsOf(Visible(done + [b])) == ColorsOf(Visible(done)) + [b.color]
    ensures !b.alive ==> Visible(done + [b]) == Visible(done)
  {
    assert (done + [b])[..|done|] == done;
    if b.alive {
      assert Visible(done + [b]) == Visible(done) + [b];
      assert (Visible(done) + [b])[..|Visible(done)|] == Visible(done);
    }
  }

  // ------------------------------------------------------------ the wall

  /** The one-brick block of row r, column c of the wall, with its random colour. */
  function WallCell(colorOf: (nat, nat) -> Color): (nat, nat) -> seq<Brick> {
    (r: nat, c: nat) => [NewBrick(BrickPos(r, c), BrickSize, colorOf(r, c))]
  }

  /** The bricks `resetGame`'s nested loops emplace, row by row. */
  function Wall(rows: nat, cols: nat, colorOf: (nat, nat) -> Color): seq<Brick> {
    Grid(rows, cols, WallCell(colorOf))
  }

  /** The wall's bricks are one-brick blocks. */
  lemma WallUniform(rows: nat, cols: nat, colorOf: (nat, nat) -> Color)
    ensures Uniform(rows, cols, WallCell(colorOf), 1)
  {
    var f := WallCell(colorOf);
    forall y: nat, x: nat | y < rows && x < cols ensures |f(y, x)| == 1 {
      assert f(y, x) == [NewBrick(BrickPos(y, x), BrickSize, colorOf(y, x))];
    }
  }

  /** The wall holds rows * cols bricks. */
  lemma WallLength(rows: nat, cols: nat, colorOf: (nat, nat) -> Color)
    ensures |Wall(rows, cols, colorOf)| == rows * cols
  {
    WallUniform(rows, cols, colorOf);
    GridLength(rows, cols, WallCell(colorOf), 1);
  }

  /** Brick r * cols + c of the wall is the one `resetGame` builds for row r, column c. */
  lemma WallAt(rows: nat, cols: nat, colorOf: (nat, nat) -> Color, r: nat, c: nat)
    requires r < rows && c < cols
    ensures |Wall(rows, cols, colorOf)| == rows * cols && r * cols + c < rows * cols
    ensures Wall(rows, cols, colorOf)[r * cols + c] == NewBrick(BrickPos(r, c), BrickSize, colorOf(r, c))
  {
    var f := WallCell(colorOf);
    WallUniform(rows, cols, colorOf);
    GridAt(rows, cols, f, 1, r, c, 0);
    assert f(r, c) == [NewBrick(BrickPos(r, c), BrickSize, colorOf(r, c))];
  }

  /** Every brick of the wall is alive and has its matrix cached. */
  lemma WallAlive(rows: nat, cols: nat, colorOf: (nat, nat) -> Color)
    ensures forall i :: 0 <= i < |Wall(rows, cols, colorOf)| ==>
      Wall(rows, cols, colorOf)[i].alive && Cached(Wall(rows, cols, colorOf)[i])
  {
    var f := WallCell(colorOf);
    var w := Wall(rows, cols, colorOf);
    forall i | 0 <= i < |w| ensures w[i].alive && Cached(w[i]) {
      var y, x := GridMembers(rows, cols, f, w[i]);
      assert f(y, x) == [NewBrick(BrickPos(y, x), BrickSize, colorOf(y, x))];
    }
  }

  /** The brick's cached matrix is its transform's. */
  predicate Cached(b: Brick) {
    b.cachedMatrix == GetMatrix(b.transform)
  }

  // --------------------------------------------------------- the steps

  /** `resetBallPaddle`: paddle home, ball rescaled and given its start velocity (its position is left), not launched. */
  function RoundReset(s: State): State {
    s.(paddle := Transform(PaddleStart, PaddleScale),
       ballLaunched := false,
       ball := s.ball.(transform := s.ball.transform.(scale := Vec3(BallRadius, BallRadius, BallRadius)),
                       radius := BallRadius, velocity := BallStartVel),
       lastPaddleX := PaddleStart.x, paddleVelocityX := 0.0)
  }

  /** `resetGame`: score and lives restored, flags cleared, a new wall, then `resetBallPaddle`. */
  function GameReset(s: State, colorOf: (nat, nat) -> Color): State {
    RoundReset(s.(score := 0, lives := InitialLives, gameOver := false, gameWon := false,
                       ballLaunched := false, bricks := Wall(Rows, Cols, colorOf)))
  }

  /**
   * `processInput`: the paddle eases toward the cursor's world x and is
   * clamped inside the field; its x velocity is measured when dt > 0 (else
   * 0); Space launches the ball unless it is launched or the game is over
   * or won.
   */
  function Input(s: State, dt: real, worldX: real, space: bool): State
    requires s.paddle.scale.x * 0.5 <= MaxX
  {
    var prevX := s.paddle.pos.x;
    var moved := prevX + (worldX - prevX) * 15.0 * dt;
    var halfW := s.paddle.scale.x * 0.5;
    var x := Clamp(moved, MinX + halfW, MaxX - halfW);
    s.(paddle := s.paddle.(pos := s.paddle.pos.(x := x)),
       paddleVelocityX := if dt > 0.0 then (x - prevX) / dt else 0.0,
       lastPaddleX := x,
       ballLaunched := if space && !s.ballLaunched && !s.gameOver && !s.gameWon then true else s.ballLaunched)
  }

  /**
   * The ball's flight in a launched frame: integrate, bounce off the walls,
   * then off the paddle when it touches it (reflect up, add spin, push out
   * along y only, speed up). The flown x and z are kept either way.
   */
  function Flight(b: Ball, paddle: Transform, paddleVelocityX: real, dt: real, capped: Vec3 -> Vec3): (r: Ball)
    ensures var (p, v) := Walls(Add(b.transform.pos, Scale(dt, b.velocity)), b.velocity);
      r.radius == b.radius && r.transform.scale == b.transform.scale
      && r.transform.pos.x == p.x && r.transform.pos.z == p.z && MinX <= r.transform.pos.x <= MaxX
      && (CheckAABB(paddle.pos, paddle.scale, p, b.radius) ==>
            r.transform.pos.y - paddle.pos.y == paddle.scale.y * 0.5 + b.radius + 0.1)
      && (!CheckAABB(paddle.pos, paddle.scale, p, b.radius) ==> r.transform.pos == p && r.velocity == v)
  {
    var (p, v) := Walls(Add(b.transform.pos, Scale(dt, b.velocity)), b.velocity);
    if CheckAABB(paddle.pos, paddle.scale, p, b.radius) then
      var r := Reflect(v, Vec3(0.0, 1.0, 0.0));
      var spun := r.(x := r.x + paddleVelocityX * 0.12);
      var pushed := p.(y := paddle.pos.y + paddle.scale.y * 0.5 + b.radius + 0.1);
      b.(transform := b.transform.(pos := pushed), velocity := Speedup(spun, capped))
    else
      b.(transform := b.transform.(pos := p), velocity := v)
  }

  /** The brick branch's bounce: reflect in the contact normal, then speed up. */
  function Bounce(b: Ball, brick: Brick, capped: Vec3 -> Vec3): Ball {
    b.(velocity := Speedup(Reflect(b.velocity, ContactNormal(b.transform.pos, brick.transform.pos)), capped))
  }

  /** After the bricks: a ball below MIN_Y costs a life, and the game ends or the round restarts; all bricks dead wins. */
  function Judge(s: State): State {
    var s1 :=
      if s.ball.transform.pos.y < MinY then
        var hurt := s.(lives := s.lives - 1);
        if hurt.lives <= 0 then hurt.(gameOver := true, ballLaunched := false) else RoundReset(hurt)
      else s;
    if AllDead(s1.bricks) then s1.(gameWon := true, gameOver := true, ballLaunched := false) else s1
  }

  /** The unlaunched branch: the ball rests 0.2 above the paddle's top, centred on it. */
  function Place(s: State): State {
    s.(ball := s.ball.(transform := s.ball.transform.(pos := Above(s.paddle, s.ball.radius, 0.2, s.ball.transform.pos))))
  }

  /** The brick loop on the flown ball: the first alive brick it touches dies, scores SCORE_PER_BRICK and bounces it. */
  function Strike(s: State, capped: Vec3 -> Vec3): State {
    var hit := FirstHit(s.bricks, s.ball.transform.pos, s.ball.radius);
    if hit.Some? then
      s.(ball := Bounce(s.ball, s.bricks[hit.value], capped), bricks := Kill(s.bricks, hit.value),
         score := s.score + ScorePerBrick)
    else s
  }

  /**
   * `updatePhysics`: an unlaunched ball only rests on the paddle; a
   * launched one flies, strikes at most one brick, and then the frame is
   * judged.
   */
  function Physics(s: State, dt: real, capped: Vec3 -> Vec3): State {
    if !s.ballLaunched then Place(s)
    else Judge(Strike(s.(ball := Flight(s.ball, s.paddle, s.paddleVelocityX, dt, capped)), capped))
  }

  // ------------------------------------------------------------ invariant

  /**
   * What every frame keeps: ROWS * COLS bricks with their matrices cached,
   * SCORE_PER_BRICK per dead brick, lives in [0, 3] and at least 1 while the
   * game runs, a won game is over with every brick dead, a finished game
   * has no ball in flight, and the paddle and ball keep their sizes.
   */
  ghost predicate Valid(s: State) {
    |s.bricks| == Rows * Cols
    && (forall i :: 0 <= i < |s.bricks| ==> Cached(s.bricks[i]))
    && s.score == ScorePerBrick * DeadCount(s.bricks)
    && 0 <= s.lives <= InitialLives
    && (!s.gameOver ==> s.lives >= 1)
    && (s.gameWon ==> s.gameOver && AllDead(s.bricks))
    && (s.gameOver ==> !s.ballLaunched)
    && s.paddle.scale == PaddleScale
    && s.ball.radius == BallRadius
  }

  /** `resetGame` starts a valid game: score 0, three lives, no flags, three hundred alive bricks. */
  lemma ResetGameValid(s: State, colorOf: (nat, nat) -> Color)
    ensures var t := GameReset(s, colorOf);
      Valid(t) && t.score == 0 && t.lives == InitialLives && !t.gameOver && !t.gameWon && !t.ballLaunched
      && |t.bricks| == Rows * Cols && (forall i :: 0 <= i < |t.bricks| ==> t.bricks[i].alive)
      && t.paddle.pos == PaddleStart && t.ball.velocity == BallStartVel
  {
    var t := GameReset(s, colorOf);
    WallLength(Rows, Cols, colorOf);
    WallAlive(Rows, Cols, colorOf);
    DeadCountBounds(t.bricks);
  }

  /** `processInput` keeps the invariant, leaves the bricks and score alone, and keeps the paddle inside the field. */
  lemma InputValid(s: State, dt: real, worldX: real, space: bool)
    requires Valid(s)
    ensures var t := Input(s, dt, worldX, space);
      Valid(t) && t.bricks == s.bricks && t.score == s.score && t.lives == s.lives
      && MinX + PaddleScale.x * 0.5 <= t.paddle.pos.x <= MaxX - PaddleScale.x * 0.5
  {
  }

  /** The launch rule of `processInput`: launched after it exactly when launched before, or Space with the game still on. */
  lemma LaunchRule(s: State, dt: real, worldX: real, space: bool)
    requires Valid(s)
    ensures Input(s, dt, worldX, space).ballLaunched <==> s.ballLaunched || (space && !s.gameOver && !s.gameWon)
  {
  }

  /** Unlaunched, `updatePhysics` only places the ball over the paddle: bricks, score, lives and flags stay. */
  lemma UnlaunchedOnlyPlaces(s: State, dt: real, capped: Vec3 -> Vec3)
    requires !s.ballLaunched
    ensures var t := Physics(s, dt, capped);
      t == s.(ball := t.ball) && t.ball.transform.pos.x == s.paddle.pos.x
      && t.ball.transform.pos.y == s.paddle.pos.y + s.paddle.scale.y * 0.5 + s.ball.radius + 0.2
  {
  }

  /**
   * At most one brick dies in the brick loop: either none, or exactly the
   * first alive brick the ball touches, for SCORE_PER_BRICK.
   */
  lemma AtMostOneBrick(s: State, capped: Vec3 -> Vec3)
    ensures var t := Strike(s, capped);
      Fades(s.bricks, t.bricks)
      && ((t.bricks == s.bricks && t.score == s.score)
          || exists i :: 0 <= i < |s.bricks| && s.bricks[i].alive && t.bricks == Kill(s.bricks, i)
               && t.score == s.score + ScorePerBrick
               && FirstHit(s.bricks, s.ball.transform.pos, s.ball.radius) == Some(i))
  {
    var hit := FirstHit(s.bricks, s.ball.transform.pos, s.ball.radius);
    if hit.Some? {
      assert s.bricks[hit.value].alive;
    }
  }

  /** Judging touches neither bricks nor score, but the whole frame lets bricks only fade. */
  lemma FrameFades(s: State, dt: real, capped: Vec3 -> Vec3)
    ensures Fades(s.bricks, Physics(s, dt, capped).bricks)
  {
    if s.ballLaunched {
      var flown := s.(ball := Flight(s.ball, s.paddle, s.paddleVelocityX, dt, capped));
      AtMostOneBrick(flown, capped);
      VictoryRule(Strike(flown, capped));
    } else {
      assert Physics(s, dt, capped).bricks == s.bricks;
    }
  }

  /**
   * The death rule: a ball below MIN_Y costs exactly one life; the game is
   * then over iff no life is left, and otherwise the round restarts with
   * the paddle home.
   */
  lemma DeathRule(s: State)
    ensures var t := Judge(s);
      (s.ball.transform.pos.y < MinY ==> (t.lives == s.lives - 1 && !t.ballLaunched
         && (t.lives <= 0 ==> t.gameOver)
         && (t.lives > 0 ==> t.paddle == Transform(PaddleStart, PaddleScale) && t.ball.velocity == BallStartVel)))
      && (s.ball.transform.pos.y >= MinY ==> t.lives == s.lives)
  {
  }

  /** The victory rule: when every brick is dead the game is won and over, and the ball is grounded; otherwise the won flag stays. */
  lemma VictoryRule(s: State)
    ensures var t := Judge(s);
      (AllDead(s.bricks) ==> t.gameWon && t.gameOver && !t.ballLaunched)
      && (!AllDead(s.bricks) ==> t.gameWon == s.gameWon)
      && t.bricks == s.bricks && t.score == s.score
  {
  }

  /** The brick loop keeps the invariant: the score goes up SCORE_PER_BRICK exactly when a brick dies. */
  lemma StrikeValid(s: State, capped: Vec3 -> Vec3)
    requires Valid(s)
    ensures Valid(Strike(s, capped))
  {
    var hit := FirstHit(s.bricks, s.ball.transform.pos, s.ball.radius);
    if hit.Some? {
      KillCounts(s.bricks, hit.value);
    }
  }

  /** Judging a running game keeps the invariant. */
  lemma JudgeValid(s: State)
    requires Valid(s) && !s.gameOver
    ensures Valid(Judge(s))
  {
  }

  /** `updatePhysics` keeps the invariant. */
  lemma PhysicsValid(s: State, dt: real, capped: Vec3 -> Vec3)
    requires Valid(s)
    ensures Valid(Physics(s, dt, capped))
  {
    if s.ballLaunched {
      var flown := s.(ball := Flight(s.ball, s.paddle, s.paddleVelocityX, dt, capped));
      assert Valid(flown);
      StrikeValid(flown, capped);
      JudgeValid(Strike(flown, capped));
    }
  }

  /** With the invariant, the render list's length follows from the score: one brick fewer per SCORE_PER_BRICK. */
  lemma RenderCount(s: State)
    requires Valid(s)
    ensures |Visible(s.bricks)| == Rows * Cols - s.score / ScorePerBrick
  {
    VisibleFacts(s.bricks);
  }

  // ------------------------------------------------------------ the class

  /** What `render` uploads: the alive bricks' cached matrices and colours (no draw when empty), then paddle and ball. */
  datatype DrawList = DrawList(brickMatrices: seq<Mat4>, brickColors: seq<Color>, drawBricks: bool,
                               paddle: (Mat4, Color), ball: (Mat4, Color))

  /** `Game`'s simulation state. */
  class Game {
    var bricks: seq<Brick>
    var paddle: Transform
    var ball: Ball
    var gameOver: bool
    var gameWon: bool
    var ballLaunched: bool
    var score: int
    var lives: int
    var lastPaddleX: real
    var paddleVelocityX: real

    function Snap(): State
      reads this
    {
      State(bricks, paddle, ball, gameOver, gameWon, ballLaunched, score, lives, lastPaddleX, paddleVelocityX)
    }

    /**
     * `Game game; game.init()`: the default member values, then
     * `resetGame`. The ball's velocity and radius have no initialiser; they
     * are the parameters until `resetBallPaddle` sets them.
     */
    constructor (velocity0: Vec3, radius0: real, colorOf: (nat, nat) -> Color)
      ensures Snap() == GameReset(State([], Transform(Zero3, Vec3(1.0, 1.0, 1.0)),
                                        Ball(Transform(Zero3, Vec3(1.0, 1.0, 1.0)), velocity0, radius0),
                                        false, false, false, 0, InitialLives, PaddleStart.x, 0.0), colorOf)
      ensures Valid(Snap())
    {
      bricks := [];
      paddle := Transform(Zero3, Vec3(1.0, 1.0, 1.0));
      ball := Ball(Transform(Zero3, Vec3(1.0, 1.0, 1.0)), velocity0, radius0);
      gameOver, gameWon, ballLaunched := false, false, false;
      score, lives := 0, InitialLives;
      lastPaddleX, paddleVelocityX := PaddleStart.x, 0.0;
      new;
      ResetGame(colorOf);
    }

    /** `resetBallPaddle`. */
    method ResetBallPaddle()
      modifies this
      ensures Snap() == RoundReset(old(Snap()))
    {
      paddle := Transform(PaddleStart, PaddleScale);
      ballLaunched := false;
      ball := ball.(transform := ball.transform.(scale := Vec3(BallRadius, BallRadius, BallRadius)));
      ball := ball.(radius := BallRadius);
      ball := ball.(velocity := BallStartVel);
      lastPaddleX := paddle.pos.x;
      paddleVelocityX := 0.0;
    }

    /** `resetGame`; `colorOf(r, c)` is the `RandomColor()` brick (r, c) draws. */
    method ResetGame(colorOf: (nat, nat) -> Color)
      modifies this
      ensures Snap() == GameReset(old(Snap()), colorOf)
      ensures Valid(Snap())
    {
      score := 0;
      lives := InitialLives;
      gameOver := false;
      gameWon := false;
      ballLaunched := false;
      bricks := [];
      bricks := FillGrid(Rows, Cols, WallCell(colorOf));
      ResetBallPaddle();
      ResetGameValid(old(Snap()), colorOf);
    }

    /** `processInput`: `worldX` is the cursor mapped into the field, `space` whether Space is down. */
    method ProcessInput(dt: real, worldX: real, space: bool)
      requires Valid(Snap())
      modifies this
      ensures Snap() == Input(old(Snap()), dt, worldX, space) && Valid(Snap())
    {
      InputValid(Snap(), dt, worldX, space);
      var prevPaddleX := paddle.pos.x;
      var x := paddle.pos.x + (worldX - paddle.pos.x) * 15.0 * dt;
      var halfW := paddle.scale.x * 0.5;
      x := if x < MinX + halfW then MinX + halfW else if MaxX - halfW < x then MaxX - halfW else x;
      paddle := paddle.(pos := paddle.pos.(x := x));
      if dt > 0.0 {
        paddleVelocityX := (paddle.pos.x - prevPaddleX) / dt;
      } else {
        paddleVelocityX := 0.0;
      }
      lastPaddleX := paddle.pos.x;
      if space {
        if !ballLaunched && !gameOver && !gameWon {
          ballLaunched := true;
        }
      }
    }

    /** The brick loop's search: skip dead bricks, stop at the first the ball touches. */
    method FindFirstHit() returns (hit: Option<nat>)
      ensures hit == FirstHit(bricks, ball.transform.pos, ball.radius)
    {
      for i := 0 to |bricks|
        invariant FirstHitFrom(bricks, ball.transform.pos, ball.radius, i) == FirstHit(bricks, ball.transform.pos, ball.radius)
      {
        if !bricks[i].alive {
          continue;
        }
        if CheckAABB(bricks[i].transform.pos, bricks[i].transform.scale, ball.transform.pos, ball.radius) {
          return Some(i);
        }
      }
      return None;
    }

    /** The brick loop of `updatePhysics`: the brick found dies, scores, and bounces the ball. */
    method StrikeBricks(capped: Vec3 -> Vec3)
      modifies this
      ensures Snap() == Strike(old(Snap()), capped)
    {
      var hit := FindFirstHit();
      if hit.Some? {
        var brick := bricks[hit.value];
        bricks := bricks[hit.value := brick.(alive := false)];
        score := score + ScorePerBrick;
        var normal := ContactNormal(ball.transform.pos, brick.transform.pos);
        ball := ball.(velocity := Speedup(Reflect(ball.velocity, normal), capped));
      }
    }

    /** The end of `updatePhysics`: the death check, then the victory check. */
    method JudgeFrame()
      modifies this
      ensures Snap() == Judge(old(Snap()))
    {
      if ball.transform.pos.y < MinY {
        lives := lives - 1;
        if lives <= 0 {
          gameOver := true;
          ballLaunched := false;
        } else {
          ResetBallPaddle();
        }
      }
      var allDestroyed := AllDestroyed();
      if allDestroyed {
        gameWon := true;
        gameOver := true;
        ballLaunched := false;
      }
    }

    /** The victory loop: true until an alive brick is found. */
    method AllDestroyed() returns (allDestroyed: bool)
      ensures allDestroyed <==> AllDead(bricks)
    {
      allDestroyed := true;
      for i := 0 to |bricks|
        invariant allDestroyed <==> forall j :: 0 <= j < i ==> !bricks[j].alive
      {
        if bricks[i].alive {
          allDestroyed := false;
          break;
        }
      }
    }

    /** `updatePhysics`; `capped(v)` is `glm::normalize(v) * MAX_SPEED`. */
    method UpdatePhysics(dt: real, capped: Vec3 -> Vec3)
      requires Valid(Snap())
      modifies this
      ensures Snap() == Physics(old(Snap()), dt, capped) && Valid(Snap())
    {
      PhysicsValid(Snap(), dt, capped);
      if !ballLaunched {
        ball := ball.(transform := ball.transform.(pos := ball.transform.pos.(x := paddle.pos.x)));
        ball := ball.(transform := ball.transform.(pos := ball.transform.pos.(y := paddle.pos.y + paddle.scale.y * 0.5 + ball.radius + 0.2)));
        return;
      }
      ball := Flight(ball, paddle, paddleVelocityX, dt, capped);
      StrikeBricks(capped);
      JudgeFrame();
    }

    /** `render`'s uploads: the alive bricks' cached matrices and colours in order, then the paddle's and the ball's. */
    method Render() returns (d: DrawList)
      ensures d.brickMatrices == MatricesOf(Visible(bricks)) && d.brickColors == ColorsOf(Visible(bricks))
      ensures d.drawBricks <==> |Visible(bricks)| > 0
      ensures d.paddle == (GetMatrix(paddle), PaddleColor) && d.ball == (GetMatrix(ball.transform), BallColor)
    {
      var renderMatrices: seq<Mat4> := [];
      var renderColors: seq<Color> := [];
      for i := 0 to |bricks|
        invariant renderMatrices == MatricesOf(Visible(bricks[..i])) && renderColors == ColorsOf(Visible(bricks[..i]))
      {
        assert bricks[..i + 1] == bricks[..i] + [bricks[i]];
        VisibleStep(bricks[..i], bricks[i]);
        if bricks[i].alive {
          renderMatrices := renderMatrices + [bricks[i].cachedMatrix];
          renderColors := renderColors + [bricks[i].color];
        }
      }
      assert bricks[..|bricks|] == bricks;
      MatricesLength(Visible(bricks));
      d := DrawList(renderMatrices, renderColors, |renderMatrices| > 0,
                    (GetMatrix(paddle), PaddleColor), (GetMatrix(ball.transform), BallColor));
    }
  }
}
