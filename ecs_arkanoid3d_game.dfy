/**
 * The frame of `Game::run` in src/samples/ecs_arkanoid3d.h: input, then,
 * while the game is not over, physics and logic; once it is over, R
 * restarts it with `resetGame`. Across frames the score stays
 * SCORE_PER_BRICK times the number of bricks destroyed since the last
 * reset, the lives stay between 0 and INITIAL_LIVES, and a game that is
 * not over has a life left.
 */
module EcsArkanoid3dGame {
  import opened Wrappers
  import opened Vectors
  import opened Arkanoid3d
  import opened EcsArkanoid3d
  import opened EcsArkanoid3dInput
  import opened EcsArkanoid3dPhysics
  import opened EcsArkanoid3dLogic

  // ------------------------------------------------------------ what a frame is given

  /** The longest step one frame integrates over. */
  const MaxDt: real := 0.05

  /** `dt = min(now - lastTime, 0.05)`: the time since the last frame, capped. */
  function FrameDt(elapsed: real): (dt: real)
    ensures dt <= MaxDt
    ensures elapsed <= MaxDt <==> dt == elapsed
    ensures elapsed > MaxDt <==> dt == MaxDt && dt < elapsed
  {
    if elapsed < MaxDt then elapsed else MaxDt
  }

  /** The frame's input: time since the last frame, cursor x mapped into the field, Space and R. */
  datatype Controls = Controls(elapsed: real, worldX: real, space: bool, restart: bool)

  /**
   * The iteration orders of the `unordered_map` walks of one frame: players
   * and game states (input), tags and colliders (physics) and the tags once
   * physics has destroyed the bricks hit (logic).
   */
  datatype Walks = Walks(players: seq<Entity>, states: seq<Entity>, tags: seq<Entity>, colliders: seq<Entity>,
                         judge: seq<Entity>)

  // ------------------------------------------------------------ the frame

  /** The world physics and logic start from: the one input left behind. */
  function Steered(w: World, c: Controls): World
    requires Steerable(w.transforms, w.players)
  {
    Input(w, c.worldX, FrameDt(c.elapsed), c.space)
  }

  /** What a frame needs of the world so that no pointer `PhysicsSystem` follows is null. */
  ghost predicate FrameReady(w: World, c: Controls, walks: Walks) {
    Steerable(w.transforms, w.players)
    && (!Steered(w, c).globalState.gameOver ==> PhysicsReady(Steered(w, c), walks.tags))
  }

  /**
   * One pass of the loop in `Game::run`, with `colorOf` the random brick
   * colours a restart would draw and `capped` the speed cap.
   */
  function Frame(w: World, c: Controls, colorOf: (nat, nat) -> Color, walks: Walks, capped: Vec3 -> Vec3): World
    requires FrameReady(w, c, walks)
  {
    var steered := Steered(w, c);
    if !steered.globalState.gameOver then
      Logic(Physics(steered, FrameDt(c.elapsed), walks.tags, walks.colliders, capped), walks.judge)
    else if c.restart then Built(colorOf, Rows * Cols)
    else steered
  }

  // ------------------------------------------------------------ the invariant

  /**
   * The score is SCORE_PER_BRICK for each of the ROWS * COLS bricks no
   * longer there; the lives are within 0 .. INITIAL_LIVES and at least one
   * while the game runs; a won game is over and has no brick.
   */
  predicate Scoreboard(w: World) {
    var g := w.globalState;
    g.score + ScorePerBrick * |Bricks(w.tags)| == ScorePerBrick * (Rows * Cols)
    && 0 <= g.lives <= InitialLives
    && (!g.gameOver ==> g.lives >= 1)
    && (g.gameWon ==> g.gameOver && Bricks(w.tags) == {})
  }

  /** The registry's ids are issued, its components owned, its scoreboard consistent. */
  predicate Valid(w: World) {
    IdsIssued(w) && Owned(w) && Scoreboard(w)
  }

  /** The wall of n bricks holds n bricks, and no id at or past n + 3 carries a tag. */
  lemma {:induction false} BuiltBricks(n: nat)
    requires n <= Rows * Cols
    ensures |Bricks(BuiltTags(n))| == n
    ensures forall e :: e in BuiltTags(n) ==> 1 <= e < n + 3
  {
    if n == 0 {
      assert Bricks(BuiltTags(0)) == {};
    } else {
      BuiltBricks(n - 1);
      var e := (n + 2) as Entity;
      assert e !in BuiltTags(n - 1);
      assert Bricks(BuiltTags(n)) == Bricks(BuiltTags(n - 1)) + {e};
    }
  }

  /** `resetGame` builds a valid world: no score, INITIAL_LIVES lives, all ROWS * COLS bricks. */
  lemma ResetValid(colorOf: (nat, nat) -> Color)
    ensures Valid(Built(colorOf, Rows * Cols))
  {
    var b := Built(colorOf, Rows * Cols);
    BuiltBricks(Rows * Cols);
    forall e | 1 <= e < Rows * Cols + 3
      ensures e in b.entities
    {
      assert b.entities[e - 1] == e;
    }
    forall e | e in b.entities
      ensures NullEntity < e < b.nextId
    {
    }
    forall e | e in b.transforms || e in b.colliders || e in b.renderables
      ensures 1 <= e < Rows * Cols + 3
    {
      BuiltFacts(colorOf, Rows * Cols, e);
    }
  }

  /** `InputSystem::Update` keeps the world valid. */
  lemma InputValid(w: World, worldX: real, dt: real, space: bool)
    requires Steerable(w.transforms, w.players) && Valid(w)
    ensures Valid(Input(w, worldX, dt, space))
  {
    InputKeeps(w, worldX, dt, space);
    LaunchRule(w, worldX, dt, space, NullEntity);
    var t := Input(w, worldX, dt, space);
    forall e | e in t.tags
      ensures e in t.entities
    {
      LaunchRule(w, worldX, dt, space, e);
    }
  }

  /** `PhysicsSystem::Update`, with a collider walk without repeats, keeps the world valid. */
  lemma PhysicsKeepsValid(w: World, dt: real, tagOrder: seq<Entity>, colliderOrder: seq<Entity>, capped: Vec3 -> Vec3)
    requires PhysicsReady(w, tagOrder) && Distinct(colliderOrder) && Valid(w)
    ensures Valid(Physics(w, dt, tagOrder, colliderOrder, capped))
  {
    PhysicsScores(w, dt, tagOrder, colliderOrder, capped);
    PhysicsValid(w, dt, tagOrder, colliderOrder, capped);
  }

  /** `GameLogicSystem::Update` keeps a running game's world valid. */
  lemma LogicValid(w: World, tagOrder: seq<Entity>)
    requires Valid(w) && !w.globalState.gameOver
    ensures Valid(Logic(w, tagOrder))
  {
    LogicKeeps(w, tagOrder);
    DeathRule(w, tagOrder);
    VictoryRule(w, tagOrder);
  }

  /** Every frame keeps the world valid. */
  lemma FrameValid(w: World, c: Controls, colorOf: (nat, nat) -> Color, walks: Walks, capped: Vec3 -> Vec3)
    requires FrameReady(w, c, walks) && Distinct(walks.colliders) && Valid(w)
    ensures Valid(Frame(w, c, colorOf, walks, capped))
  {
    var dt := FrameDt(c.elapsed);
    var steered := Steered(w, c);
    InputValid(w, c.worldX, dt, c.space);
    if !steered.globalState.gameOver {
      var moved := Physics(steered, dt, walks.tags, walks.colliders, capped);
      PhysicsKeepsValid(steered, dt, walks.tags, walks.colliders, capped);
      PhysicsScores(steered, dt, walks.tags, walks.colliders, capped);
      LogicValid(moved, walks.judge);
    } else if c.restart {
      ResetValid(colorOf);
    }
  }

  /** Short of a restart a frame never brings a brick back. */
  lemma FrameKeepsBricks(w: World, c: Controls, colorOf: (nat, nat) -> Color, walks: Walks, capped: Vec3 -> Vec3)
    requires FrameReady(w, c, walks) && Distinct(walks.colliders) && !(w.globalState.gameOver && c.restart)
    ensures Bricks(Frame(w, c, colorOf, walks, capped).tags) <= Bricks(w.tags)
  {
    var dt := FrameDt(c.elapsed);
    var steered := Steered(w, c);
    LaunchRule(w, c.worldX, dt, c.space, NullEntity);
    if !steered.globalState.gameOver {
      var moved := Physics(steered, dt, walks.tags, walks.colliders, capped);
      PhysicsScores(steered, dt, walks.tags, walks.colliders, capped);
      LogicKeeps(moved, walks.judge);
    }
  }

  /** Short of a restart the score never falls. */
  lemma FrameProgress(w: World, c: Controls, colorOf: (nat, nat) -> Color, walks: Walks, capped: Vec3 -> Vec3)
    requires FrameReady(w, c, walks) && Distinct(walks.colliders) && !(w.globalState.gameOver && c.restart)
    ensures Frame(w, c, colorOf, walks, capped).globalState.score >= w.globalState.score
  {
    var dt := FrameDt(c.elapsed);
    var steered := Steered(w, c);
    InputKeeps(w, c.worldX, dt, c.space);
    if !steered.globalState.gameOver {
      var moved := Physics(steered, dt, walks.tags, walks.colliders, capped);
      PhysicsScores(steered, dt, walks.tags, walks.colliders, capped);
      LogicKeeps(moved, walks.judge);
      assert |Bricks(moved.tags)| <= |Bricks(steered.tags)| by {
        assert Bricks(steered.tags) == Bricks(moved.tags) + (Bricks(steered.tags) - Bricks(moved.tags));
      }
    }
  }

  /**
   * While the game is over and R is up nothing but the paddle moves: no
   * entity, brick or rigidbody changes, and neither does the global state.
   */
  lemma FrameWhileOver(w: World, c: Controls, colorOf: (nat, nat) -> Color, walks: Walks, capped: Vec3 -> Vec3)
    requires FrameReady(w, c, walks) && w.globalState.gameOver && !c.restart
    ensures var r := Frame(w, c, colorOf, walks, capped);
      r.globalState == w.globalState && r.entities == w.entities && Bricks(r.tags) == Bricks(w.tags)
      && r.rigidbodies == w.rigidbodies && r.nextId == w.nextId && r.colliders == w.colliders
  {
    var dt := FrameDt(c.elapsed);
    InputKeeps(w, c.worldX, dt, c.space);
    LaunchRule(w, c.worldX, dt, c.space, NullEntity);
    assert Frame(w, c, colorOf, walks, capped) == Steered(w, c);
  }

  /** A restart after the game is over rebuilds the world `resetGame` builds. */
  lemma FrameRestarts(w: World, c: Controls, colorOf: (nat, nat) -> Color, walks: Walks, capped: Vec3 -> Vec3)
    requires FrameReady(w, c, walks) && w.globalState.gameOver && c.restart
    ensures var r := Frame(w, c, colorOf, walks, capped);
      r.globalState == StartState && |Bricks(r.tags)| == Rows * Cols && r.entities == Ids(Rows * Cols + 2)
  {
    InputKeeps(w, c.worldX, FrameDt(c.elapsed), c.space);
    BuiltBricks(Rows * Cols);
  }

  // ------------------------------------------------------------ the frame on the registry

  /** One pass of the loop in `Game::run` on the registry. */
  method RunFrame(registry: Registry, c: Controls, colorOf: (nat, nat) -> Color, walks: Walks, capped: Vec3 -> Vec3)
    requires IsOrder(walks.players, registry.players.Keys) && IsOrder(walks.states, registry.gameStates.Keys)
    requires FrameReady(registry.Snap(), c, walks)
    requires var steered := Steered(registry.Snap(), c);
      !steered.globalState.gameOver ==>
        IsOrder(walks.tags, steered.tags.Keys) && IsOrder(walks.colliders, steered.colliders.Keys)
        && IsOrder(walks.judge, Physics(steered, FrameDt(c.elapsed), walks.tags, walks.colliders, capped).tags.Keys)
    modifies registry
    ensures registry.Snap() == Frame(old(registry.Snap()), c, colorOf, walks, capped)
  {
    var dt := FrameDt(c.elapsed);
    InputUpdate(registry, c.worldX, dt, c.space, walks.players, walks.states);
    if !registry.globalState.gameOver {
      PhysicsUpdate(registry, dt, walks.tags, walks.colliders, capped);
      LogicUpdate(registry, walks.judge);
    } else if c.restart {
      ResetGame(registry, colorOf);
    }
  }
}
