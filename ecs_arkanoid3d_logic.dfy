/**
 * `GameLogicSystem` of src/samples/ecs_arkanoid3d.h: the last ball of the
 * tag walk below MIN_Y costs a life and either ends the game or restarts
 * the round (`resetRound`); a world without bricks is won.
 */
module EcsArkanoid3dLogic {
  import opened Wrappers
  import opened Vectors
  import opened Arkanoid3d
  import opened EcsArkanoid3d
  import opened EcsArkanoid3dPhysics

  // ------------------------------------------------------------ the walk without break

  /** The position, below n, of the last entity of the walk tagged `kind`. */
  function LastBefore(tags: map<Entity, TagType>, order: seq<Entity>, kind: TagType, n: nat): (r: Option<nat>)
    requires n <= |order|
    ensures r.Some? ==> r.value < n
  {
    if n == 0 then None
    else if Tagged(tags, order[n - 1], kind) then Some(n - 1)
    else LastBefore(tags, order, kind, n - 1)
  }

  /** `LastBefore` finds a match with none after it, or says there is none. */
  lemma {:induction false} LastBeforeFacts(tags: map<Entity, TagType>, order: seq<Entity>, kind: TagType, n: nat)
    requires n <= |order|
    ensures var r := LastBefore(tags, order, kind, n);
      (r.Some? ==> Tagged(tags, order[r.value], kind) && forall j :: r.value < j < n ==> !Tagged(tags, order[j], kind))
      && (r.None? ==> forall j :: 0 <= j < n ==> !Tagged(tags, order[j], kind))
  {
    if n > 0 {
      LastBeforeFacts(tags, order, kind, n - 1);
    }
  }

  /** The entity a walk that overwrites its result at each match ends with: the last one tagged `kind`, or null. */
  function LastTagged(tags: map<Entity, TagType>, order: seq<Entity>, kind: TagType, n: nat): Entity
    requires n <= |order|
  {
    var k := LastBefore(tags, order, kind, n);
    if k.Some? then order[k.value] else NullEntity
  }

  /** What the walk without `break` ends with: null only when nothing is tagged `kind`, else an entity so tagged. */
  lemma LastTaggedFacts(tags: map<Entity, TagType>, order: seq<Entity>, kind: TagType)
    ensures var e := LastTagged(tags, order, kind, |order|);
      (e != NullEntity ==> e in order && Tagged(tags, e, kind))
      && (LastBefore(tags, order, kind, |order|).None? <==> forall x :: x in order ==> !Tagged(tags, x, kind))
  {
    LastBeforeFacts(tags, order, kind, |order|);
  }

  /** The walk for the ball in `GameLogicSystem::Update`, which has no `break`. */
  method FindLast(tags: map<Entity, TagType>, order: seq<Entity>, kind: TagType) returns (found: Entity)
    ensures found == LastTagged(tags, order, kind, |order|)
  {
    found := NullEntity;
    for i := 0 to |order|
      invariant found == LastTagged(tags, order, kind, i)
    {
      if order[i] in tags && tags[order[i]] == kind {
        found := order[i];
      }
    }
  }

  /**
   * The two walks for the ball pick different balls when the order holds
   * two: `PhysicsSystem` moves the first, `GameLogicSystem` judges the last.
   */
  lemma TwoBalls(tags: map<Entity, TagType>, order: seq<Entity>, i: nat, j: nat)
    requires Distinct(order) && i < j < |order|
    requires Tagged(tags, order[i], BallTag) && Tagged(tags, order[j], BallTag)
    ensures BallOf(tags, order) != LastTagged(tags, order, BallTag, |order|)
  {
    var k := FirstFrom(tags, order, BallTag, 0);
    var l := LastBefore(tags, order, BallTag, |order|);
    LastBeforeFacts(tags, order, BallTag, |order|);
    assert k.Some? && k.value <= i;
    assert l.Some? && l.value >= j;
  }

  // ------------------------------------------------------------ resetRound

  /** The transforms once the paddles among `done` are back at START_POS. */
  function PaddlesHome(ts: map<Entity, Transform>, tags: map<Entity, TagType>, done: set<Entity>): (r: map<Entity, Transform>)
    ensures r.Keys == ts.Keys
    ensures forall e :: e in r ==> r[e].scale == ts[e].scale
  {
    map e | e in ts :: if e in done && Tagged(tags, e, PaddleTag) then ts[e].(pos := PaddleStart) else ts[e]
  }

  /** The player components once the paddles among `done` stand still at START_POS.x. */
  function PaddlesIdle(ps: map<Entity, PlayerControl>, tags: map<Entity, TagType>, done: set<Entity>): (r: map<Entity, PlayerControl>)
    ensures r.Keys == ps.Keys
  {
    map e | e in ps :: if e in done && Tagged(tags, e, PaddleTag) then PlayerControl(PaddleStart.x, 0.0) else ps[e]
  }

  /**
   * `resetRound`: the ball, when it has those components, is unlaunched and
   * gets START_VEL; every paddle returns to START_POS, standing still. The
   * ball's position is left to `PhysicsSystem`.
   */
  function ResetRound(w: World, ball: Entity): (r: World)
    ensures r == w.(gameStates := r.gameStates, rigidbodies := r.rigidbodies, transforms := r.transforms, players := r.players)
    ensures r.gameStates.Keys == w.gameStates.Keys && r.rigidbodies.Keys == w.rigidbodies.Keys
    ensures r.transforms.Keys == w.transforms.Keys && r.players.Keys == w.players.Keys
  {
    w.(gameStates := if ball in w.gameStates then w.gameStates[ball := w.gameStates[ball].(launched := false)] else w.gameStates,
       rigidbodies := if ball in w.rigidbodies then w.rigidbodies[ball := w.rigidbodies[ball].(velocity := BallStartVel)]
                      else w.rigidbodies,
       transforms := PaddlesHome(w.transforms, w.tags, w.tags.Keys),
       players := PaddlesIdle(w.players, w.tags, w.tags.Keys))
  }

  /** Handling one more tag in the paddle walk of `resetRound`. */
  lemma PaddleStep(ts: map<Entity, Transform>, ps: map<Entity, PlayerControl>, tags: map<Entity, TagType>,
                   done: set<Entity>, e: Entity)
    requires e !in done
    ensures e in ts ==> PaddlesHome(ts, tags, done)[e] == ts[e]
    ensures e in ps ==> PaddlesIdle(ps, tags, done)[e] == ps[e]
    ensures PaddlesHome(ts, tags, done + {e})
      == if e in ts && Tagged(tags, e, PaddleTag) then PaddlesHome(ts, tags, done)[e := ts[e].(pos := PaddleStart)]
         else PaddlesHome(ts, tags, done)
    ensures PaddlesIdle(ps, tags, done + {e})
      == if e in ps && Tagged(tags, e, PaddleTag) then PaddlesIdle(ps, tags, done)[e := PlayerControl(PaddleStart.x, 0.0)]
         else PaddlesIdle(ps, tags, done)
  {
  }

  /** `resetRound` on the ball's components. */
  method ResetBall(registry: Registry, ball: Entity)
    modifies registry`gameStates, registry`rigidbodies
    ensures registry.gameStates == ResetRound(old(registry.Snap()), ball).gameStates
    ensures registry.rigidbodies == ResetRound(old(registry.Snap()), ball).rigidbodies
  {
    var ballState := Get(registry.gameStates, ball);
    var ballRb := Get(registry.rigidbodies, ball);
    if ballState.Some? {
      registry.gameStates := registry.gameStates[ball := ballState.value.(launched := false)];
    }
    if ballRb.Some? {
      registry.rigidbodies := registry.rigidbodies[ball := ballRb.value.(velocity := BallStartVel)];
    }
  }

  /** The paddle walk of `resetRound` over `registry.tags`. */
  method ResetPaddles(registry: Registry, order: seq<Entity>)
    requires IsOrder(order, registry.tags.Keys)
    modifies registry`transforms, registry`players
    ensures registry.transforms == PaddlesHome(old(registry.transforms), registry.tags, registry.tags.Keys)
    ensures registry.players == PaddlesIdle(old(registry.players), registry.tags, registry.tags.Keys)
  {
    var ts, ps := registry.transforms, registry.players;
    ghost var ts0, ps0 := ts, ps;
    ghost var done: set<Entity> := {};
    for i := 0 to |order|
      invariant forall k :: k in done <==> k in order[..i]
      invariant ts == PaddlesHome(ts0, registry.tags, done)
      invariant ps == PaddlesIdle(ps0, registry.tags, done)
    {
      var e := order[i];
      PrefixStep(order, done, i);
      PaddleStep(ts0, ps0, registry.tags, done, e);
      if registry.tags[e] == PaddleTag {
        var pt := Get(ts, e);
        if pt.Some? {
          ts := ts[e := pt.value.(pos := PaddleStart)];
        }
        var pc := Get(ps, e);
        if pc.Some? {
          ps := ps[e := pc.value.(velocityX := 0.0, lastX := PaddleStart.x)];
        }
      }
      done := done + {e};
    }
    WalkDone(order, registry.tags.Keys, done);
    registry.transforms, registry.players := ts, ps;
  }

  /** `resetRound` on the registry, with the tag walk `order`. */
  method ResetRoundUpdate(registry: Registry, ball: Entity, order: seq<Entity>)
    requires IsOrder(order, registry.tags.Keys)
    modifies registry`gameStates, registry`rigidbodies, registry`transforms, registry`players
    ensures registry.gameStates == ResetRound(old(registry.Snap()), ball).gameStates
    ensures registry.rigidbodies == ResetRound(old(registry.Snap()), ball).rigidbodies
    ensures registry.transforms == ResetRound(old(registry.Snap()), ball).transforms
    ensures registry.players == ResetRound(old(registry.Snap()), ball).players
  {
    ResetBall(registry, ball);
    ResetPaddles(registry, order);
  }

  // ------------------------------------------------------------ the system

  /** The ball `GameLogicSystem` judges fell below the field this frame. */
  predicate Fell(w: World, tagOrder: seq<Entity>) {
    var ball := LastTagged(w.tags, tagOrder, BallTag, |tagOrder|);
    ball != NullEntity && ball in w.transforms && w.transforms[ball].pos.y < MinY
  }

  /** A fallen ball costs a life; with none left the game is over, else the round restarts. */
  function LoseLife(w: World, ball: Entity): (r: World)
    ensures r == w.(globalState := r.globalState, gameStates := r.gameStates, rigidbodies := r.rigidbodies,
                    transforms := r.transforms, players := r.players)
    ensures r.globalState.score == w.globalState.score && r.globalState.lives == w.globalState.lives - 1
    ensures r.gameStates.Keys == w.gameStates.Keys && r.rigidbodies.Keys == w.rigidbodies.Keys
    ensures r.transforms.Keys == w.transforms.Keys && r.players.Keys == w.players.Keys
  {
    var hurt := w.(globalState := w.globalState.(lives := w.globalState.lives - 1));
    if hurt.globalState.lives <= 0 then hurt.(globalState := hurt.globalState.(gameOver := true))
    else ResetRound(hurt, ball)
  }

  /** The death check of `GameLogicSystem::Update`. */
  function Judged(w: World, tagOrder: seq<Entity>): World {
    if Fell(w, tagOrder) then LoseLife(w, LastTagged(w.tags, tagOrder, BallTag, |tagOrder|)) else w
  }

  /** `GameLogicSystem::Update`: the death check, then the victory check. */
  function Logic(w: World, tagOrder: seq<Entity>): World {
    var judged := Judged(w, tagOrder);
    if Bricks(judged.tags) == {} then judged.(globalState := judged.globalState.(gameWon := true, gameOver := true))
    else judged
  }

  /** `resetRound` changes component values only, never which entities have components. */
  lemma ResetRoundKeeps(w: World, ball: Entity)
    ensures var r := ResetRound(w, ball);
      r.entities == w.entities && r.nextId == w.nextId && r.tags == w.tags && r.colliders == w.colliders
      && r.renderables == w.renderables && r.globalState == w.globalState
      && r.transforms.Keys == w.transforms.Keys && r.players.Keys == w.players.Keys
      && r.rigidbodies.Keys == w.rigidbodies.Keys && r.gameStates.Keys == w.gameStates.Keys
  {
  }

  /** The logic system changes no entity, no tag, no collider or render component, and not the score. */
  lemma LogicKeeps(w: World, tagOrder: seq<Entity>)
    ensures var r := Logic(w, tagOrder);
      r.entities == w.entities && r.nextId == w.nextId && r.tags == w.tags && r.colliders == w.colliders
      && r.renderables == w.renderables && r.globalState.score == w.globalState.score
      && r.transforms.Keys == w.transforms.Keys && r.players.Keys == w.players.Keys
      && r.rigidbodies.Keys == w.rigidbodies.Keys && r.gameStates.Keys == w.gameStates.Keys
  {
    JudgedKeeps(w, tagOrder);
  }

  /** The death check changes component values and the lives and flags only. */
  lemma JudgedKeeps(w: World, tagOrder: seq<Entity>)
    ensures var r := Judged(w, tagOrder);
      r.entities == w.entities && r.nextId == w.nextId && r.tags == w.tags && r.colliders == w.colliders
      && r.renderables == w.renderables && r.globalState.score == w.globalState.score
      && r.transforms.Keys == w.transforms.Keys && r.players.Keys == w.players.Keys
      && r.rigidbodies.Keys == w.rigidbodies.Keys && r.gameStates.Keys == w.gameStates.Keys
  {
    var ball := LastTagged(w.tags, tagOrder, BallTag, |tagOrder|);
    if Fell(w, tagOrder) {
      assert Judged(w, tagOrder) == LoseLife(w, ball);
      LoseLifeKeeps(w, ball);
    } else {
      assert Judged(w, tagOrder) == w;
    }
  }

  /** Losing a life changes component values and the lives and flags only. */
  lemma LoseLifeKeeps(w: World, ball: Entity)
    ensures var r := LoseLife(w, ball);
      r.entities == w.entities && r.nextId == w.nextId && r.tags == w.tags && r.colliders == w.colliders
      && r.renderables == w.renderables && r.globalState.score == w.globalState.score
      && r.transforms.Keys == w.transforms.Keys && r.players.Keys == w.players.Keys
      && r.rigidbodies.Keys == w.rigidbodies.Keys && r.gameStates.Keys == w.gameStates.Keys
  {
    var hurt := w.(globalState := w.globalState.(lives := w.globalState.lives - 1));
    ResetRoundKeeps(hurt, ball);
  }

  /**
   * The death rule: a fallen ball costs exactly one life, and otherwise the
   * lives stay; the game ends when the last one is lost, and then, as
   * without a fall, no component changes (the ball's launch state included).
   */
  lemma DeathRule(w: World, tagOrder: seq<Entity>)
    ensures var r := Logic(w, tagOrder); var lives := w.globalState.lives;
      r.globalState.lives == (if Fell(w, tagOrder) then lives - 1 else lives)
      && (Fell(w, tagOrder) && lives <= 1 ==> r.globalState.gameOver)
      && (!Fell(w, tagOrder) || lives <= 1 ==>
            r.transforms == w.transforms && r.players == w.players
            && r.rigidbodies == w.rigidbodies && r.gameStates == w.gameStates)
  {
    LogicFrame(w, tagOrder);
    var judged := Judged(w, tagOrder);
    if Fell(w, tagOrder) {
      var ball := LastTagged(w.tags, tagOrder, BallTag, |tagOrder|);
      assert judged == LoseLife(w, ball);
      if w.globalState.lives <= 1 {
        var hurt := w.(globalState := w.globalState.(lives := w.globalState.lives - 1));
        assert judged == hurt.(globalState := hurt.globalState.(gameOver := true));
      }
    } else {
      assert judged == w;
    }
  }

  /** The victory check touches the two flags only. */
  lemma LogicFrame(w: World, tagOrder: seq<Entity>)
    ensures var r := Logic(w, tagOrder); var judged := Judged(w, tagOrder);
      r == judged.(globalState := r.globalState)
      && r.globalState.score == judged.globalState.score && r.globalState.lives == judged.globalState.lives
      && (r.globalState.gameWon <==> judged.globalState.gameWon || Bricks(judged.tags) == {})
      && (r.globalState.gameOver <==> judged.globalState.gameOver || Bricks(judged.tags) == {})
  {
  }

  /**
   * The round restart: with lives left after a fall, the ball is unlaunched
   * with START_VEL, every paddle is back at START_POS standing still, and
   * no other transform moves.
   */
  lemma RestartRule(w: World, tagOrder: seq<Entity>, e: Entity)
    requires Fell(w, tagOrder) && w.globalState.lives > 1
    ensures var r := Logic(w, tagOrder); var ball := LastTagged(w.tags, tagOrder, BallTag, |tagOrder|);
      (ball in w.gameStates ==> !r.gameStates[ball].launched)
      && (ball in w.rigidbodies ==> r.rigidbodies[ball].velocity == BallStartVel)
      && (e in w.transforms && Tagged(w.tags, e, PaddleTag) ==> r.transforms[e].pos == PaddleStart)
      && (e in w.players && Tagged(w.tags, e, PaddleTag) ==> r.players[e] == PlayerControl(PaddleStart.x, 0.0))
      && (e in w.transforms && !Tagged(w.tags, e, PaddleTag) ==> r.transforms[e] == w.transforms[e])
  {
    var judged := Judged(w, tagOrder);
    assert judged.tags == w.tags;
  }

  /**
   * The victory rule: the game is won exactly when it was already won or
   * no brick is left, and over exactly when it was over, the last life was
   * lost, or it is won now.
   */
  lemma VictoryRule(w: World, tagOrder: seq<Entity>)
    ensures var r := Logic(w, tagOrder);
      (r.globalState.gameWon <==> w.globalState.gameWon || Bricks(w.tags) == {})
      && (r.globalState.gameOver <==>
            w.globalState.gameOver || (Fell(w, tagOrder) && w.globalState.lives <= 1) || Bricks(w.tags) == {})
  {
    LogicFrame(w, tagOrder);
    var judged := Judged(w, tagOrder);
    if Fell(w, tagOrder) {
      var ball := LastTagged(w.tags, tagOrder, BallTag, |tagOrder|);
      assert judged == LoseLife(w, ball);
      var hurt := w.(globalState := w.globalState.(lives := w.globalState.lives - 1));
      if w.globalState.lives <= 1 {
        assert judged == hurt.(globalState := hurt.globalState.(gameOver := true));
      } else {
        assert judged == ResetRound(hurt, ball);
      }
    } else {
      assert judged == w;
    }
  }

  /** The victory walk with `break` finds a brick exactly when some entity is tagged a brick. */
  lemma AnyBrick(tags: map<Entity, TagType>, order: seq<Entity>)
    requires IsOrder(order, tags.Keys)
    ensures FirstTagged(tags, order, BrickTag).Some? <==> Bricks(tags) != {}
  {
    var first := FirstTagged(tags, order, BrickTag);
    if Bricks(tags) != {} {
      var b :| b in Bricks(tags);
      assert b in order && Tagged(tags, b, BrickTag);
    }
    if first.Some? {
      assert first.value in Bricks(tags);
    }
  }

  /** The death check on the registry. */
  method JudgeDeath(registry: Registry, order: seq<Entity>)
    requires IsOrder(order, registry.tags.Keys)
    modifies registry`globalState, registry`gameStates, registry`rigidbodies, registry`transforms, registry`players
    ensures registry.Snap() == Judged(old(registry.Snap()), order)
  {
    var ball := FindLast(registry.tags, order, BallTag);
    if ball != NullEntity {
      var trans := Get(registry.transforms, ball);
      if trans.Some? && trans.value.pos.y < MinY {
        registry.globalState := registry.globalState.(lives := registry.globalState.lives - 1);
        if registry.globalState.lives <= 0 {
          registry.globalState := registry.globalState.(gameOver := true);
        } else {
          ResetRoundUpdate(registry, ball, order);
        }
      }
    }
  }

  /** `GameLogicSystem::Update` on the registry, with the tag walk `order`. */
  method LogicUpdate(registry: Registry, order: seq<Entity>)
    requires IsOrder(order, registry.tags.Keys)
    modifies registry`globalState, registry`gameStates, registry`rigidbodies, registry`transforms, registry`players
    ensures registry.Snap() == Logic(old(registry.Snap()), order)
  {
    JudgeDeath(registry, order);
    var brick := FindFirst(registry.tags, order, BrickTag);
    AnyBrick(registry.tags, order);
    var anyBrick := brick.Some?;
    if !anyBrick {
      registry.globalState := registry.globalState.(gameWon := true, gameOver := true);
    }
  }
}
