/**
 * `PhysicsSystem` of src/samples/ecs_arkanoid3d.h. Each frame, unless the
 * game is over, it finds the first ball of the tag walk; an unlaunched ball
 * sits on the first paddle, a launched one flies, bounces off the walls and
 * then walks every collider: a touched paddle reflects, spins and pushes it,
 * and every touched brick scores, bounces it and is destroyed afterwards.
 * There is no `break` in the collider walk, so several bricks can go in one
 * frame, unlike the object-oriented version.
 */
module EcsArkanoid3dPhysics {
  import opened Wrappers
  import opened Vectors
  import opened Arkanoid3d
  import opened EcsArkanoid3d

  // ------------------------------------------------------------ the tag walks

  /** e's tag component says `kind`. */
  predicate Tagged(tags: map<Entity, TagType>, e: Entity, kind: TagType) {
    e in tags && tags[e] == kind
  }

  /** The position, from i on, of the first entity of the walk tagged `kind`. */
  function FirstFrom(tags: map<Entity, TagType>, order: seq<Entity>, kind: TagType, i: nat): (r: Option<nat>)
    requires i <= |order|
    ensures r.Some? ==> i <= r.value < |order| && Tagged(tags, order[r.value], kind)
                        && forall j :: i <= j < r.value ==> !Tagged(tags, order[j], kind)
    ensures r.None? ==> forall j :: i <= j < |order| ==> !Tagged(tags, order[j], kind)
    decreases |order| - i
  {
    if i == |order| then None
    else if Tagged(tags, order[i], kind) then Some(i)
    else FirstFrom(tags, order, kind, i + 1)
  }

  /** The walk with `break`: the first entity tagged `kind`, if any. */
  function FirstTagged(tags: map<Entity, TagType>, order: seq<Entity>, kind: TagType): (r: Option<Entity>)
    ensures r.Some? ==> r.value in order && Tagged(tags, r.value, kind)
    ensures r.None? ==> forall e :: e in order ==> !Tagged(tags, e, kind)
  {
    var k := FirstFrom(tags, order, kind, 0);
    if k.Some? then Some(order[k.value]) else None
  }

  /** A walk in which `kind` comes first somewhere yields the first entity so tagged. */
  lemma FirstTaggedIsFirst(tags: map<Entity, TagType>, order: seq<Entity>, kind: TagType, i: nat)
    requires i < |order| && Tagged(tags, order[i], kind)
    requires forall j :: 0 <= j < i ==> !Tagged(tags, order[j], kind)
    ensures FirstTagged(tags, order, kind) == Some(order[i])
  {
  }

  /** `NULL_ENTITY` stands for "not found". */
  function OrNull(r: Option<Entity>): (e: Entity)
    ensures r.None? ==> e == NullEntity
    ensures r.Some? ==> e == r.value
  {
    if r.Some? then r.value else NullEntity
  }

  /** The entity `PhysicsSystem` takes for the ball: the first one tagged so, or null. */
  function BallOf(tags: map<Entity, TagType>, order: seq<Entity>): Entity {
    OrNull(FirstTagged(tags, order, BallTag))
  }

  /** The walk for the ball with `break`. */
  method FindFirst(tags: map<Entity, TagType>, order: seq<Entity>, kind: TagType) returns (found: Option<Entity>)
    ensures found == FirstTagged(tags, order, kind)
  {
    found := None;
    for i := 0 to |order|
      invariant FirstFrom(tags, order, kind, i) == FirstFrom(tags, order, kind, 0)
    {
      if order[i] in tags && tags[order[i]] == kind {
        found := Some(order[i]);
        return;
      }
    }
  }

  // ------------------------------------------------------------ the ball on the paddle, and in flight

  /**
   * What the dereferences in `PhysicsSystem::Update` need: a launched ball
   * has a transform, a rigidbody and a collider, and an unlaunched one a
   * transform and a collider once there is a paddle with a transform.
   */
  ghost predicate PhysicsReady(w: World, tagOrder: seq<Entity>) {
    var ball := BallOf(w.tags, tagOrder);
    var paddle := FirstTagged(w.tags, tagOrder, PaddleTag);
    !w.globalState.gameOver && ball != NullEntity && ball in w.gameStates ==>
      if w.gameStates[ball].launched then ball in w.transforms && ball in w.rigidbodies && ball in w.colliders
      else paddle.Some? && paddle.value in w.transforms ==> ball in w.transforms && ball in w.colliders
  }

  /** The unlaunched ball sits 0.2 above the first paddle of the walk, when that paddle has a transform. */
  function PlaceBall(w: World, ball: Entity, tagOrder: seq<Entity>): (r: World)
    requires var paddle := FirstTagged(w.tags, tagOrder, PaddleTag);
      paddle.Some? && paddle.value in w.transforms ==> ball in w.transforms && ball in w.colliders
    ensures r == w.(transforms := r.transforms)
    ensures var paddle := FirstTagged(w.tags, tagOrder, PaddleTag);
      if paddle.Some? && paddle.value in w.transforms then
        ball in r.transforms
        && r.transforms == w.transforms[ball := w.transforms[ball].(pos := r.transforms[ball].pos)]
        && r.transforms[ball].pos.x == w.transforms[paddle.value].pos.x
        && r.transforms[ball].pos.y - w.transforms[paddle.value].pos.y
           == w.transforms[paddle.value].scale.y * 0.5 + w.colliders[ball].radius + 0.2
        && r.transforms[ball].pos.z == w.transforms[ball].pos.z
      else r == w
  {
    var paddle := FirstTagged(w.tags, tagOrder, PaddleTag);
    if paddle.Some? && paddle.value in w.transforms then
      var bt := w.transforms[ball];
      w.(transforms := w.transforms[ball := bt.(pos := Above(w.transforms[paddle.value], w.colliders[ball].radius, 0.2, bt.pos))])
    else w
  }

  /** The launched ball moves by velocity times dt and bounces off the side walls and the ceiling. */
  function Fly(w: World, ball: Entity, dt: real): (r: World)
    requires ball in w.transforms && ball in w.rigidbodies
    ensures r == w.(transforms := r.transforms, rigidbodies := r.rigidbodies)
    ensures var bt := w.transforms[ball]; var rb := w.rigidbodies[ball];
      var pv := Walls(Add(bt.pos, Scale(dt, rb.velocity)), rb.velocity);
      r.transforms == w.transforms[ball := bt.(pos := pv.0)]
      && r.rigidbodies == w.rigidbodies[ball := rb.(velocity := pv.1)]
  {
    var bt := w.transforms[ball];
    var rb := w.rigidbodies[ball];
    var (p, v) := Walls(Add(bt.pos, Scale(dt, rb.velocity)), rb.velocity);
    w.(transforms := w.transforms[ball := bt.(pos := p)], rigidbodies := w.rigidbodies[ball := rb.(velocity := v)])
  }

  // ------------------------------------------------------------ the collider walk

  /** What the collider walk changes: the ball's transform and rigidbody, held by pointer, and the score. */
  datatype Contact = Contact(ball: Transform, body: Rigidbody, score: int)

  /**
   * One target with a transform: nothing unless the ball touches it; a
   * touched paddle reflects the ball up, adds 0.12 of the paddle's x speed,
   * lifts the ball 0.1 above it and speeds it up; a touched brick scores,
   * reflects the ball in the contact normal, speeds it up, and is reported
   * for destruction.
   */
  function Touch(c: Contact, radius: real, target: Transform, tag: Option<TagType>, control: Option<PlayerControl>,
                 capped: Vec3 -> Vec3): (r: (Contact, bool))
    ensures r.1 <==> tag == Some(BrickTag) && CheckAABB(target.pos, target.scale, c.ball.pos, radius)
    ensures r.0.score == if r.1 then c.score + ScorePerBrick else c.score
    ensures r.0.ball.scale == c.ball.scale
    ensures tag != Some(PaddleTag) ==> r.0.ball == c.ball
    ensures !CheckAABB(target.pos, target.scale, c.ball.pos, radius) ==> r == (c, false)
    ensures tag == Some(PaddleTag) && CheckAABB(target.pos, target.scale, c.ball.pos, radius) ==>
      r.0.ball.pos.y == target.pos.y + target.scale.y * 0.5 + radius + 0.1
  {
    if !CheckAABB(target.pos, target.scale, c.ball.pos, radius) then (c, false)
    else if tag == Some(PaddleTag) then
      var v := Reflect(c.body.velocity, Vec3(0.0, 1.0, 0.0));
      var spun := if control.Some? then v.(x := v.x + control.value.velocityX * 0.12) else v;
      (c.(ball := c.ball.(pos := c.ball.pos.(y := target.pos.y + target.scale.y * 0.5 + radius + 0.1)),
          body := c.body.(velocity := Speedup(spun, capped))), false)
    else if tag == Some(BrickTag) then
      (c.(score := c.score + ScorePerBrick,
          body := c.body.(velocity := Speedup(Reflect(c.body.velocity, ContactNormal(c.ball.pos, target.pos)), capped))), true)
    else (c, false)
  }

  /**
   * The walk over `registry.colliders` (here `order`), skipping the ball
   * itself and every entity without a transform: the contact at the end and
   * the bricks to destroy, in the order they were hit.
   */
  function Collide(c: Contact, ball: Entity, radius: real, order: seq<Entity>, tags: map<Entity, TagType>,
                   transforms: map<Entity, Transform>, players: map<Entity, PlayerControl>,
                   capped: Vec3 -> Vec3): (r: (Contact, seq<Entity>))
    decreases |order|
  {
    if |order| == 0 then (c, [])
    else
      var (c1, ds) := Collide(c, ball, radius, order[..|order| - 1], tags, transforms, players, capped);
      var target := order[|order| - 1];
      if target == ball || target !in transforms then (c1, ds)
      else
        var (c2, hit) := Touch(c1, radius, transforms[target], Get(tags, target), Get(players, target), capped);
        (c2, if hit then ds + [target] else ds)
  }

  /** The score rises by SCORE_PER_BRICK per brick reported, and the ball keeps its scale. */
  lemma {:induction false} CollideScore(c: Contact, ball: Entity, radius: real, order: seq<Entity>,
                                        tags: map<Entity, TagType>, transforms: map<Entity, Transform>,
                                        players: map<Entity, PlayerControl>, capped: Vec3 -> Vec3)
    ensures var r := Collide(c, ball, radius, order, tags, transforms, players, capped);
      r.0.score == c.score + ScorePerBrick * |r.1| && r.0.ball.scale == c.ball.scale
    decreases |order|
  {
    if |order| > 0 {
      var n := |order| - 1;
      CollideScore(c, ball, radius, order[..n], tags, transforms, players, capped);
      var prev := Collide(c, ball, radius, order[..n], tags, transforms, players, capped);
      var target := order[n];
      if target != ball && target in transforms {
        var t := Touch(prev.0, radius, transforms[target], Get(tags, target), Get(players, target), capped);
        assert Collide(c, ball, radius, order, tags, transforms, players, capped)
          == (t.0, if t.1 then prev.1 + [target] else prev.1);
      }
    }
  }

  /** Reports `r` of a walk over `order`: bricks of the walk other than the ball, none twice when the walk has no repeats. */
  predicate ReportsValid(r: seq<Entity>, order: seq<Entity>, ball: Entity, tags: map<Entity, TagType>)
  {
    (forall d :: d in r ==> d in order && d != ball && Tagged(tags, d, BrickTag))
    && (Distinct(order) ==> Distinct(r))
  }

  /**
   * Every brick the walk reports is a brick of the walk other than the
   * ball, and a walk without repeats reports none twice.
   */
  lemma {:induction false} CollideReports(c: Contact, ball: Entity, radius: real, order: seq<Entity>,
                                          tags: map<Entity, TagType>, transforms: map<Entity, Transform>,
                                          players: map<Entity, PlayerControl>, capped: Vec3 -> Vec3)
    ensures ReportsValid(Collide(c, ball, radius, order, tags, transforms, players, capped).1, order, ball, tags)
    decreases |order|
  {
    if |order| > 0 {
      var n := |order| - 1;
      CollideReports(c, ball, radius, order[..n], tags, transforms, players, capped);
      var prev := Collide(c, ball, radius, order[..n], tags, transforms, players, capped);
      var target := order[n];
      if target != ball && target in transforms {
        var t := Touch(prev.0, radius, transforms[target], Get(tags, target), Get(players, target), capped);
        assert Collide(c, ball, radius, order, tags, transforms, players, capped)
          == (t.0, if t.1 then prev.1 + [target] else prev.1);
        assert t.1 ==> Get(tags, target) == Some(BrickTag);
        assert t.1 ==> Tagged(tags, target, BrickTag);
        ReportStep(prev.1, order, ball, tags, t.1);
      } else {
        ReportStep(prev.1, order, ball, tags, false);
      }
    }
  }

  /** One more collider of the walk: reporting it, when it is a brick other than the ball, keeps the reports valid. */
  lemma ReportStep(prev: seq<Entity>, order: seq<Entity>, ball: Entity, tags: map<Entity, TagType>, hit: bool)
    requires |order| > 0
    requires ReportsValid(prev, order[..|order| - 1], ball, tags)
    requires hit ==> order[|order| - 1] != ball && Tagged(tags, order[|order| - 1], BrickTag)
    ensures ReportsValid(if hit then prev + [order[|order| - 1]] else prev, order, ball, tags)
  {
    var n := |order| - 1;
    assert forall d :: d in order[..n] ==> d in order;
    if Distinct(order) {
      assert Distinct(order[..n]);
      assert order[n] !in order[..n];
    }
  }

  /** The bricks among `order` the ball at `pos` touches, in walk order. */
  function TouchedBricks(pos: Vec3, ball: Entity, radius: real, order: seq<Entity>, tags: map<Entity, TagType>,
                         transforms: map<Entity, Transform>): (r: seq<Entity>)
    ensures forall d :: d in r ==> d in order && Tagged(tags, d, BrickTag) && d in transforms
                                   && CheckAABB(transforms[d].pos, transforms[d].scale, pos, radius)
    decreases |order|
  {
    if |order| == 0 then []
    else
      var d := order[|order| - 1];
      TouchedBricks(pos, ball, radius, order[..|order| - 1], tags, transforms)
      + if d != ball && Tagged(tags, d, BrickTag) && d in transforms
           && CheckAABB(transforms[d].pos, transforms[d].scale, pos, radius) then [d] else []
  }

  /**
   * With no paddle among the colliders the ball never moves during the
   * walk, so every brick it touches is destroyed in the same frame.
   */
  lemma {:induction false} CollideBricksOnly(c: Contact, ball: Entity, radius: real, order: seq<Entity>,
                                             tags: map<Entity, TagType>, transforms: map<Entity, Transform>,
                                             players: map<Entity, PlayerControl>, capped: Vec3 -> Vec3)
    requires forall e :: e in order ==> !Tagged(tags, e, PaddleTag)
    ensures var r := Collide(c, ball, radius, order, tags, transforms, players, capped);
      r.0.ball == c.ball && r.1 == TouchedBricks(c.ball.pos, ball, radius, order, tags, transforms)
    decreases |order|
  {
    if |order| > 0 {
      var n := |order| - 1;
      CollideBricksOnly(c, ball, radius, order[..n], tags, transforms, players, capped);
      var prev := Collide(c, ball, radius, order[..n], tags, transforms, players, capped);
      var d := order[n];
      assert TouchedBricks(c.ball.pos, ball, radius, order, tags, transforms)
        == TouchedBricks(c.ball.pos, ball, radius, order[..n], tags, transforms)
           + if d != ball && Tagged(tags, d, BrickTag) && d in transforms
                && CheckAABB(transforms[d].pos, transforms[d].scale, c.ball.pos, radius) then [d] else [];
      if d != ball && d in transforms {
        var t := Touch(prev.0, radius, transforms[d], Get(tags, d), Get(players, d), capped);
        assert d in order;
        assert t.0.ball == c.ball;
        assert t.1 <==> Tagged(tags, d, BrickTag) && CheckAABB(transforms[d].pos, transforms[d].scale, c.ball.pos, radius);
      }
    }
  }

  /** The walk of `PhysicsSystem::Update` over the colliders, on the ball's contact. */
  method Collisions(c: Contact, ball: Entity, radius: real, order: seq<Entity>, tags: map<Entity, TagType>,
                    transforms: map<Entity, Transform>, players: map<Entity, PlayerControl>,
                    capped: Vec3 -> Vec3) returns (c': Contact, destroyed: seq<Entity>)
    ensures (c', destroyed) == Collide(c, ball, radius, order, tags, transforms, players, capped)
  {
    c', destroyed := c, [];
    for i := 0 to |order|
      invariant (c', destroyed) == Collide(c, ball, radius, order[..i], tags, transforms, players, capped)
    {
      assert order[..i + 1][..i] == order[..i];
      var target := order[i];
      if target == ball {
        continue;
      }
      if target !in transforms {
        continue;
      }
      var hit;
      c', hit := TouchOne(c', radius, transforms[target], Get(tags, target), Get(players, target), capped);
      if hit {
        destroyed := destroyed + [target];
      }
    }
    assert order[..|order|] == order;
  }

  /** The body of the collider walk for one target with a transform. */
  method TouchOne(c: Contact, radius: real, target: Transform, tag: Option<TagType>, control: Option<PlayerControl>,
                  capped: Vec3 -> Vec3) returns (c': Contact, hit: bool)
    ensures (c', hit) == Touch(c, radius, target, tag, control, capped)
  {
    c', hit := c, false;
    if CheckAABB(target.pos, target.scale, c.ball.pos, radius) {
      if tag.Some? && tag.value == PaddleTag {
        var v := Reflect(c'.body.velocity, Vec3(0.0, 1.0, 0.0));
        if control.Some? {
          v := v.(x := v.x + control.value.velocityX * 0.12);
        }
        c' := c'.(ball := c'.ball.(pos := c'.ball.pos.(y := target.pos.y + target.scale.y * 0.5 + radius + 0.1)));
        c' := c'.(body := c'.body.(velocity := Speedup(v, capped)));
      } else if tag.Some? && tag.value == BrickTag {
        hit := true;
        c' := c'.(score := c'.score + ScorePerBrick);
        var normal := ContactNormal(c'.ball.pos, target.pos);
        c' := c'.(body := c'.body.(velocity := Speedup(Reflect(c'.body.velocity, normal), capped)));
      }
    }
  }

  // ------------------------------------------------------------ destruction

  /** The loop over `destroyedEntities`: `destroyEntity` on each in turn. */
  function DestroyAll(w: World, ds: seq<Entity>): World
    decreases |ds|
  {
    if |ds| == 0 then w else Destroyed(DestroyAll(w, ds[..|ds| - 1]), ds[|ds| - 1])
  }

  /** The entities of the list, as a set. */
  function Gone(ds: seq<Entity>): (r: set<Entity>)
    ensures forall x :: x in r <==> x in ds
    decreases |ds|
  {
    if |ds| == 0 then {} else Gone(ds[..|ds| - 1]) + {ds[|ds| - 1]}
  }

  /**
   * After destroying the listed entities none of them is left in
   * `entities`, every other entity stays, and `nextId` and the global state
   * are untouched.
   */
  lemma {:induction false} DestroyAllKeeps(w: World, ds: seq<Entity>)
    ensures var r := DestroyAll(w, ds);
      r.nextId == w.nextId && r.globalState == w.globalState
      && forall x :: x in r.entities <==> x in w.entities && x !in ds
    decreases |ds|
  {
    if |ds| > 0 {
      var n := |ds| - 1;
      DestroyAllKeeps(w, ds[..n]);
      var prev := DestroyAll(w, ds[..n]);
      assert ds == ds[..n] + [ds[n]];
      forall x
        ensures x in DestroyAll(w, ds).entities <==> x in w.entities && x !in ds
      {
        assert x in Remove(prev.entities, ds[n]) <==> x in prev.entities && x != ds[n];
      }
    }
  }

  /** The tag, transform, rigidbody and collider maps lose exactly the listed entities. */
  lemma {:induction false} DestroyAllBodies(w: World, ds: seq<Entity>)
    ensures var r := DestroyAll(w, ds);
      r.tags == w.tags - Gone(ds) && r.transforms == w.transforms - Gone(ds)
      && r.rigidbodies == w.rigidbodies - Gone(ds) && r.colliders == w.colliders - Gone(ds)
    decreases |ds|
  {
    if |ds| > 0 {
      var n := |ds| - 1;
      DestroyAllBodies(w, ds[..n]);
      SubtractOneMore(w.tags, Gone(ds[..n]), ds[n]);
      SubtractOneMore(w.transforms, Gone(ds[..n]), ds[n]);
      SubtractOneMore(w.rigidbodies, Gone(ds[..n]), ds[n]);
      SubtractOneMore(w.colliders, Gone(ds[..n]), ds[n]);
    }
  }

  /** The render, player and game-state maps lose exactly the listed entities. */
  lemma {:induction false} DestroyAllViews(w: World, ds: seq<Entity>)
    ensures var r := DestroyAll(w, ds);
      r.renderables == w.renderables - Gone(ds) && r.players == w.players - Gone(ds)
      && r.gameStates == w.gameStates - Gone(ds)
    decreases |ds|
  {
    if |ds| > 0 {
      var n := |ds| - 1;
      DestroyAllViews(w, ds[..n]);
      SubtractOneMore(w.renderables, Gone(ds[..n]), ds[n]);
      SubtractOneMore(w.players, Gone(ds[..n]), ds[n]);
      SubtractOneMore(w.gameStates, Gone(ds[..n]), ds[n]);
    }
  }

  /** Taking one more key out of a map. */
  lemma SubtractOneMore<V>(m: map<Entity, V>, gone: set<Entity>, e: Entity)
    ensures (m - gone) - {e} == m - (gone + {e})
  {
  }

  /** Destroying any list of entities keeps ids issued and components owned. */
  lemma {:induction false} DestroyAllValid(w: World, ds: seq<Entity>)
    requires IdsIssued(w) && Owned(w)
    ensures IdsIssued(DestroyAll(w, ds)) && Owned(DestroyAll(w, ds))
    decreases |ds|
  {
    if |ds| > 0 {
      DestroyAllValid(w, ds[..|ds| - 1]);
      DestroyValid(DestroyAll(w, ds[..|ds| - 1]), ds[|ds| - 1]);
    }
  }

  /** The destroy loop. */
  method DestroyEach(registry: Registry, ds: seq<Entity>)
    modifies registry`entities, registry`tags, registry`transforms, registry`rigidbodies, registry`colliders
    modifies registry`renderables, registry`players, registry`gameStates
    ensures registry.Snap() == DestroyAll(old(registry.Snap()), ds)
  {
    ghost var w0 := registry.Snap();
    for i := 0 to |ds|
      invariant registry.Snap() == DestroyAll(w0, ds[..i])
    {
      assert ds[..i + 1][..i] == ds[..i];
      registry.DestroyEntity(ds[i]);
    }
    assert ds[..|ds|] == ds;
  }

  // ------------------------------------------------------------ the system

  /** The collider walk's contact and score written back into the flown world, then the hit bricks destroyed. */
  function Resolve(w: World, ball: Entity, radius: real, colliderOrder: seq<Entity>, capped: Vec3 -> Vec3): (r: World)
    requires ball in w.transforms && ball in w.rigidbodies
  {
    var start := Contact(w.transforms[ball], w.rigidbodies[ball], w.globalState.score);
    var (c, ds) := Collide(start, ball, radius, colliderOrder, w.tags, w.transforms, w.players, capped);
    DestroyAll(w.(transforms := w.transforms[ball := c.ball], rigidbodies := w.rigidbodies[ball := c.body],
                  globalState := w.globalState.(score := c.score)), ds)
  }

  /** `PhysicsSystem::Update`. */
  function Physics(w: World, dt: real, tagOrder: seq<Entity>, colliderOrder: seq<Entity>, capped: Vec3 -> Vec3): World
    requires PhysicsReady(w, tagOrder)
  {
    var ball := BallOf(w.tags, tagOrder);
    if w.globalState.gameOver || ball == NullEntity || ball !in w.gameStates then w
    else if !w.gameStates[ball].launched then PlaceBall(w, ball, tagOrder)
    else
      var flown := Fly(w, ball, dt);
      Resolve(flown, ball, w.colliders[ball].radius, colliderOrder, capped)
  }

  /** A list without repeats has as many entities as its set. */
  lemma {:induction false} GoneSize(ds: seq<Entity>)
    requires Distinct(ds)
    ensures |Gone(ds)| == |ds|
    decreases |ds|
  {
    if |ds| > 0 {
      var n := |ds| - 1;
      assert Distinct(ds[..n]);
      GoneSize(ds[..n]);
      assert ds[n] !in Gone(ds[..n]);
      assert Gone(ds) == Gone(ds[..n]) + {ds[n]};
      assert |Gone(ds[..n]) + {ds[n]}| == |Gone(ds[..n])| + 1;
    }
  }

  /** Removing a set of bricks from the tags leaves the other bricks, and their number drops by the set's size. */
  lemma BricksMinus(tags: map<Entity, TagType>, gone: set<Entity>)
    requires gone <= Bricks(tags)
    ensures Bricks(tags - gone) == Bricks(tags) - gone
    ensures |Bricks(tags - gone)| == |Bricks(tags)| - |gone|
  {
    assert Bricks(tags - gone) == Bricks(tags) - gone;
    assert Bricks(tags) == (Bricks(tags) - gone) + gone;
    assert (Bricks(tags) - gone) * gone == {};
  }

  /**
   * The collider walk and the destruction after it: the bricks hit are
   * gone, the score has risen by SCORE_PER_BRICK for each, and the lives and
   * flags are untouched.
   */
  lemma ResolveScores(w: World, ball: Entity, radius: real, colliderOrder: seq<Entity>, capped: Vec3 -> Vec3)
    requires ball in w.transforms && ball in w.rigidbodies && Distinct(colliderOrder)
    ensures var r := Resolve(w, ball, radius, colliderOrder, capped);
      Bricks(r.tags) <= Bricks(w.tags)
      && r.globalState.score == w.globalState.score + ScorePerBrick * (|Bricks(w.tags)| - |Bricks(r.tags)|)
      && r.globalState == w.globalState.(score := r.globalState.score)
  {
    var start := Contact(w.transforms[ball], w.rigidbodies[ball], w.globalState.score);
    var walk := Collide(start, ball, radius, colliderOrder, w.tags, w.transforms, w.players, capped);
    var pre := w.(transforms := w.transforms[ball := walk.0.ball], rigidbodies := w.rigidbodies[ball := walk.0.body],
                  globalState := w.globalState.(score := walk.0.score));
    assert Resolve(w, ball, radius, colliderOrder, capped) == DestroyAll(pre, walk.1);
    CollideScore(start, ball, radius, colliderOrder, w.tags, w.transforms, w.players, capped);
    CollideReports(start, ball, radius, colliderOrder, w.tags, w.transforms, w.players, capped);
    DestroyAllKeeps(pre, walk.1);
    DestroyAllBodies(pre, walk.1);
    GoneSize(walk.1);
    assert Gone(walk.1) <= Bricks(w.tags);
    BricksMinus(w.tags, Gone(walk.1));
  }

  /** The collider walk and the destruction keep ids issued and components owned. */
  lemma ResolveValid(w: World, ball: Entity, radius: real, colliderOrder: seq<Entity>, capped: Vec3 -> Vec3)
    requires ball in w.transforms && ball in w.rigidbodies && IdsIssued(w) && Owned(w)
    ensures IdsIssued(Resolve(w, ball, radius, colliderOrder, capped)) && Owned(Resolve(w, ball, radius, colliderOrder, capped))
  {
    var start := Contact(w.transforms[ball], w.rigidbodies[ball], w.globalState.score);
    var walk := Collide(start, ball, radius, colliderOrder, w.tags, w.transforms, w.players, capped);
    var pre := w.(transforms := w.transforms[ball := walk.0.ball], rigidbodies := w.rigidbodies[ball := walk.0.body],
                  globalState := w.globalState.(score := walk.0.score));
    assert Resolve(w, ball, radius, colliderOrder, capped) == DestroyAll(pre, walk.1);
    assert pre.transforms.Keys == w.transforms.Keys && pre.rigidbodies.Keys == w.rigidbodies.Keys;
    DestroyAllValid(pre, walk.1);
  }

  /**
   * `PhysicsSystem::Update` leaves the world as it is when the game is over
   * or there is no ball with a game state; an unlaunched ball changes
   * transforms only, and no entity gains or loses one.
   */
  lemma PhysicsIdle(w: World, dt: real, tagOrder: seq<Entity>, colliderOrder: seq<Entity>, capped: Vec3 -> Vec3)
    requires PhysicsReady(w, tagOrder)
    ensures var r := Physics(w, dt, tagOrder, colliderOrder, capped); var ball := BallOf(w.tags, tagOrder);
      (w.globalState.gameOver || ball == NullEntity || ball !in w.gameStates ==> r == w)
      && (ball in w.gameStates && !w.gameStates[ball].launched ==>
            r == w.(transforms := r.transforms) && r.transforms.Keys == w.transforms.Keys)
  {
    var ball := BallOf(w.tags, tagOrder);
    if !w.globalState.gameOver && ball != NullEntity && ball in w.gameStates && !w.gameStates[ball].launched {
      assert Physics(w, dt, tagOrder, colliderOrder, capped) == PlaceBall(w, ball, tagOrder);
    }
  }

  /**
   * Each frame of `PhysicsSystem::Update` only removes bricks, adds
   * SCORE_PER_BRICK for each brick removed, and leaves the lives and the
   * flags alone.
   */
  lemma PhysicsScores(w: World, dt: real, tagOrder: seq<Entity>, colliderOrder: seq<Entity>, capped: Vec3 -> Vec3)
    requires PhysicsReady(w, tagOrder) && Distinct(colliderOrder)
    ensures var r := Physics(w, dt, tagOrder, colliderOrder, capped);
      Bricks(r.tags) <= Bricks(w.tags)
      && r.globalState.score == w.globalState.score + ScorePerBrick * (|Bricks(w.tags)| - |Bricks(r.tags)|)
      && r.globalState == w.globalState.(score := r.globalState.score)
  {
    var ball := BallOf(w.tags, tagOrder);
    PhysicsIdle(w, dt, tagOrder, colliderOrder, capped);
    if !w.globalState.gameOver && ball != NullEntity && ball in w.gameStates && w.gameStates[ball].launched {
      var flown := Fly(w, ball, dt);
      assert Physics(w, dt, tagOrder, colliderOrder, capped) == Resolve(flown, ball, w.colliders[ball].radius, colliderOrder, capped);
      ResolveScores(flown, ball, w.colliders[ball].radius, colliderOrder, capped);
    }
  }

  /** `PhysicsSystem::Update` keeps ids issued and components owned. */
  lemma PhysicsValid(w: World, dt: real, tagOrder: seq<Entity>, colliderOrder: seq<Entity>, capped: Vec3 -> Vec3)
    requires PhysicsReady(w, tagOrder) && IdsIssued(w) && Owned(w)
    ensures IdsIssued(Physics(w, dt, tagOrder, colliderOrder, capped)) && Owned(Physics(w, dt, tagOrder, colliderOrder, capped))
  {
    var ball := BallOf(w.tags, tagOrder);
    PhysicsIdle(w, dt, tagOrder, colliderOrder, capped);
    if !w.globalState.gameOver && ball != NullEntity && ball in w.gameStates && w.gameStates[ball].launched {
      var flown := Fly(w, ball, dt);
      assert Physics(w, dt, tagOrder, colliderOrder, capped) == Resolve(flown, ball, w.colliders[ball].radius, colliderOrder, capped);
      FlyValid(w, ball, dt);
      ResolveValid(flown, ball, w.colliders[ball].radius, colliderOrder, capped);
    }
  }

  /** Moving the ball keeps every map's keys, so the ids and the ownership stay valid. */
  lemma FlyValid(w: World, ball: Entity, dt: real)
    requires ball in w.transforms && ball in w.rigidbodies && IdsIssued(w) && Owned(w)
    ensures var r := Fly(w, ball, dt);
      r.transforms.Keys == w.transforms.Keys && r.rigidbodies.Keys == w.rigidbodies.Keys
      && IdsIssued(r) && Owned(r)
  {
    var r := Fly(w, ball, dt);
    UpdateKeeps(w.transforms, ball, r.transforms[ball]);
    UpdateKeeps(w.rigidbodies, ball, r.rigidbodies[ball]);
    MovedValid(w, r);
  }

  /** Replacing an existing key's value keeps the keys. */
  lemma UpdateKeeps<V>(m: map<Entity, V>, k: Entity, v: V)
    requires k in m
    ensures m[k := v].Keys == m.Keys
  {
  }

  /** A world that differs only in the values of its transforms and rigidbodies is as valid as before. */
  lemma MovedValid(w: World, r: World)
    requires IdsIssued(w) && Owned(w)
    requires r == w.(transforms := r.transforms, rigidbodies := r.rigidbodies)
    requires r.transforms.Keys == w.transforms.Keys && r.rigidbodies.Keys == w.rigidbodies.Keys
    ensures IdsIssued(r) && Owned(r)
  {
  }

  // ------------------------------------------------------------ the system on the registry

  /** The unlaunched branch: the walk for the first paddle, with `break`. */
  method PlaceOnPaddle(registry: Registry, ball: Entity, tagOrder: seq<Entity>)
    requires var paddle := FirstTagged(registry.tags, tagOrder, PaddleTag);
      paddle.Some? && paddle.value in registry.transforms ==> ball in registry.transforms && ball in registry.colliders
    modifies registry`transforms
    ensures registry.transforms == PlaceBall(old(registry.Snap()), ball, tagOrder).transforms
  {
    var paddle := FindFirst(registry.tags, tagOrder, PaddleTag);
    if paddle.Some? {
      var pTrans := Get(registry.transforms, paddle.value);
      if pTrans.Some? {
        var bt := registry.transforms[ball];
        var x := pTrans.value.pos.x;
        var y := pTrans.value.pos.y + pTrans.value.scale.y * 0.5 + registry.colliders[ball].radius + 0.2;
        registry.transforms := registry.transforms[ball := bt.(pos := bt.pos.(x := x, y := y))];
      }
    }
  }

  /** Integration and the wall collisions of the launched ball. */
  method FlyBall(registry: Registry, ball: Entity, dt: real)
    requires ball in registry.transforms && ball in registry.rigidbodies
    modifies registry`transforms, registry`rigidbodies
    ensures registry.transforms == Fly(old(registry.Snap()), ball, dt).transforms
    ensures registry.rigidbodies == Fly(old(registry.Snap()), ball, dt).rigidbodies
  {
    var bt := registry.transforms[ball];
    var rb := registry.rigidbodies[ball];
    var pos := Add(bt.pos, Scale(dt, rb.velocity));
    var vel := rb.velocity;
    if pos.x <= MinX {
      pos := pos.(x := MinX);
      vel := vel.(x := vel.x * -1.0);
    } else if pos.x >= MaxX {
      pos := pos.(x := MaxX);
      vel := vel.(x := vel.x * -1.0);
    }
    if pos.y >= MaxY {
      pos := pos.(y := MaxY);
      vel := vel.(y := vel.y * -1.0);
    }
    registry.transforms := registry.transforms[ball := bt.(pos := pos)];
    registry.rigidbodies := registry.rigidbodies[ball := rb.(velocity := vel)];
  }

  /**
   * `PhysicsSystem::Update` with the tag walk `tagOrder` and the collider
   * walk `colliderOrder`. The ball's transform and rigidbody, which the
   * source updates through pointers during the collider walk, are written
   * back once the walk is done; no step of the walk reads them from the maps.
   */
  method PhysicsUpdate(registry: Registry, dt: real, tagOrder: seq<Entity>, colliderOrder: seq<Entity>,
                       capped: Vec3 -> Vec3)
    requires IsOrder(tagOrder, registry.tags.Keys) && IsOrder(colliderOrder, registry.colliders.Keys)
    requires PhysicsReady(registry.Snap(), tagOrder)
    modifies registry
    ensures registry.Snap() == Physics(old(registry.Snap()), dt, tagOrder, colliderOrder, capped)
  {
    if registry.globalState.gameOver {
      return;
    }
    var found := FindFirst(registry.tags, tagOrder, BallTag);
    var ball := OrNull(found);
    if ball == NullEntity || ball !in registry.gameStates {
      return;
    }
    if !registry.gameStates[ball].launched {
      PlaceOnPaddle(registry, ball, tagOrder);
      return;
    }
    FlyBall(registry, ball, dt);
    var radius := registry.colliders[ball].radius;
    var start := Contact(registry.transforms[ball], registry.rigidbodies[ball], registry.globalState.score);
    var contact, destroyed := Collisions(start, ball, radius, colliderOrder, registry.tags, registry.transforms,
                                         registry.players, capped);
    registry.transforms := registry.transforms[ball := contact.ball];
    registry.rigidbodies := registry.rigidbodies[ball := contact.body];
    registry.globalState := registry.globalState.(score := contact.score);
    DestroyEach(registry, destroyed);
  }
}
