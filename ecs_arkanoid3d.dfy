/**
 * The entity-component-system 3D Arkanoid of src/samples/ecs_arkanoid3d.h:
 * a `Registry` that hands out entity ids and keeps seven component maps and
 * the global score/lives/flags, the systems that update it each frame
 * (`InputSystem`, `PhysicsSystem`, `GameLogicSystem`), and
 * `Game::resetGame`, which rebuilds the paddle, the ball and the wall.
 *
 * The registry is first a `World` value, and each operation and system is a
 * function on it with lemmas about it; the `Registry` class and the
 * system methods are proved to perform those functions. The iteration order
 * of an `unordered_map` is unspecified in C++, so the methods take it as an
 * input: a sequence listing the map's keys once each.
 */
module EcsArkanoid3d {
  import opened Wrappers
  import opened Vectors
  import opened Arkanoid3d

  /** `using Entity = std::uint32_t`; `NULL_ENTITY`. */
  type Entity = UInt32
  const NullEntity: Entity := 0
  const IdRange: nat := 0x1_0000_0000

  /** `TagType`. */
  datatype TagType = NoTag | PaddleTag | BallTag | BrickTag

  /** `RigidbodyComponent`. */
  datatype Rigidbody = Rigidbody(velocity: Vec3, isStatic: bool)

  /** `ColliderComponent`: its `Type` and the sphere radius (1 by default). */
  datatype ColliderType = Box | Sphere
  datatype Collider = Collider(kind: ColliderType, radius: real)

  /** The two meshes the game owns; `RenderComponent::mesh` points to one of them or is null. */
  datatype MeshKind = CubeMesh | SphereMesh

  /** `RenderComponent`. */
  datatype Renderable = Renderable(mesh: Option<MeshKind>, color: Color, visible: bool)

  /** `PlayerControlComponent`. */
  datatype PlayerControl = PlayerControl(lastX: real, velocityX: real)

  /** `GameStateComponent`. */
  datatype GameStateComponent = GameStateComponent(launched: bool)

  /** `Registry::globalState`. */
  datatype GlobalState = GlobalState(score: int, lives: int, gameOver: bool, gameWon: bool)

  /** The registry's contents as a value. */
  datatype World = World(entities: seq<Entity>, nextId: Entity,
                         tags: map<Entity, TagType>, transforms: map<Entity, Transform>,
                         rigidbodies: map<Entity, Rigidbody>, colliders: map<Entity, Collider>,
                         renderables: map<Entity, Renderable>, players: map<Entity, PlayerControl>,
                         gameStates: map<Entity, GameStateComponent>, globalState: GlobalState)

  /** The global state a fresh registry and `resetGame` start from. */
  const StartState: GlobalState := GlobalState(0, InitialLives, false, false)

  // ------------------------------------------------------------ component maps

  /** `getComponent<T>(e)`: the component, or null (None) when the map lacks e. */
  function Get<V>(m: map<Entity, V>, e: Entity): (r: Option<V>)
    ensures r.None? <==> e !in m
    ensures r.Some? ==> r.value == m[e]
  {
    if e in m then Some(m[e]) else None
  }

  /** `addComponent` overwrites: afterwards e has exactly the new component, and no other entity's changed. */
  lemma AddThenGet<V>(m: map<Entity, V>, e: Entity, c: V, x: Entity)
    ensures Get(m[e := c], e) == Some(c)
    ensures x != e ==> Get(m[e := c], x) == Get(m, x)
  {
  }

  /** `registry.tags[e].type`: `operator[]` gives a default (None) tag to an entity without one. */
  function TagOf(tags: map<Entity, TagType>, e: Entity): TagType {
    if e in tags then tags[e] else NoTag
  }

  /** The entities tagged as bricks. */
  function Bricks(tags: map<Entity, TagType>): set<Entity> {
    set e | e in tags && tags[e] == BrickTag
  }

  // ------------------------------------------------------------ walks over the maps

  /** No entity twice. */
  predicate Distinct(s: seq<Entity>) {
    forall i, j :: 0 <= i < j < |s| ==> s[i] != s[j]
  }

  /**
   * The order in which a range-for over an `unordered_map` with these keys
   * visits them: each key exactly once, in an order C++ leaves unspecified.
   */
  ghost predicate IsOrder(order: seq<Entity>, keys: set<Entity>) {
    Distinct(order) && forall e :: e in order <==> e in keys
  }

  /** The set of the first i + 1 entries of a walk. */
  lemma PrefixStep(order: seq<Entity>, done: set<Entity>, i: nat)
    requires i < |order| && forall k :: k in done <==> k in order[..i]
    ensures order[i] !in done <== Distinct(order)
    ensures forall k :: k in done + {order[i]} <==> k in order[..i + 1]
  {
    assert order[..i + 1] == order[..i] + [order[i]];
  }

  /** A finished walk has seen every key. */
  lemma WalkDone(order: seq<Entity>, keys: set<Entity>, done: set<Entity>)
    requires IsOrder(order, keys) && forall k :: k in done <==> k in order[..|order|]
    ensures done == keys
  {
    assert order[..|order|] == order;
  }

  // ------------------------------------------------------------ registry operations

  /** `std::remove(entities, e)` then `erase`: every occurrence of e goes, the rest keep their order. */
  function Remove(s: seq<Entity>, e: Entity): (r: seq<Entity>)
    ensures forall x :: x in r <==> x in s && x != e
    ensures |r| <= |s|
  {
    if |s| == 0 then []
    else Remove(s[..|s| - 1], e) + (if s[|s| - 1] == e then [] else [s[|s| - 1]])
  }

  /** Removing drops exactly the occurrences of e, and removing an absent entity changes nothing. */
  lemma {:induction false} RemoveCount(s: seq<Entity>, e: Entity)
    ensures |Remove(s, e)| == |s| - multiset(s)[e]
    ensures e !in s ==> Remove(s, e) == s
  {
    if |s| > 0 {
      var n := |s| - 1;
      RemoveCount(s[..n], e);
      assert s == s[..n] + [s[n]];
      assert multiset(s) == multiset(s[..n]) + multiset{s[n]};
    }
  }

  /** `createEntity`: the new id is `nextId`, which is then incremented (wrapping at 2^32), and appended. */
  function Created(w: World): (World, Entity) {
    (w.(entities := w.entities + [w.nextId], nextId := ((w.nextId as int + 1) % IdRange) as Entity), w.nextId)
  }

  /** `destroyEntity`: e leaves `entities` and all seven maps. */
  function Destroyed(w: World, e: Entity): World {
    w.(entities := Remove(w.entities, e),
       tags := w.tags - {e}, transforms := w.transforms - {e}, rigidbodies := w.rigidbodies - {e},
       colliders := w.colliders - {e}, renderables := w.renderables - {e}, players := w.players - {e},
       gameStates := w.gameStates - {e})
  }

  /** `clear`: no entities, no components, ids from 1 again; the global state is left. */
  function Cleared(w: World): World {
    World([], 1, map[], map[], map[], map[], map[], map[], map[], w.globalState)
  }

  /** Every id handed out so far is neither null nor at or past `nextId`. */
  predicate IdsIssued(w: World) {
    forall e :: e in w.entities ==> NullEntity < e < w.nextId
  }

  /** Every component belongs to an entity in `entities`. */
  predicate Owned(w: World) {
    (forall e :: e in w.tags ==> e in w.entities)
    && (forall e :: e in w.transforms ==> e in w.entities)
    && (forall e :: e in w.rigidbodies ==> e in w.entities)
    && (forall e :: e in w.colliders ==> e in w.entities)
    && (forall e :: e in w.renderables ==> e in w.entities)
    && (forall e :: e in w.players ==> e in w.entities)
    && (forall e :: e in w.gameStates ==> e in w.entities)
  }

  /**
   * Until the ids wrap, `createEntity` hands out an id that is not null and
   * is new, and the ids stay issued.
   */
  lemma CreateFresh(w: World)
    requires IdsIssued(w) && w.nextId as int + 1 < IdRange && w.nextId != NullEntity
    ensures var (t, id) := Created(w);
      id != NullEntity && id !in w.entities && IdsIssued(t) && t.nextId == id + 1
      && t.entities == w.entities + [id]
  {
  }

  /**
   * After `destroyEntity(e)` no trace of e is left, every other entity keeps
   * its components, and `nextId` is untouched.
   */
  lemma DestroyGone(w: World, e: Entity, x: Entity)
    ensures var t := Destroyed(w, e);
      e !in t.entities && e !in t.tags && e !in t.transforms && e !in t.rigidbodies && e !in t.colliders
      && e !in t.renderables && e !in t.players && e !in t.gameStates && t.nextId == w.nextId
      && t.globalState == w.globalState
      && (x != e ==> (x in t.entities <==> x in w.entities)
                     && Get(t.tags, x) == Get(w.tags, x) && Get(t.transforms, x) == Get(w.transforms, x)
                     && Get(t.rigidbodies, x) == Get(w.rigidbodies, x) && Get(t.colliders, x) == Get(w.colliders, x)
                     && Get(t.renderables, x) == Get(w.renderables, x) && Get(t.players, x) == Get(w.players, x)
                     && Get(t.gameStates, x) == Get(w.gameStates, x))
  {
  }

  /** Destroying keeps ids issued and components owned. */
  lemma DestroyValid(w: World, e: Entity)
    requires IdsIssued(w) && Owned(w)
    ensures IdsIssued(Destroyed(w, e)) && Owned(Destroyed(w, e))
  {
  }

  /** After `clear` the next two entities created are 1 and 2, which `resetGame` makes the paddle and the ball. */
  lemma ClearRestarts(w: World)
    ensures var c := Cleared(w);
      c.entities == [] && c.tags == map[] && IdsIssued(c) && Owned(c)
      && Created(c).1 == 1 && Created(Created(c).0).1 == 2
  {
  }

  // ------------------------------------------------------------ the world resetGame builds

  /** The paddle, the ball, and the first brick's id. */
  const PaddleId: Entity := 1
  const BallId: Entity := 2
  const FirstBrickId: Entity := 3

  /** The colours `resetGame` gives the paddle and the ball. */
  const PaddleColor: Color := Color(0.3, 0.8, 0.3, 1.0)
  const BallColor: Color := Color(1.0, 0.2, 0.2, 1.0)

  /** The paddle's and the ball's components. */
  const PaddleTransform: Transform := Transform(PaddleStart, PaddleScale)
  const BallTransform: Transform := Transform(BallStart, Vec3(BallRadius, BallRadius, BallRadius))
  const BoxCollider: Collider := Collider(Box, 1.0)
  const BallCollider: Collider := Collider(Sphere, BallRadius)

  /** Brick k of the wall (row k / COLS, column k % COLS): its transform and render component. */
  function BrickTransform(k: nat): Transform {
    Transform(BrickPos(k / Cols, k % Cols), BrickSize)
  }

  function BrickRender(colorOf: (nat, nat) -> Color, k: nat): Renderable {
    Renderable(Some(CubeMesh), colorOf(k / Cols, k % Cols), true)
  }

  /** The ids 1 .. m, in creation order. */
  function Ids(m: nat): (s: seq<Entity>)
    requires m < IdRange
    ensures |s| == m && forall i :: 0 <= i < m ==> s[i] == i + 1
  {
    if m == 0 then [] else Ids(m - 1) + [m as Entity]
  }

  /**
   * The registry after `resetGame` has created the paddle (1), the ball (2)
   * and the first n bricks (3 .. n + 2), with `colorOf(r, c)` the random
   * colour of the brick in row r, column c.
   */
  function Built(colorOf: (nat, nat) -> Color, n: nat): World
    requires n <= Rows * Cols
  {
    World(Ids(n + 2), (n + 3) as Entity, BuiltTags(n), BuiltTransforms(n), map[BallId := Rigidbody(BallStartVel, false)],
          BuiltColliders(n), BuiltRenders(colorOf, n), map[PaddleId := PlayerControl(0.0, 0.0)],
          map[BallId := GameStateComponent(false)], StartState)
  }

  /** The component maps after the paddle, the ball and n bricks: brick k gets id k + 3. */
  function BuiltTags(n: nat): map<Entity, TagType>
    requires n <= Rows * Cols
  {
    if n == 0 then map[PaddleId := PaddleTag, BallId := BallTag]
    else BuiltTags(n - 1)[(n + 2) as Entity := BrickTag]
  }

  function BuiltTransforms(n: nat): map<Entity, Transform>
    requires n <= Rows * Cols
  {
    if n == 0 then map[PaddleId := PaddleTransform, BallId := BallTransform]
    else BuiltTransforms(n - 1)[(n + 2) as Entity := BrickTransform(n - 1)]
  }

  function BuiltColliders(n: nat): map<Entity, Collider>
    requires n <= Rows * Cols
  {
    if n == 0 then map[PaddleId := BoxCollider, BallId := BallCollider]
    else BuiltColliders(n - 1)[(n + 2) as Entity := BoxCollider]
  }

  function BuiltRenders(colorOf: (nat, nat) -> Color, n: nat): map<Entity, Renderable>
    requires n <= Rows * Cols
  {
    if n == 0 then map[PaddleId := Renderable(Some(CubeMesh), PaddleColor, true),
                       BallId := Renderable(Some(SphereMesh), BallColor, true)]
    else BuiltRenders(colorOf, n - 1)[(n + 2) as Entity := BrickRender(colorOf, n - 1)]
  }

  /** The components of entity e of the rebuilt world: e = 1 the paddle, e = 2 the ball, the rest bricks. */
  function TagFor(e: Entity): TagType {
    if e == PaddleId then PaddleTag else if e == BallId then BallTag else BrickTag
  }

  function TransformFor(e: Entity): Transform {
    if e == PaddleId then PaddleTransform else if e < FirstBrickId then BallTransform else BrickTransform(e - 3)
  }

  function ColliderFor(e: Entity): Collider {
    if e == BallId then BallCollider else BoxCollider
  }

  function RenderFor(colorOf: (nat, nat) -> Color, e: Entity): Renderable {
    if e == PaddleId then Renderable(Some(CubeMesh), PaddleColor, true)
    else if e < FirstBrickId then Renderable(Some(SphereMesh), BallColor, true)
    else BrickRender(colorOf, e - 3)
  }

  /**
   * What the rebuilt maps hold: exactly the ids 1 .. n + 2, the paddle at 1,
   * the ball at 2, and at id k + 3 brick k of the wall, a box in row
   * k / COLS and column k % COLS with `colorOf`'s colour for that cell.
   */
  lemma {:induction false} BuiltFacts(colorOf: (nat, nat) -> Color, n: nat, e: Entity)
    requires n <= Rows * Cols
    ensures e in BuiltTags(n) <==> 1 <= e < n + 3
    ensures e in BuiltTransforms(n) <==> 1 <= e < n + 3
    ensures e in BuiltColliders(n) <==> 1 <= e < n + 3
    ensures e in BuiltRenders(colorOf, n) <==> 1 <= e < n + 3
    ensures 1 <= e < n + 3 ==>
      BuiltTags(n)[e] == TagFor(e) && BuiltTransforms(n)[e] == TransformFor(e)
      && BuiltColliders(n)[e] == ColliderFor(e) && BuiltRenders(colorOf, n)[e] == RenderFor(colorOf, e)
  {
    if n > 0 {
      BuiltFacts(colorOf, n - 1, e);
    }
  }

  /** Row and column of brick r * COLS + c. */
  lemma WallIndex(r: nat, c: nat)
    requires c < Cols
    ensures (r * Cols + c) / Cols == r && (r * Cols + c) % Cols == c
  {
  }

  /** Brick r * COLS + c, the one `resetGame`'s loops create for row r and column c, sits at BrickPos(r, c). */
  lemma BrickAt(colorOf: (nat, nat) -> Color, r: nat, c: nat)
    requires r < Rows && c < Cols
    ensures r * Cols + c < Rows * Cols
    ensures BrickTransform(r * Cols + c) == Transform(BrickPos(r, c), BrickSize)
    ensures BrickRender(colorOf, r * Cols + c) == Renderable(Some(CubeMesh), colorOf(r, c), true)
  {
    assert r * Cols + c < Rows * Cols by {
      assert r * Cols + c < (r + 1) * Cols <= Rows * Cols;
    }
    WallIndex(r, c);
  }

  // ------------------------------------------------------------ the registry

  /** `Registry`: the entity list, the id counter, the seven component maps and the global state. */
  class Registry {
    var entities: seq<Entity>
    var nextId: Entity
    var tags: map<Entity, TagType>
    var transforms: map<Entity, Transform>
    var rigidbodies: map<Entity, Rigidbody>
    var colliders: map<Entity, Collider>
    var renderables: map<Entity, Renderable>
    var players: map<Entity, PlayerControl>
    var gameStates: map<Entity, GameStateComponent>
    var globalState: GlobalState

    function Snap(): World
      reads this
    {
      World(entities, nextId, tags, transforms, rigidbodies, colliders, renderables, players, gameStates, globalState)
    }

    /** The member initialisers: nothing registered, ids from 1, score 0 and three lives. */
    constructor ()
      ensures Snap() == World([], 1, map[], map[], map[], map[], map[], map[], map[], StartState)
    {
      entities, nextId := [], 1;
      tags, transforms, rigidbodies, colliders := map[], map[], map[], map[];
      renderables, players, gameStates := map[], map[], map[];
      globalState := StartState;
    }

    /** `createEntity`. */
    method CreateEntity() returns (id: Entity)
      modifies this`entities, this`nextId
      ensures id == old(nextId) && nextId == ((id as int + 1) % IdRange) as Entity && entities == old(entities) + [id]
    {
      id := nextId;
      nextId := ((nextId as int + 1) % IdRange) as Entity;
      entities := entities + [id];
    }

    /** `destroyEntity`. */
    method DestroyEntity(e: Entity)
      modifies this`entities, this`tags, this`transforms, this`rigidbodies, this`colliders
      modifies this`renderables, this`players, this`gameStates
      ensures entities == Remove(old(entities), e) && tags == old(tags) - {e} && transforms == old(transforms) - {e}
      ensures rigidbodies == old(rigidbodies) - {e} && colliders == old(colliders) - {e}
      ensures renderables == old(renderables) - {e} && players == old(players) - {e} && gameStates == old(gameStates) - {e}
    {
      entities := Remove(entities, e);
      tags := tags - {e};
      transforms := transforms - {e};
      rigidbodies := rigidbodies - {e};
      colliders := colliders - {e};
      renderables := renderables - {e};
      players := players - {e};
      gameStates := gameStates - {e};
    }

    /** `clear`. */
    method Clear()
      modifies this`entities, this`nextId, this`tags, this`transforms, this`rigidbodies, this`colliders
      modifies this`renderables, this`players, this`gameStates
      ensures entities == [] && nextId == 1 && tags == map[] && transforms == map[] && rigidbodies == map[]
      ensures colliders == map[] && renderables == map[] && players == map[] && gameStates == map[]
    {
      entities := [];
      tags, transforms, rigidbodies, colliders := map[], map[], map[], map[];
      renderables, players, gameStates := map[], map[], map[];
      nextId := 1;
    }

    /** The seven `addComponent` specialisations: `map[e] = c`. */
    method AddTag(e: Entity, c: TagType)
      modifies this`tags
      ensures tags == old(tags)[e := c]
    {
      tags := tags[e := c];
    }

    method AddTransform(e: Entity, c: Transform)
      modifies this`transforms
      ensures transforms == old(transforms)[e := c]
    {
      transforms := transforms[e := c];
    }

    method AddRigidbody(e: Entity, c: Rigidbody)
      modifies this`rigidbodies
      ensures rigidbodies == old(rigidbodies)[e := c]
    {
      rigidbodies := rigidbodies[e := c];
    }

    method AddCollider(e: Entity, c: Collider)
      modifies this`colliders
      ensures colliders == old(colliders)[e := c]
    {
      colliders := colliders[e := c];
    }

    method AddRenderable(e: Entity, c: Renderable)
      modifies this`renderables
      ensures renderables == old(renderables)[e := c]
    {
      renderables := renderables[e := c];
    }

    method AddPlayer(e: Entity, c: PlayerControl)
      modifies this`players
      ensures players == old(players)[e := c]
    {
      players := players[e := c];
    }

    method AddGameState(e: Entity, c: GameStateComponent)
      modifies this`gameStates
      ensures gameStates == old(gameStates)[e := c]
    {
      gameStates := gameStates[e := c];
    }
  }

  // ------------------------------------------------------------ resetGame

  /** The registry holds the paddle, the ball and the first n bricks in the maps the wall loop writes. */
  ghost predicate HoldsWall(registry: Registry, colorOf: (nat, nat) -> Color, n: nat)
    requires n <= Rows * Cols
    reads registry
  {
    registry.entities == Ids(n + 2) && registry.nextId == (n + 3) as Entity
    && registry.tags == BuiltTags(n) && registry.transforms == BuiltTransforms(n)
    && registry.colliders == BuiltColliders(n) && registry.renderables == BuiltRenders(colorOf, n)
  }

  /** The maps the wall loop leaves alone hold the ball's and the paddle's components. */
  ghost predicate HoldsRest(registry: Registry)
    reads registry
  {
    registry.rigidbodies == map[BallId := Rigidbody(BallStartVel, false)]
    && registry.players == map[PaddleId := PlayerControl(0.0, 0.0)]
    && registry.gameStates == map[BallId := GameStateComponent(false)]
    && registry.globalState == StartState
  }

  /** `resetGame`, step 1: the paddle, with its five components. */
  method SpawnPaddle(registry: Registry)
    requires registry.entities == [] && registry.nextId == 1 && registry.globalState == StartState
    requires registry.tags == map[] && registry.transforms == map[] && registry.rigidbodies == map[]
    requires registry.colliders == map[] && registry.renderables == map[] && registry.players == map[]
    requires registry.gameStates == map[]
    modifies registry
    ensures registry.entities == [PaddleId] && registry.nextId == 2 && registry.tags == map[PaddleId := PaddleTag]
    ensures registry.transforms == map[PaddleId := PaddleTransform] && registry.rigidbodies == map[]
    ensures registry.colliders == map[PaddleId := BoxCollider]
    ensures registry.renderables == map[PaddleId := Renderable(Some(CubeMesh), PaddleColor, true)]
    ensures registry.players == map[PaddleId := PlayerControl(0.0, 0.0)] && registry.gameStates == map[]
    ensures registry.globalState == StartState
  {
    var paddle := registry.CreateEntity();
    registry.AddTag(paddle, PaddleTag);
    registry.AddTransform(paddle, Transform(PaddleStart, PaddleScale));
    registry.AddRenderable(paddle, Renderable(Some(CubeMesh), Color(0.3, 0.8, 0.3, 1.0), true));
    registry.AddCollider(paddle, Collider(Box, 1.0));
    registry.AddPlayer(paddle, PlayerControl(0.0, 0.0));
  }

  /** `resetGame`, step 2: the ball, with its six components. */
  method SpawnBall(registry: Registry, colorOf: (nat, nat) -> Color)
    requires registry.entities == [PaddleId] && registry.nextId == 2 && registry.tags == map[PaddleId := PaddleTag]
    requires registry.transforms == map[PaddleId := PaddleTransform] && registry.rigidbodies == map[]
    requires registry.colliders == map[PaddleId := BoxCollider]
    requires registry.renderables == map[PaddleId := Renderable(Some(CubeMesh), PaddleColor, true)]
    requires registry.players == map[PaddleId := PlayerControl(0.0, 0.0)] && registry.gameStates == map[]
    requires registry.globalState == StartState
    modifies registry
    ensures HoldsWall(registry, colorOf, 0) && HoldsRest(registry)
  {
    var ball := registry.CreateEntity();
    registry.AddTag(ball, BallTag);
    registry.AddTransform(ball, Transform(BallStart, Vec3(BallRadius, BallRadius, BallRadius)));
    registry.AddRigidbody(ball, Rigidbody(BallStartVel, false));
    registry.AddRenderable(ball, Renderable(Some(SphereMesh), Color(1.0, 0.2, 0.2, 1.0), true));
    registry.AddCollider(ball, Collider(Sphere, BallRadius));
    registry.AddGameState(ball, GameStateComponent(false));
    StartWall(colorOf);
    assert registry.entities == Ids(2) && registry.nextId == 3;
    assert registry.tags == BuiltTags(0) && registry.transforms == BuiltTransforms(0);
    assert registry.colliders == BuiltColliders(0) && registry.renderables == BuiltRenders(colorOf, 0);
  }

  /** The rebuilt world with no bricks yet: the paddle's entries, then the ball's. */
  lemma StartWall(colorOf: (nat, nat) -> Color)
    ensures Ids(2) == [PaddleId] + [BallId]
    ensures BuiltTags(0) == map[PaddleId := PaddleTag][BallId := BallTag]
    ensures BuiltTransforms(0) == map[PaddleId := PaddleTransform][BallId := BallTransform]
    ensures BuiltColliders(0) == map[PaddleId := BoxCollider][BallId := BallCollider]
    ensures BuiltRenders(colorOf, 0)
      == map[PaddleId := Renderable(Some(CubeMesh), PaddleColor, true)][BallId := Renderable(Some(SphereMesh), BallColor, true)]
  {
  }

  /** The body of `resetGame`'s inner loop: brick (r, c) with its four components. */
  method SpawnBrick(registry: Registry, r: nat, c: nat, colorOf: (nat, nat) -> Color)
    requires r < Rows && c < Cols && r * Cols + c < Rows * Cols
    requires HoldsWall(registry, colorOf, r * Cols + c)
    modifies registry`entities, registry`nextId, registry`tags, registry`transforms
    modifies registry`renderables, registry`colliders
    ensures HoldsWall(registry, colorOf, r * Cols + c + 1)
  {
    BrickAt(colorOf, r, c);
    var brick := registry.CreateEntity();
    registry.AddTag(brick, BrickTag);
    registry.AddTransform(brick, Transform(BrickPos(r, c), BrickSize));
    registry.AddRenderable(brick, Renderable(Some(CubeMesh), colorOf(r, c), true));
    registry.AddCollider(brick, Collider(Box, 1.0));
  }

  /** `resetGame`, step 3: the nested row and column loops. */
  method SpawnWall(registry: Registry, colorOf: (nat, nat) -> Color)
    requires HoldsWall(registry, colorOf, 0)
    modifies registry`entities, registry`nextId, registry`tags, registry`transforms
    modifies registry`renderables, registry`colliders
    ensures HoldsWall(registry, colorOf, Rows * Cols)
  {
    for r := 0 to Rows
      invariant HoldsWall(registry, colorOf, r * Cols)
    {
      SpawnRow(registry, r, colorOf);
    }
  }

  /** The column loop for row r: bricks r * COLS .. r * COLS + COLS - 1. */
  method SpawnRow(registry: Registry, r: nat, colorOf: (nat, nat) -> Color)
    requires r < Rows
    requires HoldsWall(registry, colorOf, r * Cols)
    modifies registry`entities, registry`nextId, registry`tags, registry`transforms
    modifies registry`renderables, registry`colliders
    ensures (r + 1) * Cols <= Rows * Cols
    ensures HoldsWall(registry, colorOf, (r + 1) * Cols)
  {
    for c := 0 to Cols
      invariant r * Cols + c <= Rows * Cols
      invariant HoldsWall(registry, colorOf, r * Cols + c)
    {
      BrickAt(colorOf, r, c);
      SpawnBrick(registry, r, c, colorOf);
    }
    assert r * Cols + Cols == (r + 1) * Cols;
  }

  /** `Game::resetGame`: clear, reset the global state, then paddle, ball and wall. */
  method ResetGame(registry: Registry, colorOf: (nat, nat) -> Color)
    modifies registry
    ensures registry.Snap() == Built(colorOf, Rows * Cols)
  {
    registry.Clear();
    registry.globalState := GlobalState(0, InitialLives, false, false);
    SpawnPaddle(registry);
    SpawnBall(registry, colorOf);
    SpawnWall(registry, colorOf);
  }
}
