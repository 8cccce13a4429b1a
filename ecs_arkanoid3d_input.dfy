/**
 * `InputSystem` of src/samples/ecs_arkanoid3d.h: the paddle follows the
 * cursor and Space launches the ball. `Input` states the system on a
 * `World` without reference to the order of the map walks; the methods
 * perform it on a `Registry` for any order (`IsOrder`).
 */
module EcsArkanoid3dInput {
  import opened Wrappers
  import opened Vectors
  import opened Arkanoid3d
  import opened EcsArkanoid3d

  // ------------------------------------------------------------ InputSystem

  /**
   * `std::clamp` needs its lower bound not above its upper one: every steered
   * paddle is at most as wide as the field.
   */
  predicate Steerable(transforms: map<Entity, Transform>, players: map<Entity, PlayerControl>) {
    forall e :: e in players && e in transforms ==> transforms[e].scale.x * 0.5 <= MaxX
  }

  /** The paddle's new x: eased toward the cursor's world x at rate 15 per second, then held inside the field. */
  function SteerX(t: Transform, worldX: real, dt: real): (x: real)
    requires t.scale.x * 0.5 <= MaxX
    ensures MinX + t.scale.x * 0.5 <= x <= MaxX - t.scale.x * 0.5
    ensures MinX + t.scale.x * 0.5 <= Eased(t, worldX, dt) <= MaxX - t.scale.x * 0.5 ==> x == Eased(t, worldX, dt)
  {
    Clamp(Eased(t, worldX, dt), MinX + t.scale.x * 0.5, MaxX - t.scale.x * 0.5)
  }

  lemma EasedIs(t: Transform, prevX: real, worldX: real, dt: real)
    requires prevX == t.pos.x
    ensures prevX + (worldX - prevX) * 15.0 * dt == Eased(t, worldX, dt)
  {
  }

  /** The smoothing step: the paddle covers 15 dt of the way to the cursor. */
  function Eased(t: Transform, worldX: real, dt: real): real {
    t.pos.x + (worldX - t.pos.x) * 15.0 * dt
  }

  /** The player component after steering: `lastX` the new x, `velocityX` the x speed, kept when dt is not positive. */
  function SteerControl(t: Transform, pc: PlayerControl, worldX: real, dt: real): (r: PlayerControl)
    requires t.scale.x * 0.5 <= MaxX
    ensures r.lastX == SteerX(t, worldX, dt)
    ensures dt > 0.0 ==> r.velocityX == (r.lastX - t.pos.x) / dt
    ensures dt <= 0.0 ==> r.velocityX == pc.velocityX
  {
    var x := SteerX(t, worldX, dt);
    PlayerControl(x, if dt > 0.0 then (x - t.pos.x) / dt else pc.velocityX)
  }

  /** The transforms once the players in `done` have been steered: only their x moves. */
  function SteeredTransforms(ts: map<Entity, Transform>, ps: map<Entity, PlayerControl>, done: set<Entity>,
                             worldX: real, dt: real): (r: map<Entity, Transform>)
    requires Steerable(ts, ps)
    ensures r.Keys == ts.Keys
    ensures forall e :: e in r ==> r[e].scale == ts[e].scale && r[e].pos.y == ts[e].pos.y && r[e].pos.z == ts[e].pos.z
  {
    map e | e in ts :: if e in ps && e in done then ts[e].(pos := ts[e].pos.(x := SteerX(ts[e], worldX, dt))) else ts[e]
  }

  /** The player components once the players in `done` have been steered. */
  function SteeredPlayers(ts: map<Entity, Transform>, ps: map<Entity, PlayerControl>, done: set<Entity>,
                          worldX: real, dt: real): (r: map<Entity, PlayerControl>)
    requires Steerable(ts, ps)
    ensures r.Keys == ps.Keys
  {
    map e | e in ps :: if e in ts && e in done then SteerControl(ts[e], ps[e], worldX, dt) else ps[e]
  }

  /** `registry.tags[entity]` for the entities in `done`: `operator[]` adds a `None` tag where there was none. */
  function TouchedTags(tags: map<Entity, TagType>, done: set<Entity>): (r: map<Entity, TagType>)
    ensures r.Keys == tags.Keys + done
    ensures forall e :: e in r ==> r[e] == TagOf(tags, e)
  {
    map e | e in tags.Keys + done :: TagOf(tags, e)
  }

  /** The game states once Space has been handled for the entities in `done`. */
  function Launched(gs: map<Entity, GameStateComponent>, tags: map<Entity, TagType>, gameOver: bool,
                    done: set<Entity>): (r: map<Entity, GameStateComponent>)
    ensures r.Keys == gs.Keys
  {
    map e | e in gs :: if e in done && TagOf(tags, e) == BallTag && !gs[e].launched && !gameOver
                       then gs[e].(launched := true) else gs[e]
  }

  /**
   * `InputSystem::Update`: every player with a transform is steered toward
   * `worldX` (the cursor mapped into the field); when `space` is down every
   * ball that is not launched is launched, unless the game is over.
   */
  function Input(w: World, worldX: real, dt: real, space: bool): World
    requires Steerable(w.transforms, w.players)
  {
    var steered := w.(transforms := SteeredTransforms(w.transforms, w.players, w.players.Keys, worldX, dt),
                      players := SteeredPlayers(w.transforms, w.players, w.players.Keys, worldX, dt));
    if space then steered.(tags := TouchedTags(w.tags, w.gameStates.Keys),
                           gameStates := Launched(w.gameStates, w.tags, w.globalState.gameOver, w.gameStates.Keys))
    else steered
  }

  /**
   * Steering: each player with a transform ends inside the field with
   * `lastX` its new x and, when dt is positive, `velocityX` its x speed over
   * the frame; y, z and the scale are untouched, and so are the transforms
   * without a player and the players without a transform.
   */
  lemma InputSteers(w: World, worldX: real, dt: real, space: bool, e: Entity)
    requires Steerable(w.transforms, w.players)
    ensures var t := Input(w, worldX, dt, space);
      (e in w.players && e in w.transforms ==>
         var x := t.transforms[e].pos.x;
         MinX + w.transforms[e].scale.x * 0.5 <= x <= MaxX - w.transforms[e].scale.x * 0.5
         && t.players[e].lastX == x
         && (dt > 0.0 ==> t.players[e].velocityX == (x - w.transforms[e].pos.x) / dt)
         && (dt <= 0.0 ==> t.players[e].velocityX == w.players[e].velocityX))
      && (e in w.transforms ==>
            t.transforms[e].scale == w.transforms[e].scale
            && t.transforms[e].pos.y == w.transforms[e].pos.y && t.transforms[e].pos.z == w.transforms[e].pos.z)
      && (e in w.transforms && e !in w.players ==> t.transforms[e] == w.transforms[e])
      && (e in w.players && e !in w.transforms ==> t.players[e] == w.players[e])
  {
    var ts := SteeredTransforms(w.transforms, w.players, w.players.Keys, worldX, dt);
    var ps := SteeredPlayers(w.transforms, w.players, w.players.Keys, worldX, dt);
    assert Input(w, worldX, dt, space).transforms == ts && Input(w, worldX, dt, space).players == ps;
    SteeredAt(w.transforms, w.players, worldX, dt, e);
  }

  /** `InputSteers` on the two maps alone. */
  lemma SteeredAt(ts: map<Entity, Transform>, ps: map<Entity, PlayerControl>, worldX: real, dt: real, e: Entity)
    requires Steerable(ts, ps)
    ensures var ts', ps' := SteeredTransforms(ts, ps, ps.Keys, worldX, dt), SteeredPlayers(ts, ps, ps.Keys, worldX, dt);
      (e in ps && e in ts ==>
         var x := ts'[e].pos.x;
         MinX + ts[e].scale.x * 0.5 <= x <= MaxX - ts[e].scale.x * 0.5
         && ps'[e].lastX == x
         && (dt > 0.0 ==> ps'[e].velocityX == (x - ts[e].pos.x) / dt)
         && (dt <= 0.0 ==> ps'[e].velocityX == ps[e].velocityX))
  {
    var ts' := SteeredTransforms(ts, ps, ps.Keys, worldX, dt);
    var ps' := SteeredPlayers(ts, ps, ps.Keys, worldX, dt);
    if e in ts && e in ps {
      var t0 := ts[e];
      assert ts'[e] == t0.(pos := t0.pos.(x := SteerX(t0, worldX, dt)));
      assert ps'[e] == SteerControl(t0, ps[e], worldX, dt);
    }
  }

  /** Input touches only the transforms, the player components, the tags and the game states. */
  lemma InputKeeps(w: World, worldX: real, dt: real, space: bool)
    requires Steerable(w.transforms, w.players)
    ensures var t := Input(w, worldX, dt, space);
      t.transforms.Keys == w.transforms.Keys && t.players.Keys == w.players.Keys
      && t.entities == w.entities && t.nextId == w.nextId && t.rigidbodies == w.rigidbodies
      && t.colliders == w.colliders && t.renderables == w.renderables && t.globalState == w.globalState
      && (!space ==> t.tags == w.tags && t.gameStates == w.gameStates)
  {
  }

  /**
   * The launch rule: afterwards a game state says launched exactly when it
   * did before or Space was down, the entity is tagged a ball and the game
   * is not over. Tags only gain `None` entries, so no entity's tag changes.
   */
  lemma LaunchRule(w: World, worldX: real, dt: real, space: bool, e: Entity)
    requires Steerable(w.transforms, w.players)
    ensures var t := Input(w, worldX, dt, space);
      t.gameStates.Keys == w.gameStates.Keys && TagOf(t.tags, e) == TagOf(w.tags, e)
      && Bricks(t.tags) == Bricks(w.tags)
      && (e in t.tags ==> e in w.tags || e in w.gameStates)
      && (e in w.gameStates ==>
            (t.gameStates[e].launched <==>
               w.gameStates[e].launched || (space && TagOf(w.tags, e) == BallTag && !w.globalState.gameOver)))
  {
  }

  /** Steering one more player: its transform's x and its component change, nothing else. */
  lemma SteerStep(ts: map<Entity, Transform>, ps: map<Entity, PlayerControl>, done: set<Entity>,
                  worldX: real, dt: real, e: Entity)
    requires Steerable(ts, ps) && e in ps && e !in done
    ensures e in ts ==> SteeredTransforms(ts, ps, done, worldX, dt)[e] == ts[e]
    ensures SteeredPlayers(ts, ps, done, worldX, dt)[e] == ps[e]
    ensures e in ts ==>
      SteeredTransforms(ts, ps, done + {e}, worldX, dt)
        == SteeredTransforms(ts, ps, done, worldX, dt)[e := ts[e].(pos := ts[e].pos.(x := SteerX(ts[e], worldX, dt)))]
      && SteeredPlayers(ts, ps, done + {e}, worldX, dt)
        == SteeredPlayers(ts, ps, done, worldX, dt)[e := SteerControl(ts[e], ps[e], worldX, dt)]
    ensures e !in ts ==>
      SteeredTransforms(ts, ps, done + {e}, worldX, dt) == SteeredTransforms(ts, ps, done, worldX, dt)
      && SteeredPlayers(ts, ps, done + {e}, worldX, dt) == SteeredPlayers(ts, ps, done, worldX, dt)
  {
  }

  /** Handling Space for one more game state. */
  lemma LaunchStep(gs: map<Entity, GameStateComponent>, tags: map<Entity, TagType>, gameOver: bool,
                   done: set<Entity>, e: Entity)
    requires e in gs && e !in done
    ensures TouchedTags(tags, done + {e}) == TouchedTags(tags, done)[e := TagOf(tags, e)]
    ensures Launched(gs, tags, gameOver, done + {e})
      == if TagOf(tags, e) == BallTag && !gs[e].launched && !gameOver
         then Launched(gs, tags, gameOver, done)[e := gs[e].(launched := true)]
         else Launched(gs, tags, gameOver, done)
  {
  }

  /** The body of the steering loop for one player with a transform. */
  method SteerOne(t: Transform, pc: PlayerControl, worldX: real, dt: real) returns (t': Transform, pc': PlayerControl)
    requires t.scale.x * 0.5 <= MaxX
    ensures t' == t.(pos := t.pos.(x := SteerX(t, worldX, dt)))
    ensures pc' == SteerControl(t, pc, worldX, dt)
  {
    var prevX := t.pos.x;
    var x := prevX + (worldX - prevX) * 15.0 * dt;
    EasedIs(t, prevX, worldX, dt);
    var halfW := t.scale.x * 0.5;
    x := Clamp(x, MinX + halfW, MaxX - halfW);
    t' := t.(pos := t.pos.(x := x));
    pc' := pc;
    if dt > 0.0 {
      pc' := pc'.(velocityX := (x - prevX) / dt);
    }
    pc' := pc'.(lastX := x);
  }

  /** `InputSystem::Update`, steering: the walk over `registry.players`. */
  method SteerPaddles(registry: Registry, worldX: real, dt: real, order: seq<Entity>)
    requires IsOrder(order, registry.players.Keys) && Steerable(registry.transforms, registry.players)
    modifies registry`transforms, registry`players
    ensures registry.transforms == SteeredTransforms(old(registry.transforms), old(registry.players), old(registry.players).Keys, worldX, dt)
    ensures registry.players == SteeredPlayers(old(registry.transforms), old(registry.players), old(registry.players).Keys, worldX, dt)
  {
    var ts, ps := registry.transforms, registry.players;
    ghost var ts0, ps0 := ts, ps;
    ghost var done: set<Entity> := {};
    for i := 0 to |order|
      invariant forall k :: k in done <==> k in order[..i]
      invariant ts == SteeredTransforms(ts0, ps0, done, worldX, dt)
      invariant ps == SteeredPlayers(ts0, ps0, done, worldX, dt)
    {
      var e := order[i];
      PrefixStep(order, done, i);
      SteerStep(ts0, ps0, done, worldX, dt, e);
      if e in ts {
        var t, pc := SteerOne(ts[e], ps[e], worldX, dt);
        ts, ps := ts[e := t], ps[e := pc];
      }
      done := done + {e};
    }
    WalkDone(order, ps0.Keys, done);
    registry.transforms, registry.players := ts, ps;
  }

  /** `InputSystem::Update`, Space: the walk over `registry.gameStates`. */
  method LaunchBalls(registry: Registry, order: seq<Entity>)
    requires IsOrder(order, registry.gameStates.Keys)
    modifies registry`tags, registry`gameStates
    ensures registry.tags == TouchedTags(old(registry.tags), old(registry.gameStates).Keys)
    ensures registry.gameStates == Launched(old(registry.gameStates), old(registry.tags), registry.globalState.gameOver,
                                            old(registry.gameStates).Keys)
  {
    var tg, gs := registry.tags, registry.gameStates;
    ghost var tg0, gs0 := tg, gs;
    ghost var done: set<Entity> := {};
    for i := 0 to |order|
      invariant forall k :: k in done <==> k in order[..i]
      invariant tg == TouchedTags(tg0, done)
      invariant gs == Launched(gs0, tg0, registry.globalState.gameOver, done)
    {
      var e := order[i];
      PrefixStep(order, done, i);
      LaunchStep(gs0, tg0, registry.globalState.gameOver, done, e);
      if e !in tg {
        tg := tg[e := NoTag];
      }
      if tg[e] == BallTag && !gs[e].launched && !registry.globalState.gameOver {
        gs := gs[e := gs[e].(launched := true)];
      }
      done := done + {e};
    }
    WalkDone(order, gs0.Keys, done);
    registry.tags, registry.gameStates := tg, gs;
  }

  /** `InputSystem::Update`: the registry afterwards is `Input` of the one before. */
  method InputUpdate(registry: Registry, worldX: real, dt: real, space: bool, playerOrder: seq<Entity>, stateOrder: seq<Entity>)
    requires IsOrder(playerOrder, registry.players.Keys) && IsOrder(stateOrder, registry.gameStates.Keys)
    requires Steerable(registry.transforms, registry.players)
    modifies registry`transforms, registry`players, registry`tags, registry`gameStates
    ensures registry.Snap() == Input(old(registry.Snap()), worldX, dt, space)
  {
    SteerPaddles(registry, worldX, dt, playerOrder);
    if space {
      LaunchBalls(registry, stateOrder);
    }
  }
}
