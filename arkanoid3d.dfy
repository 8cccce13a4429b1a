/**
 * What the two 3D Arkanoids (src/samples/oop_arkanoid3d.h and
 * src/samples/ecs_arkanoid3d.h) share: the `Config` constants, the
 * translate-then-scale model matrix, the ball-versus-box test, the
 * reflection and speed-up of the ball's velocity, and the brick wall
 * `resetGame` lays out. Both files define these identically.
 */
module Arkanoid3d {
  import opened Vectors

  /** `Config::World`: the play field. */
  const MinX: real := -60.0
  const MaxX: real := 60.0
  const MinY: real := -40.0
  const MaxY: real := 20.0

  /**
   * `Config::Bricks::ROWS` and `COLS`: ten rows of thirty bricks. They are
   * given through the last row and column index (9 and 29) rather than as
   * the literals 10 and 30, which would let the verifier unroll the
   * recursive wall builder over all 300 bricks.
   */
  const Rows: nat := LastRow + 1
  const Cols: nat := LastCol + 1
  const LastRow: nat := 9
  const LastCol: nat := 29

  /** `Config::Bricks::START_Y` and `SCALE`. */
  const BricksStartY: real := 2.0
  const BrickScale: Vec3 := Vec3(2.5, 1.8, 2.0)

  /** `Config::Paddle::START_POS`, `SCALE`. */
  const PaddleStart: Vec3 := Vec3(0.0, -30.0, 0.0)
  const PaddleScale: Vec3 := Vec3(10.0, 2.0, 2.0)

  /** `Config::Ball::START_POS`, `START_VEL`, `RADIUS`, `SPEEDUP_FACTOR`, `MAX_SPEED`. */
  const BallStart: Vec3 := Vec3(0.0, -25.0, 0.0)
  const BallStartVel: Vec3 := Vec3(10.0, 16.0, 0.0)
  const BallRadius: real := 1.0
  const SpeedupFactor: real := 1.15
  const MaxSpeed: real := 40.0

  /** `Config::Stats::INITIAL_LIVES`, `SCORE_PER_BRICK`. */
  const InitialLives: int := 3
  const ScorePerBrick: int := 10

  /** An RGBA colour. */
  datatype Color = Color(r: real, g: real, b: real, a: real)

  /** `Transform` / `TransformComponent`: position and scale. */
  datatype Transform = Transform(pos: Vec3, scale: Vec3)

  /**
   * A model matrix `glm::scale(glm::translate(mat4(1), t), s)`, kept
   * symbolic: scale on the diagonal, the translation in column 3.
   */
  datatype Mat4 = TranslateScale(translation: Vec3, scale: Vec3)

  /** `getMatrix()`: translate by the position, then scale. */
  function GetMatrix(t: Transform): (m: Mat4)
    ensures m.translation == t.pos && m.scale == t.scale
  {
    TranslateScale(t.pos, t.scale)
  }

  /**
   * `checkAABB`: the ball (a square of half-side r around its centre) and
   * the box (half its x and y scale around its position) overlap strictly
   * in x and in y; z is not looked at.
   */
  predicate CheckAABB(bPos: Vec3, bScale: Vec3, spherePos: Vec3, r: real): (overlap: bool)
    ensures overlap ==> r + bScale.x * 0.5 > 0.0 && r + bScale.y * 0.5 > 0.0
  {
    var halfW := bScale.x * 0.5;
    var halfH := bScale.y * 0.5;
    spherePos.x + r > bPos.x - halfW && spherePos.x - r < bPos.x + halfW
    && spherePos.y + r > bPos.y - halfH && spherePos.y - r < bPos.y + halfH
  }

  /** The test as distances: the centres are closer than r plus the half-size on both axes. */
  lemma CheckAABBByDistance(bPos: Vec3, bScale: Vec3, spherePos: Vec3, r: real)
    ensures CheckAABB(bPos, bScale, spherePos, r) <==>
      Abs(spherePos.x - bPos.x) < r + bScale.x * 0.5 && Abs(spherePos.y - bPos.y) < r + bScale.y * 0.5
  {
  }

  function Abs(v: real): (a: real)
    ensures a >= 0.0 && (a == v || a == -v)
  {
    if v < 0.0 then -v else v
  }

  /** `reflectVector`: `v - 2 (v . n) n`. */
  function Reflect(v: Vec3, n: Vec3): (w: Vec3)
    ensures Dot(w, n) == Dot(v, n) * (1.0 - 2.0 * Dot(n, n))
  {
    Sub(v, Scale(2.0 * Dot(v, n), n))
  }

  /** Reflecting in a unit normal negates the normal component of the velocity and keeps the rest. */
  lemma ReflectUnit(v: Vec3, n: Vec3)
    requires Dot(n, n) == 1.0
    ensures Dot(Reflect(v, n), n) == -Dot(v, n)
    ensures Sub(Reflect(v, n), Scale(Dot(Reflect(v, n), n), n)) == Sub(v, Scale(Dot(v, n), n))
  {
    var d := Dot(v, n);
    var r := Reflect(v, n);
    calc {
      Dot(r, n);
      (v.x - 2.0 * d * n.x) * n.x + (v.y - 2.0 * d * n.y) * n.y + (v.z - 2.0 * d * n.z) * n.z;
      d - 2.0 * d * (n.x * n.x + n.y * n.y + n.z * n.z);
      d - 2.0 * d * 1.0;
    }
  }

  /** The axis normals the games use flip exactly one component. */
  lemma ReflectAxes(v: Vec3)
    ensures Reflect(v, Vec3(0.0, 1.0, 0.0)) == Vec3(v.x, -v.y, v.z)
    ensures Reflect(v, Vec3(0.0, -1.0, 0.0)) == Vec3(v.x, -v.y, v.z)
    ensures Reflect(v, Vec3(1.0, 0.0, 0.0)) == Vec3(-v.x, v.y, v.z)
    ensures Reflect(v, Vec3(-1.0, 0.0, 0.0)) == Vec3(-v.x, v.y, v.z)
  {
  }

  /**
   * `applySpeedup` (and its copy in `updatePhysics`): multiply by 1.15, and
   * when the length then exceeds 40 (its square exceeds 1600) replace the
   * vector by `normalize(v) * MAX_SPEED`, which `capped` supplies.
   */
  function Speedup(v: Vec3, capped: Vec3 -> Vec3): (w: Vec3)
    ensures var f := Scale(SpeedupFactor, v);
      if Dot(f, f) > MaxSpeed * MaxSpeed then w == capped(f) else w == f
  {
    var f := Scale(SpeedupFactor, v);
    if Dot(f, f) > MaxSpeed * MaxSpeed then capped(f) else f
  }

  /** When `capped` gives vectors of length 40, the speed after a speed-up never exceeds 40. */
  lemma SpeedCapped(v: Vec3, capped: Vec3 -> Vec3)
    requires var f := Scale(SpeedupFactor, v); Dot(capped(f), capped(f)) == MaxSpeed * MaxSpeed
    ensures Dot(Speedup(v, capped), Speedup(v, capped)) <= MaxSpeed * MaxSpeed
  {
  }

  /**
   * The contact normal of the brick branch: along x, pointing from the brick
   * to the ball, when the centres differ more in x than in y, else along y.
   */
  function ContactNormal(ballPos: Vec3, brickPos: Vec3): (n: Vec3)
    ensures Dot(n, n) == 1.0
  {
    var delta := Sub(ballPos, brickPos);
    if Abs(delta.x) > Abs(delta.y) then Vec3(if delta.x > 0.0 then 1.0 else -1.0, 0.0, 0.0)
    else Vec3(0.0, if delta.y > 0.0 then 1.0 else -1.0, 0.0)
  }

  /** Where the ball rests on the paddle: centred, `scale.y / 2 + radius + lift` above it. */
  function Above(paddle: Transform, radius: real, lift: real, ballPos: Vec3): (p: Vec3)
    ensures p.x == paddle.pos.x && p.z == ballPos.z
    ensures p.y - paddle.pos.y == paddle.scale.y * 0.5 + radius + lift
  {
    Vec3(paddle.pos.x, paddle.pos.y + paddle.scale.y * 0.5 + radius + lift, ballPos.z)
  }

  /**
   * The wall collision of the ball: x is held to [MIN_X, MAX_X] and y below
   * MAX_Y, each time flipping that velocity component.
   */
  function Walls(pos: Vec3, vel: Vec3): (pv: (Vec3, Vec3))
    ensures MinX <= pv.0.x <= MaxX && pv.0.y <= MaxY && pv.0.z == pos.z
    ensures MinX < pos.x < MaxX ==> pv.0.x == pos.x && pv.1.x == vel.x
    ensures pos.y < MaxY ==> pv.0.y == pos.y && pv.1.y == vel.y
    ensures !(MinX < pos.x < MaxX) ==> pv.1.x == -vel.x
    ensures pos.y >= MaxY ==> pv.1.y == -vel.y && pv.0.y == MaxY
    ensures pv.1.z == vel.z
  {
    var (p1, v1) :=
      if pos.x <= MinX then (pos.(x := MinX), vel.(x := vel.x * -1.0))
      else if pos.x >= MaxX then (pos.(x := MaxX), vel.(x := vel.x * -1.0))
      else (pos, vel);
    if p1.y >= MaxY then (p1.(y := MaxY), v1.(y := v1.y * -1.0)) else (p1, v1)
  }

  /** `totalWidth`, `spacingX = 0.2f`, and the brick size that fills the width exactly. */
  const WorldWidth: real := MaxX - MinX
  const SpacingX: real := 0.2
  const BrickWidth: real := (WorldWidth - (Cols - 1) as real * SpacingX) / Cols as real
  const BrickHeight: real := BrickScale.y
  const WallStartX: real := MinX + BrickWidth * 0.5

  /** The position of the brick in row r and column c. */
  function BrickPos(r: nat, c: nat): Vec3 {
    Vec3(WallStartX + c as real * (BrickWidth + SpacingX), BricksStartY + r as real * (BrickHeight + SpacingX), 0.0)
  }

  /** Every brick's scale. */
  const BrickSize: Vec3 := Vec3(BrickWidth, BrickHeight, BrickScale.z)

  /**
   * The wall fills the field's width: column 0 starts at MIN_X, the last
   * column ends at MAX_X, every brick lies inside, and neighbouring columns
   * are `spacingX` apart.
   */
  lemma WallSpansField(r: nat, c: nat)
    requires c < Cols
    ensures BrickPos(r, c).x - BrickWidth * 0.5 >= MinX && BrickPos(r, c).x + BrickWidth * 0.5 <= MaxX
    ensures c == 0 ==> BrickPos(r, c).x - BrickWidth * 0.5 == MinX
    ensures c == Cols - 1 ==> BrickPos(r, c).x + BrickWidth * 0.5 == MaxX
    ensures c + 1 < Cols ==> (BrickPos(r, c + 1).x - BrickWidth * 0.5) - (BrickPos(r, c).x + BrickWidth * 0.5) == SpacingX
  {
  }
}
