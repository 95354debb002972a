/** The arithmetic of common/math_utils.hpp and `apply_move`.

What is computed rests on the four vector operations both sides share, `VectorOps`; nothing is assumed of
them, so they may round. The bounds are about `ExactOps`, the operations over the reals, where `std::sqrt` is
a parameter `root` of which only `IsRoot` is asked. */
module Motion {
  import opened Constants
  import opened Types

  ghost predicate IsRoot(root: nat -> real) {
    && root(0) == 0.0
    && (forall n: nat :: n > 0 ==> root(n) > 0.0)
    && (forall n: nat, x: int {:trigger Leg(x, n)} :: Leg(x, n) ==> Abs(x as real) <= root(n))
  }

  /** `x` can be one component of a vector whose squared length is `n`. */
  ghost predicate Leg(x: int, n: nat) {
    0 < n && x * x <= n
  }

  function Clampf(v: real, lo: real, hi: real): real {
    var least := if v < hi then v else hi;
    if lo < least then least else lo
  }

  function ClampToArena(p: Vec2): Vec2 {
    Vec2(Clampf(p.x, 0.0, ARENA_WIDTH), Clampf(p.y, 0.0, ARENA_HEIGHT))
  }

  function NormalizeDir(root: nat -> real, mx: i8, my: i8): Vec2 {
    assert mx * mx >= 0 && my * my >= 0;
    var m := root(mx * mx + my * my);
    if m > 0.0 then Vec2(mx as real / m, my as real / m) else Vec2(0.0, 0.0)
  }

  function Scaled(v: Vec2, s: real): Vec2 {
    Vec2(v.x * s, v.y * s)
  }

  function Sum(v: Vec2, w: Vec2): Vec2 {
    Vec2(v.x + w.x, v.y + w.y)
  }

  function ExactOps(root: nat -> real): VectorOps {
    VectorOps((mx: i8, my: i8) => NormalizeDir(root, mx, my), Scaled, Sum, (r: real) => r)
  }

  /** The client's `apply_move`. */
  function ApplyMove(ops: VectorOps, p: Vec2, mx: i8, my: i8, dt: real): Vec2 {
    var dir := ops.direction(mx, my);
    var vel := ops.scale(dir, PLAYER_SPEED);
    var next := ops.add(p, ops.scale(vel, ops.narrow(dt)));
    ClampToArena(next)
  }

  /** The signed byte a component stands for, if it does. */
  function ByteValue(r: real): i8 {
    if -128.0 <= r < 128.0 then r.Floor else 0
  }

  function OpsFor(step: (Vec2, i8, i8) -> Vec2): VectorOps {
    VectorOps((mx: i8, my: i8) => Vec2(mx as real, my as real), (v: Vec2, s: real) => v,
              (p: Vec2, v: Vec2) => step(p, ByteValue(v.x), ByteValue(v.y)), (r: real) => r)
  }

  /** Nothing is lost by fixing the four operations: any step at all, once clamped, is one of theirs. */
  lemma AnyStepArises(step: (Vec2, i8, i8) -> Vec2, p: Vec2, mx: i8, my: i8, dt: real)
    ensures ApplyMove(OpsFor(step), p, mx, my, dt) == ClampToArena(step(p, mx, my))
  {
    assert ByteValue(mx as real) == mx && ByteValue(my as real) == my;
  }

  function Velocity(root: nat -> real, mx: i8, my: i8): Vec2 {
    Scaled(NormalizeDir(root, mx, my), PLAYER_SPEED)
  }

  lemma ExactMove(root: nat -> real, p: Vec2, mx: i8, my: i8, dt: real)
    ensures ApplyMove(ExactOps(root), p, mx, my, dt) == ClampToArena(Sum(p, Scaled(Velocity(root, mx, my), dt)))
  {
    var ops := ExactOps(root);
    assert ops.direction(mx, my) == NormalizeDir(root, mx, my);
    assert ops.scale(NormalizeDir(root, mx, my), PLAYER_SPEED) == Velocity(root, mx, my);
    assert ops.scale(Velocity(root, mx, my), ops.narrow(dt)) == Scaled(Velocity(root, mx, my), dt);
  }

  ghost predicate InArena(p: Vec2) {
    0.0 <= p.x <= ARENA_WIDTH && 0.0 <= p.y <= ARENA_HEIGHT
  }

  function Gap(p: Vec2, q: Vec2, a: Axis): real {
    Abs(Coord(p, a) - Coord(q, a))
  }

  const CENTRE := Vec2(ARENA_WIDTH * 0.5, ARENA_HEIGHT * 0.5)

  /** `IsRoot` asks nothing contradictory: even the identity on positive numbers satisfies it. */
  lemma RootsExist()
    ensures exists root: nat -> real :: IsRoot(root)
  {
    var root := (n: nat) => n as real;
    forall n: nat, x: int | Leg(x, n) ensures Abs(x as real) <= root(n) {
      assert -x * x <= x <= x * x;
    }
    assert IsRoot(root);
  }

  lemma SquaresDivide(x: real, y: real, u: real, v: real, m: real)
    requires u * m == x && v * m == y
    ensures (u * u + v * v) * (m * m) == x * x + y * y
  {
    assert (u * m) * (u * m) == (u * u) * (m * m) && (v * m) * (v * m) == (v * v) * (m * m);
  }

  /** A nonzero direction is normalized to a vector pointing the same way, as much longer or shorter than one as the
      root is off; with an exact root it is the unit vector. */
  lemma NormalizedIsUnit(root: nat -> real, mx: i8, my: i8, n: nat)
    requires n == mx * mx + my * my > 0 && root(n) > 0.0
    ensures var d := NormalizeDir(root, mx, my);
            && d.x * root(n) == mx as real && d.y * root(n) == my as real
            && (d.x * d.x + d.y * d.y) * (root(n) * root(n)) == n as real
            && (root(n) * root(n) == n as real ==> d.x * d.x + d.y * d.y == 1.0)
  {
    QuotientTimes(mx as real, root(n));
    QuotientTimes(my as real, root(n));
    SquareAsReal(mx);
    SquareAsReal(my);
    Normalized(mx as real, my as real, mx as real / root(n), my as real / root(n), root(n), n as real);
  }

  lemma QuotientTimes(x: real, m: real)
    requires m > 0.0
    ensures x / m * m == x
  {
  }

  lemma SquareAsReal(x: int)
    ensures (x * x) as real == x as real * x as real
  {
  }

  lemma Normalized(x: real, y: real, u: real, v: real, m: real, n: real)
    requires u * m == x && v * m == y && x * x + y * y == n && n > 0.0
    ensures (u * u + v * v) * (m * m) == n
    ensures m * m == n ==> u * u + v * v == 1.0
  {
    SquaresDivide(x, y, u, v, m);
    if m * m == n { UnitFactor(u * u + v * v, m * m, n); }
  }

  lemma UnitFactor(s: real, k: real, n: real)
    requires n > 0.0 && s * k == n && k == n
    ensures s == 1.0
  {
    assert (s - 1.0) * n == 0.0;
  }

  /** Clamping puts a point at its nearest place in the arena, and leaves a point of the arena alone. */
  lemma ClampIsNearest(p: Vec2, q: Vec2, a: Axis)
    requires InArena(q)
    ensures InArena(ClampToArena(p))
    ensures Gap(ClampToArena(p), p, a) <= Gap(q, p, a)
    ensures InArena(p) ==> ClampToArena(p) == p
  {
  }

  lemma QuotientBounded(a: real, m: real)
    requires m > 0.0 && Abs(a) <= m
    ensures -1.0 <= a / m <= 1.0
  {
  }

  lemma ProductSign(a: real, b: real)
    requires a >= 0.0 && b >= 0.0
    ensures a * b >= 0.0
  {
  }

  lemma ProductBounded(v: real, bound: real, dt: real)
    requires dt >= 0.0 && Abs(v) <= bound
    ensures Abs(v * dt) <= bound * dt
  {
  }

  lemma ScaledBounded(v: Vec2, s: real, bound: real, a: Axis)
    requires s >= 0.0 && Abs(Coord(v, a)) <= bound
    ensures Abs(Coord(Scaled(v, s), a)) <= bound * s
  {
    ProductBounded(Coord(v, a), bound, s);
  }

  lemma NormalizedWithinOne(root: nat -> real, mx: i8, my: i8, a: Axis)
    requires IsRoot(root)
    ensures Abs(Coord(NormalizeDir(root, mx, my), a)) <= 1.0
  {
    assert mx * mx >= 0 && my * my >= 0;
    var n: nat := mx * mx + my * my;
    if n > 0 {
      assert Leg(mx, n) && Leg(my, n);
      QuotientBounded(mx as real, root(n));
      QuotientBounded(my as real, root(n));
    }
  }

  /** One axis of `ApplyMove`. */
  function Shift(p: real, d: real, size: real): real {
    Clampf(p + d, 0.0, size)
  }

  function Size(a: Axis): real {
    match a
    case X => ARENA_WIDTH
    case Y => ARENA_HEIGHT
  }

  /** How far a move asks to go along one axis, before the arena stops it. */
  function Stride(root: nat -> real, mx: i8, my: i8, dt: real, a: Axis): real {
    Coord(Scaled(Velocity(root, mx, my), dt), a)
  }

  lemma ShiftedPoint(p: Vec2, d: Vec2, a: Axis)
    ensures Coord(ClampToArena(Sum(p, d)), a) == Shift(Coord(p, a), Coord(d, a), Size(a))
  {
  }

  lemma MoveIsShift(root: nat -> real, p: Vec2, mx: i8, my: i8, dt: real, a: Axis)
    ensures Coord(ApplyMove(ExactOps(root), p, mx, my, dt), a)
            == Shift(Coord(p, a), Stride(root, mx, my, dt, a), Size(a))
  {
    ExactMove(root, p, mx, my, dt);
    ShiftedPoint(p, Scaled(Velocity(root, mx, my), dt), a);
  }

  lemma ShiftNonExpansive(p: real, q: real, d: real, e: real, size: real)
    ensures Abs(Shift(p, d, size) - Shift(q, e, size)) <= Abs(p - q) + Abs(d - e)
  {
  }

  /** One move asks for at most PLAYER_SPEED * dt along each axis. */
  lemma StrideBounded(root: nat -> real, mx: i8, my: i8, dt: real, a: Axis)
    requires IsRoot(root) && dt >= 0.0
    ensures Abs(Stride(root, mx, my, dt, a)) <= PLAYER_SPEED * dt
  {
    NormalizedWithinOne(root, mx, my, a);
    ScaledBounded(NormalizeDir(root, mx, my), PLAYER_SPEED, 1.0, a);
    ScaledBounded(Velocity(root, mx, my), dt, PLAYER_SPEED, a);
  }

  /** The same move never drives two positions apart: clamping is non-expansive. */
  lemma MoveNonExpansive(root: nat -> real, p: Vec2, q: Vec2, mx: i8, my: i8, dt: real, a: Axis)
    ensures Gap(ApplyMove(ExactOps(root), p, mx, my, dt), ApplyMove(ExactOps(root), q, mx, my, dt), a) <= Gap(p, q, a)
  {
    MoveIsShift(root, p, mx, my, dt, a);
    MoveIsShift(root, q, mx, my, dt, a);
    var d := Stride(root, mx, my, dt, a);
    ShiftNonExpansive(Coord(p, a), Coord(q, a), d, d, Size(a));
  }

  /** Two different moves of the same length drive two positions apart by at most twice that length. */
  lemma MoveDiverges(root: nat -> real, p: Vec2, q: Vec2, mx: i8, my: i8, nx: i8, ny: i8, dt: real, a: Axis)
    requires IsRoot(root) && dt >= 0.0
    ensures Gap(ApplyMove(ExactOps(root), p, mx, my, dt), ApplyMove(ExactOps(root), q, nx, ny, dt), a)
            <= Gap(p, q, a) + 2.0 * (PLAYER_SPEED * dt)
  {
    MoveIsShift(root, p, mx, my, dt, a);
    MoveIsShift(root, q, nx, ny, dt, a);
    StrideBounded(root, mx, my, dt, a);
    StrideBounded(root, nx, ny, dt, a);
    var d, e := Stride(root, mx, my, dt, a), Stride(root, nx, ny, dt, a);
    ShiftNonExpansive(Coord(p, a), Coord(q, a), d, e, Size(a));
  }

  /** A player inside the arena stays inside and is moved by at most PLAYER_SPEED * dt along each axis. */
  lemma MoveStepBounded(root: nat -> real, p: Vec2, mx: i8, my: i8, dt: real, a: Axis)
    requires IsRoot(root) && dt >= 0.0 && InArena(p)
    ensures InArena(ApplyMove(ExactOps(root), p, mx, my, dt))
    ensures Gap(ApplyMove(ExactOps(root), p, mx, my, dt), p, a) <= PLAYER_SPEED * dt
  {
    MoveIsShift(root, p, mx, my, dt, a);
    StrideBounded(root, mx, my, dt, a);
    ShiftNonExpansive(Coord(p, a), Coord(p, a), Stride(root, mx, my, dt, a), 0.0, Size(a));
  }

  lemma ZeroVelocity(root: nat -> real)
    requires root(0) == 0.0
    ensures Velocity(root, 0, 0) == Vec2(0.0, 0.0)
  {
    assert NormalizeDir(root, 0, 0) == Vec2(0.0, 0.0);
    ScaledZero(PLAYER_SPEED);
  }

  lemma ScaledZero(s: real)
    ensures Scaled(Vec2(0.0, 0.0), s) == Vec2(0.0, 0.0)
  {
  }

  lemma UnmovedPoint(p: Vec2)
    requires InArena(p)
    ensures ClampToArena(Sum(p, Vec2(0.0, 0.0))) == p
  {
  }

  /** No direction, no movement. */
  lemma StillMove(root: nat -> real, p: Vec2, dt: real)
    requires root(0) == 0.0 && InArena(p)
    ensures ApplyMove(ExactOps(root), p, 0, 0, dt) == p
  {
    ExactMove(root, p, 0, 0, dt);
    ZeroVelocity(root);
    ScaledZero(dt);
    UnmovedPoint(p);
  }

  lemma RightMove(root: nat -> real)
    requires IsRoot(root)
    ensures ApplyMove(ExactOps(root), CENTRE, 1, 0, DT_SECONDS) != CENTRE
  {
    PositiveQuotient(root(1));
    assert NormalizeDir(root, 1, 0).x > 0.0;
    assert Stride(root, 1, 0, DT_SECONDS, X) > 0.0;
    MoveIsShift(root, CENTRE, 1, 0, DT_SECONDS, X);
  }

  /** A player without a direction stays at `p` for a frame. */
  predicate Stays(ops: VectorOps, p: Vec2) {
    ApplyMove(ops, p, 0, 0, DT_SECONDS) == p
  }

  /** All that is asked of the operations where rounding could matter: one frame to the right from the centre is
      seen, and from neither place does a player without a direction move. */
  predicate Responsive(ops: VectorOps) {
    var stepped := ApplyMove(ops, CENTRE, 1, 0, DT_SECONDS);
    Stays(ops, CENTRE) && Stays(ops, stepped) && stepped != CENTRE
  }

  lemma ExactIsResponsive(root: nat -> real)
    requires IsRoot(root)
    ensures Responsive(ExactOps(root))
  {
    var stepped := ApplyMove(ExactOps(root), CENTRE, 1, 0, DT_SECONDS);
    StillMove(root, CENTRE, DT_SECONDS);
    StillMove(root, stepped, DT_SECONDS);
    RightMove(root);
  }

  lemma PositiveQuotient(m: real)
    requires m > 0.0
    ensures 1.0 / m > 0.0
  {
  }

  // ----- how far a move goes

  /** The strides along the axes, against the components of the direction. */
  lemma ExactStride(root: nat -> real, mx: i8, my: i8, dt: real, n: nat)
    requires n == mx * mx + my * my > 0 && root(n) > 0.0
    ensures Stride(root, mx, my, dt, X) * root(n) == mx as real * (240.0 * dt)
    ensures Stride(root, mx, my, dt, Y) * root(n) == my as real * (240.0 * dt)
  {
    NormalizedIsUnit(root, mx, my, n);
    var d := NormalizeDir(root, mx, my);
    Regrouped(d.x, 240.0, dt, root(n), mx as real);
    Regrouped(d.y, 240.0, dt, root(n), my as real);
  }

  lemma Regrouped(d: real, speed: real, dt: real, m: real, x: real)
    requires d * m == x
    ensures d * speed * dt * m == x * (speed * dt)
  {
    assert d * speed * dt * m == (d * m) * (speed * dt);
  }

  /** Inside the arena a move covers exactly 240 units a second in its direction, with an exact root; with another
      positive one, as much more or less as the root is off. */
  lemma ExactDisplacement(root: nat -> real, p: Vec2, mx: i8, my: i8, dt: real, n: nat)
    requires n == mx * mx + my * my > 0 && root(n) > 0.0
    ensures var q := ApplyMove(ExactOps(root), p, mx, my, dt);
            && (0.0 < q.x < 1280.0 ==> (q.x - p.x) * root(n) == mx as real * (240.0 * dt))
            && (0.0 < q.y < 720.0 ==> (q.y - p.y) * root(n) == my as real * (240.0 * dt))
  {
    MoveIsShift(root, p, mx, my, dt, X);
    MoveIsShift(root, p, mx, my, dt, Y);
    ExactStride(root, mx, my, dt, n);
    var q := ApplyMove(ExactOps(root), p, mx, my, dt);
    ShiftInside(p.x, Stride(root, mx, my, dt, X), 1280.0);
    ShiftInside(p.y, Stride(root, mx, my, dt, Y), 720.0);
  }

  lemma ShiftInside(p: real, d: real, size: real)
    ensures 0.0 < Shift(p, d, size) < size ==> Shift(p, d, size) - p == d
    ensures size > 0.0 && Shift(p, d, size) <= 0.0 ==> p + d <= 0.0
    ensures size > 0.0 && Shift(p, d, size) >= size ==> p + d >= size
  {
  }

  /** A move ends on the border only if it would have gone there or beyond. */
  lemma BorderReached(root: nat -> real, p: Vec2, mx: i8, my: i8, dt: real, n: nat)
    requires n == mx * mx + my * my > 0 && root(n) > 0.0
    ensures var q := ApplyMove(ExactOps(root), p, mx, my, dt);
            && (q.x <= 0.0 ==> (0.0 - p.x) * root(n) >= mx as real * (240.0 * dt))
            && (q.x >= 1280.0 ==> (1280.0 - p.x) * root(n) <= mx as real * (240.0 * dt))
            && (q.y <= 0.0 ==> (0.0 - p.y) * root(n) >= my as real * (240.0 * dt))
            && (q.y >= 720.0 ==> (720.0 - p.y) * root(n) <= my as real * (240.0 * dt))
  {
    MoveIsShift(root, p, mx, my, dt, X);
    MoveIsShift(root, p, mx, my, dt, Y);
    ExactStride(root, mx, my, dt, n);
    BorderOnAxis(p.x, Stride(root, mx, my, dt, X), 1280.0, root(n), mx as real * (240.0 * dt));
    BorderOnAxis(p.y, Stride(root, mx, my, dt, Y), 720.0, root(n), my as real * (240.0 * dt));
  }

  lemma BorderOnAxis(p: real, d: real, size: real, m: real, goal: real)
    requires m > 0.0 && size > 0.0 && d * m == goal
    ensures Shift(p, d, size) <= 0.0 ==> (0.0 - p) * m >= goal
    ensures Shift(p, d, size) >= size ==> (size - p) * m <= goal
  {
    ShiftInside(p, d, size);
    if p + d <= 0.0 { Scales(d, 0.0 - p, m); }
    if p + d >= size { Scales(size - p, d, m); }
  }

  lemma Scales(a: real, b: real, m: real)
    requires a <= b && m > 0.0
    ensures a * m <= b * m
  {
    ProductSign(b - a, m);
  }
}
