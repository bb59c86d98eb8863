/** src/domain/movement/movement-plan.ts: a straight line of equal steps, over the reals. Lengths are compared
    by their squares. */
module MovementPlan {
  import opened Basics
  import S = StateStore

  datatype Position = Position(at: S.Position, dimension: Dimension)

  datatype Limits = Limits(maxStepDistance: S.Number, maxSteps: int, stepTimeoutMs: int, arrivalTolerance: S.Number)

  datatype Vector = Vector(x: real, y: real, z: real)

  datatype Step = Step(index: nat, total: nat, target: Vector, dimension: Dimension)

  datatype Plan = Plan(origin: Vector, target: Vector, limits: Limits, steps: seq<Step>)

  datatype MovementError = InvalidPosition | InvalidLimits | PlanTooLarge

  const MAX_HORIZONTAL_COORDINATE := 30_000_000.0
  const MIN_WORLD_Y := -64.0
  const MAX_WORLD_Y := 320.0

  predicate Within(n: S.Number, low: real, high: real) { n.Finite? && low <= n.value <= high }

  predicate ValidPosition(p: S.Position) {
    && Within(p.x, -MAX_HORIZONTAL_COORDINATE, MAX_HORIZONTAL_COORDINATE)
    && Within(p.y, MIN_WORLD_Y, MAX_WORLD_Y)
    && Within(p.z, -MAX_HORIZONTAL_COORDINATE, MAX_HORIZONTAL_COORDINATE)
  }

  predicate ValidLimits(l: Limits) {
    && l.maxStepDistance.Finite? && 0.0 < l.maxStepDistance.value <= 1.0
    && 1 <= l.maxSteps <= 10_000
    && 1 <= l.stepTimeoutMs <= 30_000
    && l.arrivalTolerance.Finite? && 0.0 <= l.arrivalTolerance.value <= l.maxStepDistance.value
  }

  function VectorOf(p: S.Position): Vector
    requires ValidPosition(p)
  {
    Vector(p.x.value, p.y.value, p.z.value)
  }

  predicate InWorld(v: Vector) { ValidPosition(S.Position(S.Finite(v.x), S.Finite(v.y), S.Finite(v.z))) }

  // ---------------------------------------------------------------- vectors

  function Minus(a: Vector, b: Vector): Vector { Vector(a.x - b.x, a.y - b.y, a.z - b.z) }

  function Plus(a: Vector, b: Vector): Vector { Vector(a.x + b.x, a.y + b.y, a.z + b.z) }

  function Scaled(a: Vector, r: real): Vector { Vector(a.x * r, a.y * r, a.z * r) }

  function Dot(a: Vector, b: Vector): real { a.x * b.x + a.y * b.y + a.z * b.z }

  function Square(r: real): real { r * r }

  /** The square of a distance. */
  function Apart(a: Vector, b: Vector): real { Dot(Minus(a, b), Minus(a, b)) }

  /** The point a part of the way from one position to another. */
  function Between(a: Vector, b: Vector, r: real): Vector { Plus(a, Scaled(Minus(b, a), r)) }

  lemma SquareNonNegative(r: real)
    ensures Square(r) >= 0.0
  {
  }

  lemma SquareMonotone(a: real, b: real)
    requires 0.0 <= a <= b
    ensures Square(a) <= Square(b)
  {
    assert a * a <= a * b <= b * b;
  }

  lemma SquareStrict(a: real, b: real)
    requires a > b >= 0.0
    ensures Square(a) > Square(b)
  {
    var d, e := a - b, a + b;
    assert d * e > 0.0;
    assert a * a - b * b == d * e;
  }

  /** Squares compare as what they are squares of. */
  lemma SquareOrder(a: real, b: real)
    requires b >= 0.0 && Square(a) <= Square(b)
    ensures a <= b
  {
    if a > b { SquareStrict(a, b); }
  }

  lemma SquareOfProduct(a: real, b: real)
    ensures Square(a * b) == Square(a) * Square(b)
  {
    assert a * b * (a * b) == a * a * (b * b);
  }

  lemma CrossTerm(p: real, q: real, r: real, s: real)
    ensures Square(p) * Square(s) + Square(q) * Square(r) - 2.0 * ((p * r) * (q * s)) >= 0.0
  {
    SquareOfProduct(p, s);
    SquareOfProduct(q, r);
    var m, n := p * s, q * r;
    assert Square(m - n) == Square(m) + Square(n) - 2.0 * (m * n);
    assert m * n == (p * r) * (q * s);
    SquareNonNegative(m - n);
  }

  lemma SumsTimesSums(a: real, b: real, c: real, d: real, e: real, f: real)
    ensures (a + b + c) * (d + e + f) == a * d + a * e + a * f + b * d + b * e + b * f + c * d + c * e + c * f
  {
  }

  lemma Lagrange(a: real, b: real, c: real, d: real, e: real, f: real, m: real, n: real, o: real)
    requires m * m == a * d && n * n == b * e && o * o == c * f
    requires a * e + b * d >= 2.0 * (m * n) && a * f + c * d >= 2.0 * (m * o) && b * f + c * e >= 2.0 * (n * o)
    ensures (m + n + o) * (m + n + o) <= (a + b + c) * (d + e + f)
  {
    SumsTimesSums(a, b, c, d, e, f);
    SumsTimesSums(m, n, o, m, n, o);
  }

  lemma CauchySchwarz(a: Vector, b: Vector)
    ensures Square(Dot(a, b)) <= Dot(a, a) * Dot(b, b)
  {
    SquareOfProduct(a.x, b.x);
    SquareOfProduct(a.y, b.y);
    SquareOfProduct(a.z, b.z);
    CrossTerm(a.x, a.y, b.x, b.y);
    CrossTerm(a.x, a.z, b.x, b.z);
    CrossTerm(a.y, a.z, b.y, b.z);
    Lagrange(Square(a.x), Square(a.y), Square(a.z), Square(b.x), Square(b.y), Square(b.z),
             a.x * b.x, a.y * b.y, a.z * b.z);
  }

  /** Two vectors of lengths at most p and q add up to one of length at most p + q. */
  lemma Triangle(a: Vector, b: Vector, p: real, q: real)
    requires p >= 0.0 && q >= 0.0 && Dot(a, a) <= Square(p) && Dot(b, b) <= Square(q)
    ensures Dot(Plus(a, b), Plus(a, b)) <= Square(p + q)
  {
    CauchySchwarz(a, b);
    ProductMonotone(Dot(a, a), Square(p), Dot(b, b), Square(q));
    assert Square(p) * Square(q) == Square(p * q);
    SquareOrder(Dot(a, b), p * q);
    assert Dot(Plus(a, b), Plus(a, b)) == Dot(a, a) + 2.0 * Dot(a, b) + Dot(b, b);
    assert Square(p + q) == Square(p) + 2.0 * (p * q) + Square(q);
  }

  lemma ProductMonotone(a: real, c: real, b: real, d: real)
    requires a <= c && b <= d && b >= 0.0 && c >= 0.0
    ensures a * b <= c * d
  {
    assert a * b <= c * b <= c * d;
  }

  // ---------------------------------------------------------------- the number of steps

  /** The least number of steps from n on, up to the limit, that spans the distance: its ceiling. */
  function CountFrom(n: nat, squared: real, step: real, limit: int): Option<nat>
    decreases limit - n
  {
    if n > limit then None
    else if squared <= Square(n as real * step) then Some(n)
    else CountFrom(n + 1, squared, step, limit)
  }

  predicate Spans(n: nat, squared: real, step: real) { squared <= Square(n as real * step) }

  lemma {:induction false} CountIsLeast(n: nat, squared: real, step: real, limit: int)
    ensures var c := CountFrom(n, squared, step, limit);
            && (c.Some? ==> n <= c.value <= limit && Spans(c.value, squared, step))
            && (forall k: nat :: n <= k && (if c.Some? then k < c.value else k <= limit) ==> !Spans(k, squared, step))
    decreases limit - n
  {
    if n <= limit && !Spans(n, squared, step) {
      CountIsLeast(n + 1, squared, step, limit);
    }
  }

  /** A count exists exactly if the limit spans the distance, for more steps span more. */
  lemma CountDecides(squared: real, step: real, limit: nat)
    requires step > 0.0
    ensures var c := CountFrom(0, squared, step, limit);
            && (c.Some? <==> Spans(limit, squared, step))
            && (c.Some? ==> c.value <= limit && Spans(c.value, squared, step))
            && (c.Some? ==> forall k: nat :: k < c.value ==> !Spans(k, squared, step))
  {
    var c := CountFrom(0, squared, step, limit);
    CountIsLeast(0, squared, step, limit);
    if c.Some? {
      ProductOrder(c.value as real, limit as real, step);
      SquareMonotone(c.value as real * step, limit as real * step);
    }
  }

  // ---------------------------------------------------------------- plans

  function At(p: Plan, k: nat): Vector
    requires k <= |p.steps|
  {
    if k == 0 then p.origin else p.steps[k - 1].target
  }

  /** What every accepted plan is: short enough steps inside the world that end exactly at the target. */
  ghost predicate Sound(p: Plan, dimension: Dimension) {
    && ValidLimits(p.limits)
    && |p.steps| <= p.limits.maxSteps
    && At(p, |p.steps|) == p.target
    && (forall k :: 0 <= k < |p.steps| ==> Apart(At(p, k + 1), At(p, k)) <= Square(p.limits.maxStepDistance.value))
    && (forall k :: 0 <= k <= |p.steps| ==> InWorld(At(p, k)))
    && (forall k :: 0 <= k < |p.steps| ==>
          p.steps[k].index == k + 1 && p.steps[k].total == |p.steps| && p.steps[k].dimension == dimension)
  }

  lemma BetweenIsWithin(a: real, b: real, r: real, low: real, high: real)
    requires low <= a <= high && low <= b <= high && 0.0 <= r <= 1.0
    ensures low <= a + (b - a) * r <= high
  {
    var u := 1.0 - r;
    ProductOrder(low, a, u);
    ProductOrder(a, high, u);
    ProductOrder(low, b, r);
    ProductOrder(b, high, r);
    Mixed(low, low, r, u);
    Mixed(a, b, r, u);
    Mixed(high, high, r, u);
    Squeeze(low * u, a * u, high * u, low * r, b * r, high * r);
  }

  lemma Squeeze(l: real, a: real, h: real, m: real, b: real, i: real)
    requires l <= a <= h && m <= b <= i
    ensures l + m <= a + b <= h + i
  {
  }

  lemma Mixed(a: real, b: real, r: real, u: real)
    requires u == 1.0 - r
    ensures a * u + b * r == a + (b - a) * r
    ensures a == b ==> a * u + b * r == a
  {
  }

  lemma ProductOrder(a: real, b: real, r: real)
    requires a <= b && r >= 0.0
    ensures a * r <= b * r
  {
  }

  lemma BetweenInWorld(a: Vector, b: Vector, r: real)
    requires InWorld(a) && InWorld(b) && 0.0 <= r <= 1.0
    ensures InWorld(Between(a, b, r))
  {
    BetweenIsWithin(a.x, b.x, r, -MAX_HORIZONTAL_COORDINATE, MAX_HORIZONTAL_COORDINATE);
    BetweenIsWithin(a.y, b.y, r, MIN_WORLD_Y, MAX_WORLD_Y);
    BetweenIsWithin(a.z, b.z, r, -MAX_HORIZONTAL_COORDINATE, MAX_HORIZONTAL_COORDINATE);
  }

  lemma ScaledSquare(d: Vector, q: real)
    ensures Dot(Scaled(d, q), Scaled(d, q)) == Dot(d, d) * Square(q)
  {
    SquareOfProduct(d.x, q);
    SquareOfProduct(d.y, q);
    SquareOfProduct(d.z, q);
  }

  /** Moving on by a part of the way moves by that part of the distance. */
  lemma HopSquare(a: Vector, b: Vector, r: real, q: real)
    ensures Apart(Between(a, b, r + q), Between(a, b, r)) == Apart(b, a) * Square(q)
  {
    var d := Minus(b, a);
    assert d.x * (r + q) - d.x * r == d.x * q;
    assert d.y * (r + q) - d.y * r == d.y * q;
    assert d.z * (r + q) - d.z * r == d.z * q;
    assert Minus(Between(a, b, r + q), Between(a, b, r)) == Scaled(d, q);
    ScaledSquare(d, q);
  }

  lemma HopIsShort(a: Vector, b: Vector, n: nat, k: nat, step: real)
    requires k < n && Spans(n, Apart(b, a), step)
    ensures Apart(Between(a, b, (k + 1) as real / n as real), Between(a, b, k as real / n as real)) <= Square(step)
  {
    var q := 1.0 / n as real;
    var r := k as real / n as real;
    assert (k + 1) as real / n as real == r + q;
    HopSquare(a, b, r, q);
    SquareNonNegative(q);
    ProductMonotone(Apart(b, a), Square(n as real * step), Square(q), Square(q));
    assert n as real * q == 1.0;
    SquareOfProduct(n as real * step, q);
    assert n as real * step * q == step;
  }

  lemma EndsAtTarget(a: Vector, b: Vector)
    ensures Between(a, b, 1.0) == b
  {
  }

  lemma SquareZero(r: real)
    ensures Square(r) == 0.0 ==> r == 0.0
  {
    if r > 0.0 { SquareStrict(r, 0.0); } else if r < 0.0 { SquareStrict(-r, 0.0); }
  }

  lemma NoDistance(a: Vector, b: Vector)
    requires Apart(b, a) <= 0.0
    ensures a == b
  {
    var d := Minus(b, a);
    SquareNonNegative(d.x);
    SquareNonNegative(d.y);
    SquareNonNegative(d.z);
    assert Apart(b, a) == Square(d.x) + Square(d.y) + Square(d.z);
    SquareZero(d.x);
    SquareZero(d.y);
    SquareZero(d.z);
  }

  /** Equal parts of the way, one after the other. */
  method LayOut(a: Vector, b: Vector, count: nat, dimension: Dimension) returns (steps: seq<Step>)
    ensures |steps| == count
    ensures forall k :: 0 <= k < count ==> steps[k] == StepAt(a, b, k, count, dimension)
  {
    steps := [];
    var index := 1;
    while index <= count
      invariant 1 <= index <= count + 1 && |steps| == index - 1
      invariant forall k :: 0 <= k < |steps| ==> steps[k] == StepAt(a, b, k, count, dimension)
    {
      steps := steps + [Step(index, count, Between(a, b, index as real / count as real), dimension)];
      index := index + 1;
    }
  }

  /** Nothing is accepted but a sound plan; everything valid is accepted unless it takes more than maxSteps
      steps to span the distance; and a plan has no more steps than that takes. */
  method CreateMovementPlan(origin: Position, target: Position, limits: Limits) returns (r: Result<Plan, MovementError>)
    ensures r.Ok? <==> && ValidPosition(origin.at) && ValidPosition(target.at) && ValidLimits(limits)
                       && origin.dimension == target.dimension
                       && Spans(limits.maxSteps, Apart(VectorOf(target.at), VectorOf(origin.at)),
                                limits.maxStepDistance.value)
    ensures r.Ok? ==> && r.value.origin == VectorOf(origin.at) && r.value.target == VectorOf(target.at)
                      && r.value.limits == limits && Sound(r.value, origin.dimension)
    ensures r.Ok? ==> forall k: nat :: k < |r.value.steps| ==>
                !Spans(k, Apart(VectorOf(target.at), VectorOf(origin.at)), limits.maxStepDistance.value)
    ensures r.Err? ==> r.error == if !ValidPosition(origin.at) || !ValidPosition(target.at) then InvalidPosition
                                  else if !ValidLimits(limits) then InvalidLimits
                                  else if origin.dimension != target.dimension then InvalidPosition
                                  else PlanTooLarge
  {
    if !ValidPosition(origin.at) || !ValidPosition(target.at) { return Err(InvalidPosition); }
    if !ValidLimits(limits) { return Err(InvalidLimits); }
    if origin.dimension != target.dimension { return Err(InvalidPosition); }
    var a, b := VectorOf(origin.at), VectorOf(target.at);
    var step := limits.maxStepDistance.value;
    var counted := CountFrom(0, Apart(b, a), step, limits.maxSteps);
    CountDecides(Apart(b, a), step, limits.maxSteps);
    if counted.None? { return Err(PlanTooLarge); }
    var count := counted.value;
    var steps := LayOut(a, b, count, origin.dimension);
    var plan := Plan(a, b, limits, steps);
    StraightPlanIsSound(plan, origin.dimension);
    r := Ok(plan);
  }

  function StepAt(a: Vector, b: Vector, k: nat, count: nat, dimension: Dimension): Step
    requires k < count
  {
    Step(k + 1, count, Between(a, b, (k + 1) as real / count as real), dimension)
  }

  ghost predicate Straight(p: Plan, dimension: Dimension) {
    forall k :: 0 <= k < |p.steps| ==> p.steps[k] == StepAt(p.origin, p.target, k, |p.steps|, dimension)
  }

  lemma StraightAt(p: Plan, dimension: Dimension, k: nat)
    requires Straight(p, dimension) && k <= |p.steps| && p.steps != []
    ensures At(p, k) == Between(p.origin, p.target, k as real / |p.steps| as real)
  {
    if k > 0 { assert p.steps[k - 1] == StepAt(p.origin, p.target, k - 1, |p.steps|, dimension); }
  }

  lemma StraightHop(p: Plan, dimension: Dimension, k: nat, step: real)
    requires Straight(p, dimension) && k < |p.steps| && Spans(|p.steps|, Apart(p.target, p.origin), step)
    ensures Apart(At(p, k + 1), At(p, k)) <= Square(step)
  {
    StraightAt(p, dimension, k);
    StraightAt(p, dimension, k + 1);
    HopIsShort(p.origin, p.target, |p.steps|, k, step);
  }

  lemma StraightInWorld(p: Plan, dimension: Dimension, k: nat)
    requires Straight(p, dimension) && k <= |p.steps| && InWorld(p.origin) && InWorld(p.target)
    ensures InWorld(At(p, k))
  {
    if p.steps != [] {
      StraightAt(p, dimension, k);
      BetweenInWorld(p.origin, p.target, k as real / |p.steps| as real);
    }
  }

  lemma StraightEnds(p: Plan, dimension: Dimension, step: real)
    requires Straight(p, dimension) && Spans(|p.steps|, Apart(p.target, p.origin), step)
    ensures At(p, |p.steps|) == p.target
  {
    if p.steps == [] {
      NoDistance(p.origin, p.target);
    } else {
      StraightAt(p, dimension, |p.steps|);
      EndsAtTarget(p.origin, p.target);
    }
  }

  lemma StraightPlanIsSound(p: Plan, dimension: Dimension)
    requires ValidLimits(p.limits) && |p.steps| <= p.limits.maxSteps && InWorld(p.origin) && InWorld(p.target)
    requires Straight(p, dimension) && Spans(|p.steps|, Apart(p.target, p.origin), p.limits.maxStepDistance.value)
    ensures Sound(p, dimension)
  {
    StraightEnds(p, dimension, p.limits.maxStepDistance.value);
    forall k | 0 <= k < |p.steps| ensures Apart(At(p, k + 1), At(p, k)) <= Square(p.limits.maxStepDistance.value) {
      StraightHop(p, dimension, k, p.limits.maxStepDistance.value);
    }
    forall k | 0 <= k <= |p.steps| ensures InWorld(At(p, k)) {
      StraightInWorld(p, dimension, k);
    }
  }

  // ---------------------------------------------------------------- no shorter way

  ghost predicate Walk(path: seq<Vector>, step: real) {
    path != [] && forall i :: 0 <= i < |path| - 1 ==> Apart(path[i + 1], path[i]) <= Square(step)
  }

  lemma {:induction false} WalkReaches(path: seq<Vector>, step: real, n: nat)
    requires Walk(path, step) && step >= 0.0 && n < |path|
    ensures Apart(path[n], path[0]) <= Square(n as real * step)
  {
    if n > 0 {
      WalkReaches(path, step, n - 1);
      var a, b := Minus(path[n - 1], path[0]), Minus(path[n], path[n - 1]);
      assert Apart(path[n - 1 + 1], path[n - 1]) <= Square(step);
      Triangle(a, b, (n - 1) as real * step, step);
      assert Plus(a, b) == Minus(path[n], path[0]);
      assert (n - 1) as real * step + step == n as real * step;
    }
  }

  /** Whatever way one takes in steps no longer than allowed, it takes at least as many as the plan has. */
  lemma NoShorterWalk(p: Plan, path: seq<Vector>, step: real)
    requires Walk(path, step) && step > 0.0 && path[0] == p.origin && path[|path| - 1] == p.target
    requires forall k: nat :: k < |p.steps| ==> !Spans(k, Apart(p.target, p.origin), step)
    ensures |path| - 1 >= |p.steps|
  {
    WalkReaches(path, step, |path| - 1);
    assert Spans(|path| - 1, Apart(p.target, p.origin), step);
  }

  /** No rounding hides behind the comparison of squares: with a length for the distance, as there is one
      over the reals, the tolerance is met exactly if the length is within it. */
  lemma ToleranceBySquares(length: real, a: Vector, b: Vector, tolerance: real)
    requires length >= 0.0 && tolerance >= 0.0 && Square(length) == Apart(a, b)
    ensures Apart(a, b) <= Square(tolerance) <==> length <= tolerance
  {
    if length <= tolerance { SquareMonotone(length, tolerance); } else { SquareStrict(length, tolerance); }
  }
}
