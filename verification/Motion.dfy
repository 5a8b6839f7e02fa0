/** The physics stage over the reals: the speed limit, turning towards the heading, and the
    toroidal bounds of a workspace. */
module Motion {
  import opened Reals

  // ---- Speed ---------------------------------------------------------------

  const EPSILON: real := 0.00000011920929

  datatype Velocity = Velocity(dx: real, dy: real)

  function SpeedSquared(v: Velocity): real {
    v.dx * v.dx + v.dy * v.dy
  }

  /** `speed` is the length of `v`. */
  function Clamp(v: Velocity, speed: real, limit: real): Velocity {
    if speed > limit && speed > EPSILON then Velocity(v.dx * (limit / speed), v.dy * (limit / speed)) else v
  }

  lemma Scaled(v: Velocity, k: real)
    ensures SpeedSquared(Velocity(v.dx * k, v.dy * k)) == SpeedSquared(v) * (k * k)
  {}

  /** After the clamp the speed is at most the limit, or the smallest speed that is clamped. */
  lemma ClampBounds(v: Velocity, speed: real, limit: real)
    requires speed >= 0.0 && speed * speed == SpeedSquared(v) && limit >= 0.0
    ensures var top := if limit >= EPSILON then limit else EPSILON;
            SpeedSquared(Clamp(v, speed, limit)) <= top * top
    ensures speed <= limit ==> Clamp(v, speed, limit) == v
    ensures speed > limit && speed > EPSILON ==> SpeedSquared(Clamp(v, speed, limit)) == limit * limit
  {
    if speed > limit && speed > EPSILON {
      var k := limit / speed;
      Scaled(v, k);
      assert k * speed == limit;
      assert SpeedSquared(v) * (k * k) == (k * speed) * (k * speed);
      Squares(limit, if limit >= EPSILON then limit else EPSILON);
    } else {
      Squares(speed, if limit >= EPSILON then limit else EPSILON);
    }
  }

  /** And it points the same way. */
  lemma ClampDirection(v: Velocity, speed: real, limit: real)
    requires speed >= 0.0 && limit >= 0.0
    ensures var u := Clamp(v, speed, limit);
            && u.dx * v.dy == u.dy * v.dx
            && (v.dx >= 0.0 ==> u.dx >= 0.0) && (v.dx <= 0.0 ==> u.dx <= 0.0)
            && (v.dy >= 0.0 ==> u.dy >= 0.0) && (v.dy <= 0.0 ==> u.dy <= 0.0)
  {
    if speed > limit && speed > EPSILON {
      var k := limit / speed;
      assert k >= 0.0;
      assert (v.dx * k) * v.dy == (v.dy * k) * v.dx;
      SignKept(v.dx, k);
      SignKept(v.dy, k);
    }
  }

  lemma SignKept(x: real, k: real)
    requires k >= 0.0
    ensures (x >= 0.0 ==> x * k >= 0.0) && (x <= 0.0 ==> x * k <= 0.0)
  {
    if x >= 0.0 { Product(x, k); } else { Product(-x, k); }
  }

  lemma Squares(x: real, y: real)
    requires 0.0 <= x <= y
    ensures x * x <= y * y
  {}

  // ---- Bounds --------------------------------------------------------------

  function RemEuclid(x: real, width: real): real
    requires width > 0.0
  {
    x - (x / width).Floor as real * width
  }

  function WrapAxis(x: real, lo: real, hi: real): real {
    if hi - lo > 0.0 then RemEuclid(x - lo, hi - lo) + lo else x
  }

  lemma RemBounds(x: real, width: real)
    requires width > 0.0
    ensures 0.0 <= RemEuclid(x, width) < width
  {
    var q := x / width;
    PartOf(x, q, q.Floor as real, width);
  }

  lemma PartOf(x: real, q: real, k: real, width: real)
    requires width > 0.0 && k <= q < k + 1.0 && x == q * width
    ensures 0.0 <= x - k * width < width
  {
    var u, v := q - k, k + 1.0 - q;
    Product(u, width);
    Product(v, width);
    assert u * width == q * width - k * width;
    assert u * width + v * width == (u + v) * width == width;
    assert x - k * width == u * width;
  }

  /** A wrapped coordinate lies in [lo, hi), a whole number of widths away, and one that lies there
      already stays. */
  lemma WrapInBounds(x: real, lo: real, hi: real)
    requires lo < hi
    ensures lo <= WrapAxis(x, lo, hi) < hi
    ensures x - WrapAxis(x, lo, hi) == ((x - lo) / (hi - lo)).Floor as real * (hi - lo)
    ensures lo <= x < hi ==> WrapAxis(x, lo, hi) == x
  {
    RemBounds(x - lo, hi - lo);
    if lo <= x < hi {
      var q := (x - lo) / (hi - lo);
      assert q * (hi - lo) == x - lo;
      if q < 0.0 { Product(-q, hi - lo); }
      if q >= 1.0 { Product(q - 1.0, hi - lo); }
      assert q.Floor == 0;
    }
  }

  // ---- Turning -------------------------------------------------------------

  const PI: real := 3.1415927410125732
  const TAU: real := 2.0 * PI

  function Abs(x: real): real {
    if x >= 0.0 then x else -x
  }

  /** An angle brought to [-PI, PI] by whole turns, and how many it took. */
  function Shortest(d: real): (r: real)
    ensures -PI <= r <= PI
    decreases if -PI <= d <= PI then 0 else 1 + Abs(d).Floor
  {
    if d > PI then Shortest(d - TAU) else if d < -PI then Shortest(d + TAU) else d
  }

  ghost function Turns(d: real): int
    decreases if -PI <= d <= PI then 0 else 1 + Abs(d).Floor
  {
    if d > PI then Turns(d - TAU) - 1 else if d < -PI then Turns(d + TAU) + 1 else 0
  }

  lemma {:induction false} ShortestCongruent(d: real)
    ensures Shortest(d) == d + Turns(d) as real * TAU
    decreases if -PI <= d <= PI then 0 else 1 + Abs(d).Floor
  {
    if d > PI {
      ShortestCongruent(d - TAU);
      assert (Turns(d - TAU) - 1) as real * TAU == Turns(d - TAU) as real * TAU - TAU;
    } else if d < -PI {
      ShortestCongruent(d + TAU);
      assert (Turns(d + TAU) + 1) as real * TAU == Turns(d + TAU) as real * TAU + TAU;
    }
  }

  /** An angle strictly inside the range is the shortest of all that differ from it by whole turns. */
  lemma ShortestUnique(d: real, r: real, k: int)
    requires r == d + k as real * TAU && -PI < r < PI
    ensures Shortest(d) == r
  {
    ShortestCongruent(d);
    var j := Turns(d) - k;
    assert Shortest(d) - r == j as real * TAU by {
      assert Turns(d) as real * TAU - k as real * TAU == j as real * TAU;
    }
    assert j >= 1 ==> j as real * TAU >= TAU;
    assert j <= -1 ==> j as real * TAU <= -TAU;
  }

  /** One turn towards the target, by at most `most`. */
  function Turn(current: real, target: real, most: real): real {
    var delta := Shortest(target - current);
    if Abs(delta) < most then target else if delta >= 0.0 then current + most else current - most
  }

  function Remaining(current: real, target: real): real {
    Abs(Shortest(target - current))
  }

  /** Every turn cuts the remaining angle by exactly `most`, until one reaches the target. */
  lemma TurnCuts(current: real, target: real, most: real)
    requires most > 0.0
    ensures Remaining(current, target) < most ==> Turn(current, target, most) == target
    ensures Remaining(current, target) >= most ==>
      Remaining(Turn(current, target, most), target) == Remaining(current, target) - most
  {
    var d := target - current;
    var delta := Shortest(d);
    if Abs(delta) >= most {
      ShortestCongruent(d);
      var next := Turn(current, target, most);
      var r := if delta >= 0.0 then delta - most else delta + most;
      ShortestUnique(target - next, r, Turns(d));
    }
  }

  function TurnTimes(current: real, target: real, most: real, n: nat): real
    decreases n
  {
    if n == 0 then current else TurnTimes(Turn(current, target, most), target, most, n - 1)
  }

  function Times(n: nat, x: real): real {
    n as real * x
  }

  lemma OneMoreTime(n: nat, x: real)
    requires x > 0.0
    ensures Times(0, x) == 0.0 && Times(n, x) >= 0.0 && Times(n + 1, x) == Times(n, x) + x
  {}

  /** With a fixed heading the target is reached after exactly as many turns as the remaining angle
      holds whole `most`s, and one more. */
  lemma {:induction false} TurnsReach(current: real, target: real, most: real, n: nat)
    requires most > 0.0 && Times(n, most) <= Remaining(current, target) < Times(n + 1, most)
    ensures TurnTimes(current, target, most, n + 1) == target
    ensures Remaining(TurnTimes(current, target, most, n), target) == Remaining(current, target) - Times(n, most)
    decreases n
  {
    hide Times, Remaining, Turn;
    TurnCuts(current, target, most);
    OneMoreTime(n, most);
    if n > 0 {
      OneMoreTime(n - 1, most);
      TurnsReach(Turn(current, target, most), target, most, n - 1);
    } else {
      assert TurnTimes(Turn(current, target, most), target, most, 0) == Turn(current, target, most);
    }
  }

  /** The two loops that bring the raw difference into range. */
  method ShortestDelta(target: real, current: real) returns (delta: real)
    ensures delta == Shortest(target - current)
    ensures -PI <= delta <= PI
  {
    delta := target - current;
    while delta > PI
      invariant Shortest(delta) == Shortest(target - current)
      decreases Abs(delta).Floor + if delta > PI then 1 else 0
    {
      delta := delta - TAU;
    }
    while delta < -PI
      invariant Shortest(delta) == Shortest(target - current) && delta <= PI
      decreases Abs(delta).Floor + if delta < -PI then 1 else 0
    {
      delta := delta + TAU;
    }
  }
}
