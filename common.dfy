/** Things every game object shares: the canvas size, the parts of JavaScript's
    Math object the game calls, Math.random as a stream of draws, and the two
    screen-edge policies. */
module Common {

  /** The canvas the game runs on; only its size matters to the simulation. */
  datatype Canvas = Canvas(width: nat, height: nat)

  /** A whole-pixel point, as the spawn placement produces. */
  datatype Point = Point(x: int, y: int)

  /** Math.PI. */
  const PI: real := 3.141592653589793

  /** Math.ceil on a real. */
  function Ceil(v: real): (c: int)
    ensures v <= c as real < v + 1.0
  {
    -((-v).Floor)
  }

  /** Math.cos, Math.sin and Math.sqrt, which the model does not compute. */
  datatype JsMath = JsMath(cos: real -> real, sin: real -> real, sqrt: real -> real)

  /** What the model assumes of Math.sqrt: the non-negative square root. */
  ghost predicate Lawful(m: JsMath)
  {
    forall v: real :: 0.0 <= v ==> 0.0 <= m.sqrt(v) && m.sqrt(v) * m.sqrt(v) == v
  }

  /** Squared Euclidean distance between two points. */
  function DistSq(x1: real, y1: real, x2: real, y2: real): (d: real)
    ensures 0.0 <= d
  {
    (x2 - x1) * (x2 - x1) + (y2 - y1) * (y2 - y1)
  }

  /** Game.distBetweenPoints: the Euclidean distance, through Math.sqrt. */
  function Dist(m: JsMath, x1: real, y1: real, x2: real, y2: real): (d: real)
    ensures Lawful(m) ==> 0.0 <= d && d * d == DistSq(x1, y1, x2, y2)
  {
    m.sqrt(DistSq(x1, y1, x2, y2))
  }

  /** Every "distance below a bound" test of the game can be decided on squared
      distances: for a non-negative bound, sqrt(d) < b exactly when d < b * b. */
  lemma DistBelow(m: JsMath, x1: real, y1: real, x2: real, y2: real, bound: real)
    requires Lawful(m) && 0.0 <= bound
    ensures Dist(m, x1, y1, x2, y2) < bound <==> DistSq(x1, y1, x2, y2) < bound * bound
  {
    var d := DistSq(x1, y1, x2, y2);
    var s := m.sqrt(d);
    assert 0.0 <= s && s * s == d;
    if s < bound {
      calc {
        d;
      ==
        s * s;
      <=
        s * bound;
      <
        bound * bound;
      }
    } else {
      var e := s - bound;
      assert 0.0 <= e;
      assert 0.0 <= bound * e + e * s;
      assert s * s == bound * bound + (bound * e + e * s);
    }
  }

  /** The toroidal wrap of Ship.move and Asteroid.update: a coordinate that has
      left [-r, size + r] re-enters at the opposite edge, offset by the radius. */
  function Wrap(v: real, r: real, size: real): (w: real)
    requires 0.0 <= r && 0.0 <= size
    ensures -r <= w <= size + r
    ensures -r <= v <= size + r ==> w == v
    ensures v < -r ==> w == size + r
    ensures v > size + r ==> w == -r
  {
    if v < 0.0 - r then size + r
    else if v > size + r then 0.0 - r
    else v
  }

  /** The hard edge wrap of Laser.update: no radius margin. */
  function EdgeWrap(v: real, size: real): (w: real)
    requires 0.0 <= size
    ensures 0.0 <= w <= size
    ensures 0.0 <= v <= size ==> w == v
    ensures v < 0.0 ==> w == size
    ensures v > size ==> w == 0.0
  {
    if v < 0.0 then size
    else if v > size then 0.0
    else v
  }

  /** No element occurs twice: no two entries of an object list alias. */
  ghost predicate Distinct<T>(s: seq<T>)
  {
    forall p, q :: 0 <= p < q < |s| ==> s[p] != s[q]
  }

  /** Array.push of a new element keeps a list alias-free. */
  lemma DistinctPush<T>(s: seq<T>, x: T)
    requires Distinct(s) && x !in s
    ensures Distinct(s + [x])
  {
    forall p, q | 0 <= p < q < |s| + 1
      ensures (s + [x])[p] != (s + [x])[q]
    {
      if q == |s| {
        assert s[p] in s;
      }
    }
  }

  /** Array.splice(i, 1) keeps a list alias-free and removes exactly s[i]. */
  lemma DistinctSplice<T>(s: seq<T>, i: nat)
    requires Distinct(s) && i < |s|
    ensures Distinct(s[..i] + s[i + 1..])
    ensures s[i] !in s[..i] + s[i + 1..]
  {
    var t := s[..i] + s[i + 1..];
    assert forall k :: 0 <= k < |t| ==> t[k] == if k < i then s[k] else s[k + 1];
  }

  /** Removing s[i] after appending t to s is the same as appending t to s
      with s[i] removed. */
  lemma SpliceAfterPush<T>(s: seq<T>, t: seq<T>, i: nat)
    requires i < |s|
    ensures (s + t)[..i] + (s + t)[i + 1..] == (s[..i] + s[i + 1..]) + t
  {
    assert (s + t)[..i] == s[..i];
    assert (s + t)[i + 1..] == s[i + 1..] + t;
  }

  /** Math.random: a fixed stream of draws in [0, 1), consumed one at a time. */
  class Random {
    const draws: nat -> real
    var next: nat

    ghost predicate Valid()
    {
      forall k: nat :: 0.0 <= draws(k) < 1.0
    }

    constructor (draws: nat -> real)
      requires forall k: nat :: 0.0 <= draws(k) < 1.0
      ensures Valid() && this.draws == draws && next == 0
    {
      this.draws := draws;
      next := 0;
    }

    /** One call of Math.random(). */
    method Next() returns (u: real)
      requires Valid()
      modifies this
      ensures next == old(next) + 1
      ensures u == draws(old(next))
      ensures 0.0 <= u < 1.0
    {
      u := draws(next);
      next := next + 1;
    }
  }
}
