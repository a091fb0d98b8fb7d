/** The plane the four engines search, the objective they minimise and the
    numpy primitives they share (`np.clip`, `np.argmin`, `np.argmax` and the
    list comprehension that scores a population). */
module Space {

  /** One row of a population array: a point of the plane. */
  datatype Point = Point(x: real, y: real)

  /** The `search_space` pair `[lo, hi]`, used as the same interval on both axes. */
  datatype SearchSpace = SearchSpace(lo: real, hi: real)

  predicate InBox(p: Point, space: SearchSpace)
  {
    space.lo <= p.x <= space.hi && space.lo <= p.y <= space.hi
  }

  /** The constant of the Schwefel function. */
  const SchwefelConstant: real := 418.9829

  /** The Schwefel function `418.9829 * 2 - x sin(sqrt|x|) - y sin(sqrt|y|)`.
      Real arithmetic has no sine or square root, so `wave` stands for the
      per-axis term t |-> t sin(sqrt|t|); every engine is given that map once,
      at construction. */
  function Schwefel(wave: real -> real, x: real, y: real): real
  {
    SchwefelConstant * 2.0 - wave(x) - wave(y)
  }

  /** The objective at a point. */
  function Obj(wave: real -> real, p: Point): real
  {
    Schwefel(wave, p.x, p.y)
  }

  /** The objective of every row, in row order. */
  function Scores(wave: real -> real, points: seq<Point>): seq<real>
  {
    seq(|points|, i requires 0 <= i < |points| => Obj(wave, points[i]))
  }

  /** `np.clip` of one coordinate: `minimum(maximum(v, lo), hi)`. */
  function Clip(v: real, space: SearchSpace): (r: real)
    ensures space.lo <= space.hi ==> space.lo <= r <= space.hi
    ensures space.lo <= v <= space.hi ==> r == v
    ensures r != v ==> r == space.lo || r == space.hi
    ensures space.lo <= space.hi && v < space.lo ==> r == space.lo
    ensures space.lo <= space.hi && space.hi < v ==> r == space.hi
  {
    var raised := if v < space.lo then space.lo else v;
    if raised > space.hi then space.hi else raised
  }

  /** `np.clip` of a whole row. */
  function ClipPoint(p: Point, space: SearchSpace): (r: Point)
    ensures space.lo <= space.hi ==> InBox(r, space)
    ensures InBox(p, space) ==> r == p
  {
    Point(Clip(p.x, space), Clip(p.y, space))
  }

  /** `np.argmin`: the first index of a smallest entry. */
  function ArgMin(s: seq<real>): (k: nat)
    requires |s| > 0
    ensures k < |s|
    ensures forall j :: 0 <= j < |s| ==> s[k] <= s[j]
    ensures forall j :: 0 <= j < k ==> s[k] < s[j]
    decreases |s|
  {
    if |s| == 1 then 0
    else
      var k := ArgMin(s[..|s| - 1]);
      if s[|s| - 1] < s[k] then |s| - 1 else k
  }

  /** `np.argmax`: the first index of a largest entry. */
  function ArgMax(s: seq<real>): (k: nat)
    requires |s| > 0
    ensures k < |s|
    ensures forall j :: 0 <= j < |s| ==> s[j] <= s[k]
    ensures forall j :: 0 <= j < k ==> s[j] < s[k]
    decreases |s|
  {
    if |s| == 1 then 0
    else
      var k := ArgMax(s[..|s| - 1]);
      if s[k] < s[|s| - 1] then |s| - 1 else k
  }

  /** The rows of an `np.random.uniform(lo, hi, (n, 2))` draw as a fresh array. */
  method NewRows(draws: seq<Point>) returns (rows: array<Point>)
    ensures fresh(rows)
    ensures rows[..] == draws
  {
    rows := new Point[|draws|](i requires 0 <= i < |draws| => draws[i]);
  }

  /** `np.array([schwefel_function(x, y) for x, y in points])`. */
  method Evaluate(wave: real -> real, points: array<Point>) returns (scores: array<real>)
    ensures fresh(scores)
    ensures scores.Length == points.Length
    ensures forall j :: 0 <= j < points.Length ==> scores[j] == Obj(wave, points[j])
  {
    scores := new real[points.Length];
    var i := 0;
    while i < points.Length
      invariant 0 <= i <= points.Length
      invariant forall j :: 0 <= j < i ==> scores[j] == Obj(wave, points[j])
    {
      scores[i] := Obj(wave, points[i]);
      i := i + 1;
    }
  }
}
