// The sparkline drawn next to a stock: an SVG path through the values,
// spread evenly across the width and scaled so that the smallest value sits
// on the bottom edge and the largest on the top edge, and the choice of its
// stroke colour. JavaScript's number-to-text conversion in the path is a
// parameter.

module Sparkline {
  import opened Common
  import opened Text

  /** The default props. */
  const DefaultColor: string := "primary"
  const DefaultWidth: real := 100.0
  const DefaultHeight: real := 32.0

  /** One point of the path, in SVG coordinates (y grows downwards). */
  datatype Point = Point(x: real, y: real)

  /** `max - min || 1`: the spread of the values, 1 when they are all equal. */
  function Spread(data: seq<real>): (r: real)
    requires |data| > 0
    ensures r > 0.0
    ensures Largest(data) > Smallest(data) ==> r == Largest(data) - Smallest(data)
    ensures Largest(data) == Smallest(data) ==> r == 1.0
  {
    var d := Largest(data) - Smallest(data);
    if d == 0.0 then 1.0 else d
  }

  /** A share of a length. */
  function Part(f: real, len: real): real
  {
    f * len
  }

  /** A larger share of a non-negative length is no shorter; strictly so
      for a positive length. */
  lemma PartMonotone(f: real, g: real, len: real)
    requires f <= g && len >= 0.0
    ensures Part(f, len) <= Part(g, len)
    ensures f < g && len > 0.0 ==> Part(f, len) < Part(g, len)
  {
    var d := g - f;
    assert Part(g, len) - Part(f, len) == d * len;
    if d > 0.0 && len > 0.0 {
      assert d * len > 0.0 * len;
    }
  }

  /** Dividing by a positive number keeps the order of two values. */
  lemma QuotientMonotone(a: real, b: real, r: real)
    requires a <= b && r > 0.0
    ensures a / r <= b / r
    ensures a < b ==> a / r < b / r
  {
    assert b / r - a / r == (b - a) / r;
    if a < b {
      DivPositive(b - a, r);
    } else {
      assert a == b;
    }
  }

  /** The position of a value between the smallest one and the largest one. */
  function Level(data: seq<real>, v: real): (f: real)
    requires |data| > 0
  {
    (v - Smallest(data)) / Spread(data)
  }

  /** Every value of the data lies between 0 and 1; the smallest at 0. */
  lemma LevelBounds(data: seq<real>, i: int)
    requires 0 <= i < |data|
    ensures 0.0 <= Level(data, data[i]) <= 1.0
    ensures data[i] == Smallest(data) ==> Level(data, data[i]) == 0.0
    ensures data[i] == Largest(data) && Largest(data) > Smallest(data) ==> Level(data, data[i]) == 1.0
  {
    var lo, hi, r := Smallest(data), Largest(data), Spread(data);
    assert data[i] in data;
    assert lo <= data[i] <= hi;
    UnitQuotient(data[i] - lo, r);
  }

  /** A share of a positive whole lies in [0, 1]: 0 for nothing and 1 for
      the whole. */
  lemma UnitQuotient(x: real, r: real)
    requires r > 0.0 && 0.0 <= x <= r
    ensures 0.0 <= x / r <= 1.0
    ensures x == 0.0 ==> x / r == 0.0
    ensures x == r ==> x / r == 1.0
  {
    QuotientFacts(x, r);
  }

  /** The point drawn for the value at `index`. */
  function PointAt(data: seq<real>, index: nat, width: real, height: real): (p: Point)
    requires 2 <= |data| && index < |data|
  {
    Point(Part(index as real / (|data| - 1) as real, width),
          height - Part(Level(data, data[index]), height))
  }

  /** The first index is placed on the left edge and the last one on the
      right edge. */
  lemma EdgesX(n: nat, width: real)
    requires n >= 2
    ensures Part(0 as real / (n - 1) as real, width) == 0.0
    ensures Part((n - 1) as real / (n - 1) as real, width) == width
  {
    var m := (n - 1) as real;
    assert 0 as real / m == 0.0;
    assert m / m == 1.0;
  }

  /** A level between 0 and 1 is drawn inside the height. */
  lemma InsideHeight(f: real, height: real)
    requires 0.0 <= f <= 1.0 && height >= 0.0
    ensures 0.0 <= height - Part(f, height) <= height
  {
    PartMonotone(0.0, f, height);
    PartMonotone(f, 1.0, height);
  }

  /** The facts about one point: x from 0 to the width, y inside the height,
      the smallest value on the bottom edge and the largest on the top edge. */
  lemma PointFacts(data: seq<real>, i: nat, width: real, height: real)
    requires 2 <= |data| && i < |data|
    ensures i == 0 ==> PointAt(data, i, width, height).x == 0.0
    ensures i == |data| - 1 ==> PointAt(data, i, width, height).x == width
    ensures height >= 0.0 ==> 0.0 <= PointAt(data, i, width, height).y <= height
    ensures data[i] == Smallest(data) ==> PointAt(data, i, width, height).y == height
    ensures Largest(data) > Smallest(data) && data[i] == Largest(data) ==> PointAt(data, i, width, height).y == 0.0
  {
    EdgesX(|data|, width);
    var f := Level(data, data[i]);
    LevelBounds(data, i);
    if height >= 0.0 {
      InsideHeight(f, height);
    }
    assert Part(0.0, height) == 0.0 && Part(1.0, height) == height;
  }

  /** The points of the path: one per value, the first on the left edge and
      the last on the right edge; every y inside the height, the smallest
      value on the bottom edge and the largest (when the values differ) on
      the top edge. */
  function Points(data: seq<real>, width: real, height: real): (ps: seq<Point>)
    requires |data| >= 2
    ensures |ps| == |data|
    ensures ps[0].x == 0.0 && ps[|ps| - 1].x == width
    ensures forall i :: 0 <= i < |ps| ==> ps[i] == PointAt(data, i, width, height)
    ensures height >= 0.0 ==> forall i :: 0 <= i < |ps| ==> 0.0 <= ps[i].y <= height
    ensures forall i :: 0 <= i < |ps| && data[i] == Smallest(data) ==> ps[i].y == height
    ensures Largest(data) > Smallest(data) ==>
      forall i :: 0 <= i < |ps| && data[i] == Largest(data) ==> ps[i].y == 0.0
  {
    var ps := seq(|data|, i requires 0 <= i < |data| => PointAt(data, i, width, height));
    forall i | 0 <= i < |ps|
      ensures i == 0 ==> ps[i].x == 0.0
      ensures i == |ps| - 1 ==> ps[i].x == width
      ensures height >= 0.0 ==> 0.0 <= ps[i].y <= height
      ensures data[i] == Smallest(data) ==> ps[i].y == height
      ensures Largest(data) > Smallest(data) && data[i] == Largest(data) ==> ps[i].y == 0.0
    {
      PointFacts(data, i, width, height);
    }
    ps
  }

  /** A larger value is drawn no lower than a smaller one, and strictly
      higher when the height is positive. */
  lemma HigherValueDrawnHigher(data: seq<real>, width: real, height: real, i: int, j: int)
    requires |data| >= 2 && 0 <= i < |data| && 0 <= j < |data|
    requires data[i] <= data[j] && height >= 0.0
    ensures Points(data, width, height)[j].y <= Points(data, width, height)[i].y
    ensures data[i] < data[j] && height > 0.0 ==> Points(data, width, height)[j].y < Points(data, width, height)[i].y
  {
    QuotientMonotone(data[i] - Smallest(data), data[j] - Smallest(data), Spread(data));
    PartMonotone(Level(data, data[i]), Level(data, data[j]), height);
  }

  /** A point as the path writes it, `${x},${y}`. */
  function Piece(p: Point, show: real -> string): string
  {
    show(p.x) + "," + show(p.y)
  }

  /** path: empty for missing data or fewer than two values, otherwise a
      move to the first point followed by a line to each later one. */
  function Path(data: Option<seq<real>>, width: real, height: real, show: real -> string): (d: string)
    ensures d == "" <==> data.None? || |data.value| < 2
    ensures d != "" ==> d[0] == 'M'
    ensures d != "" ==> d[1..] == Join(seq(|data.value|, i requires 0 <= i < |data.value| => Piece(Points(data.value, width, height)[i], show)), " L")
  {
    if data.None? || |data.value| < 2 then ""
    else
      var ps := Points(data.value, width, height);
      "M" + Join(seq(|ps|, i requires 0 <= i < |ps| => Piece(ps[i], show)), " L")
  }

  /** isPositive: at least two values and the last no lower than the first. */
  function IsPositive(data: Option<seq<real>>): (pos: bool)
    ensures pos ==> data.Some? && |data.value| >= 2
  {
    match data
    case None => false
    case Some(vs) => |vs| >= 2 && vs[|vs| - 1] >= vs[0]
  }

  /** With a positive height, the line is positive exactly when its last
      point is drawn no lower than its first. */
  lemma PositiveEndsHigher(data: seq<real>, width: real, height: real)
    requires |data| >= 2 && height > 0.0
    ensures IsPositive(Some(data)) <==>
      Points(data, width, height)[|data| - 1].y <= Points(data, width, height)[0].y
  {
    var n := |data|;
    if data[n - 1] >= data[0] {
      HigherValueDrawnHigher(data, width, height, 0, n - 1);
    } else {
      HigherValueDrawnHigher(data, width, height, n - 1, 0);
    }
  }

  const Green: string := "#10b981"
  const Red: string := "#ef4444"
  const Violet: string := "#8b5cf6"

  /** strokeColor: green or red by the trend for 'auto', violet for
      'primary', the colour itself otherwise. */
  function StrokeColor(color: string, data: Option<seq<real>>): (c: string)
    ensures color == "auto" ==> (c == Green <==> IsPositive(data)) && (c == Red <==> !IsPositive(data))
    ensures color == "primary" ==> c == Violet
    ensures color != "auto" && color != "primary" ==> c == color
  {
    if color == "auto" then (if IsPositive(data) then Green else Red)
    else if color == "primary" then Violet
    else color
  }
}
