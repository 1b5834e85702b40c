// The candlestick chart component: the range selector, the zoom buttons and
// drag state, the data window they select, the price and volume axes'
// domains, the shape of each candle and the axis tick labels. The clock is
// an input: `age(date)` is how many days before now a date lies.

module CandlestickChart {
  import opened Common
  import opened Text

  /** One point of the chart's data; a field the data lacks is `None`. */
  datatype Bar = Bar(date: string, open: Option<real>, high: Option<real>,
                     low: Option<real>, close: Option<real>, volume: Option<real>)

  /** A number JavaScript treats as true: present and not 0. */
  predicate Truthy(x: Option<real>)
  {
    x.Some? && x.value != 0.0
  }

  // ---------------------------------------------------------------------
  // Range

  /** RANGE_OPTIONS: the days of a range; 'ALL' and unknown keys have none. */
  function RangeDays(key: string): (days: Option<nat>)
    ensures key == "ALL" ==> days.None?
    ensures days.Some? ==> days.value in {7, 30, 90, 180, 365}
  {
    if key == "1W" then Some(7)
    else if key == "1M" then Some(30)
    else if key == "3M" then Some(90)
    else if key == "6M" then Some(180)
    else if key == "1Y" then Some(365)
    else None
  }

  /** filteredData: the points no older than the range, in order; all of
      them for 'ALL'. */
  function FilteredData(data: seq<Bar>, range: string, age: string -> real): (r: seq<Bar>)
    ensures RangeDays(range).None? ==> r == data
    ensures RangeDays(range).Some? ==>
      forall b :: b in r <==> b in data && age(b.date) <= RangeDays(range).value as real
    ensures |r| <= |data|
  {
    if |data| == 0 then []
    else match RangeDays(range)
      case None => data
      case Some(days) => Filter(data, (b: Bar) => age(b.date) <= days as real)
  }

  // ---------------------------------------------------------------------
  // Zoom

  /** The largest zoom level. */
  const MaxZoom: real := 5.0

  /** handleZoomIn: one and a half times closer, at most 5. */
  function ZoomedIn(z: real): (r: real)
    ensures r <= MaxZoom && (r == MaxZoom || r == z * 1.5)
    ensures 1.0 <= z ==> 1.0 <= r
  {
    Min(z * 1.5, MaxZoom)
  }

  /** handleZoomOut: one and a half times further, at least 1. */
  function ZoomedOut(z: real): (r: real)
    ensures r >= 1.0 && (r == 1.0 || r == z / 1.5)
    ensures z <= MaxZoom ==> r <= MaxZoom
  {
    Max(z / 1.5, 1.0)
  }

  /** Zooming out undoes a zoom in that did not hit the limit. */
  lemma ZoomOutUndoesZoomIn(z: real)
    requires 1.0 <= z && z * 1.5 <= MaxZoom
    ensures ZoomedOut(ZoomedIn(z)) == z
  {
    assert z * 1.5 / 1.5 == z;
  }

  /** The number of points visible at a zoom level: ⌊n / z⌋. */
  function VisibleCount(n: nat, z: real): (v: nat)
    requires z >= 1.0
    ensures v <= n
  {
    var q := n as real / z;
    assert 0.0 <= q <= n as real by {
      assert q * z == n as real;
      assert q * (z - 1.0) >= 0.0;
    }
    q.Floor
  }

  /** The zoom window: centred, starting at 0 or later and exactly
      `VisibleCount(n, z)` long. */
  function Window(n: nat, z: real): (w: (nat, nat))
    requires z >= 1.0
    ensures w.0 <= w.1 <= n
    ensures w.1 - w.0 == VisibleCount(n, z)
  {
    var visible := VisibleCount(n, z);
    var start := MaxInt(0, n / 2 - visible / 2);
    (start, MinInt(n, start + visible))
  }

  /** At zoom 1 the window is the whole data. */
  lemma WindowAtOne(n: nat)
    ensures Window(n, 1.0) == (0, n)
  {
    assert (n as real / 1.0).Floor == n;
  }

  /** zoomedData: the filtered data at zoom 1, otherwise the window's
      contiguous slice. */
  function ZoomedData(filtered: seq<Bar>, z: real): (r: seq<Bar>)
    requires z >= 1.0
    ensures |r| == VisibleCount(|filtered|, z)
    ensures r == filtered[Window(|filtered|, z).0..Window(|filtered|, z).1]
  {
    WindowAtOne(|filtered|);
    if z == 1.0 then filtered
    else
      var w := Window(|filtered|, z);
      filtered[w.0..w.1]
  }

  // ---------------------------------------------------------------------
  // Domains

  /** The truthy values of a field, in order. */
  function TruthyValues(xs: seq<Option<real>>): (r: seq<real>)
    ensures forall v :: v in r <==> Some(v) in xs && v != 0.0
  {
    if |xs| == 0 then []
    else
      var rest := TruthyValues(xs[1..]);
      assert forall x :: x in xs <==> x == xs[0] || x in xs[1..] by {
        assert xs == [xs[0]] + xs[1..];
      }
      if Truthy(xs[0]) then [xs[0].value] + rest else rest
  }

  function Highs(bars: seq<Bar>): seq<Option<real>>
  {
    seq(|bars|, i requires 0 <= i < |bars| => bars[i].high)
  }

  function Lows(bars: seq<Bar>): seq<Option<real>>
  {
    seq(|bars|, i requires 0 <= i < |bars| => bars[i].low)
  }

  function Volumes(bars: seq<Bar>): seq<Option<real>>
  {
    seq(|bars|, i requires 0 <= i < |bars| => bars[i].volume)
  }

  /** A tenth of a span, the padding above and below the prices. */
  function Padding(lo: real, hi: real): (p: real)
    ensures lo <= hi ==> p >= 0.0
  {
    (hi - lo) * 0.1
  }

  /** priceDomain: [0, 100] without truthy highs or lows; otherwise the
      lowest low to the highest high, widened by a tenth of that span on
      both sides. */
  function PriceDomain(bars: seq<Bar>): (d: (real, real))
    ensures |TruthyValues(Highs(bars))| == 0 || |TruthyValues(Lows(bars))| == 0 ==> d == (0.0, 100.0)
    ensures |TruthyValues(Highs(bars))| > 0 && |TruthyValues(Lows(bars))| > 0 ==>
      var lo := Smallest(TruthyValues(Lows(bars)));
      var hi := Largest(TruthyValues(Highs(bars)));
      lo <= hi ==> d.0 <= lo && hi <= d.1
  {
    var highs := TruthyValues(Highs(bars));
    var lows := TruthyValues(Lows(bars));
    if |bars| == 0 || |highs| == 0 || |lows| == 0 then (0.0, 100.0)
    else
      var lo := Smallest(lows);
      var hi := Largest(highs);
      var padding := Padding(lo, hi);
      (lo - padding, hi + padding)
  }

  /** For candles with positive, ordered lows and highs, every low and
      every high lies inside the price domain. */
  lemma PricesInsideDomain(bars: seq<Bar>)
    requires |bars| > 0
    requires forall i :: 0 <= i < |bars| ==>
      bars[i].low.Some? && bars[i].high.Some? && 0.0 < bars[i].low.value <= bars[i].high.value
    ensures forall i :: 0 <= i < |bars| ==>
      PriceDomain(bars).0 <= bars[i].low.value && bars[i].high.value <= PriceDomain(bars).1
  {
    var lows := TruthyValues(Lows(bars));
    var highs := TruthyValues(Highs(bars));
    assert Lows(bars)[0] == bars[0].low && Highs(bars)[0] == bars[0].high;
    assert bars[0].low.value in lows && bars[0].high.value in highs;
    var lo := Smallest(lows);
    var hi := Largest(highs);
    assert lo <= bars[0].low.value <= bars[0].high.value <= hi;
    forall i | 0 <= i < |bars|
      ensures PriceDomain(bars).0 <= bars[i].low.value && bars[i].high.value <= PriceDomain(bars).1
    {
      assert Lows(bars)[i] == bars[i].low && Highs(bars)[i] == bars[i].high;
      assert bars[i].low.value in lows && bars[i].high.value in highs;
    }
  }

  /** volumeDomain: [0, 1000] without truthy volumes, otherwise from 0 to a
      tenth above the largest volume. */
  function VolumeDomain(bars: seq<Bar>): (d: (real, real))
    ensures d.0 == 0.0
    ensures |TruthyValues(Volumes(bars))| == 0 ==> d.1 == 1000.0
    ensures forall i :: 0 <= i < |bars| && Truthy(bars[i].volume) && bars[i].volume.value > 0.0 ==>
      bars[i].volume.value <= d.1
  {
    var volumes := TruthyValues(Volumes(bars));
    assert forall i :: 0 <= i < |bars| && Truthy(bars[i].volume) ==> bars[i].volume.value in volumes by {
      forall i | 0 <= i < |bars| && Truthy(bars[i].volume) ensures bars[i].volume.value in volumes {
        assert Volumes(bars)[i] == bars[i].volume;
      }
    }
    if |bars| == 0 || |volumes| == 0 then (0.0, 1000.0)
    else (0.0, Stretch(Largest(volumes)))
  }

  /** A tenth more, for a positive value. */
  function Stretch(v: real): (r: real)
    ensures v > 0.0 ==> r > v
    ensures v <= 0.0 ==> r <= v
  {
    v * 1.1
  }

  // ---------------------------------------------------------------------
  // Candles

  /** What a candle draws. */
  datatype CandleShape = CandleShape(
    isUp: bool, bodyHeight: real, candleWidth: real, centerX: real,
    bodyY: real, rectHeight: real)

  /** `a * k`. */
  function Scaled(a: real, k: real): real
  {
    a * k
  }

  /** The Candlestick shape: nothing unless open, close, high and low are all
      truthy; otherwise green when the close is at least the open, a body
      at least 1 high, a width at least 4 and a rectangle at least 2 high. */
  function CandleShapeOf(x: real, y: real, width: real, height: real, bar: Bar): (c: Option<CandleShape>)
    ensures c.None? <==> !(Truthy(bar.open) && Truthy(bar.close) && Truthy(bar.high) && Truthy(bar.low))
    ensures c.Some? ==> (c.value.isUp <==> bar.close.value >= bar.open.value)
    ensures c.Some? ==> c.value.bodyHeight >= 1.0 && c.value.bodyHeight >= Abs(bar.close.value - bar.open.value)
    ensures c.Some? ==> c.value.candleWidth >= 4.0 && c.value.rectHeight >= 2.0
  {
    if !(Truthy(bar.open) && Truthy(bar.close) && Truthy(bar.high) && Truthy(bar.low)) then None
    else
      var open := bar.open.value;
      var close := bar.close.value;
      var high := bar.high.value;
      var low := bar.low.value;
      var yScale := height / (if high - low != 0.0 then high - low else 1.0);
      var bodyY := y + Scaled(high - Max(open, close), yScale);
      var bodyBottom := y + Scaled(high - Min(open, close), yScale);
      Some(CandleShape(
        close >= open,
        Max(Abs(close - open), 1.0),
        Max(Scaled(width, 0.6), 4.0),
        x + width / 2.0,
        bodyY,
        Max(bodyBottom - bodyY, 2.0)))
  }

  // ---------------------------------------------------------------------
  // Tick labels

  /** The date axis label: "MM/DD" from "YYYY-MM-DD", the value itself
      when it has no dash. */
  function DateTick(value: string): (tick: string)
  {
    var parts := Split(value, '-');
    if |parts| >= 2 then parts[1] + "/" + (if |parts| > 2 then parts[2] else "") else value
  }

  /** An ISO date is labelled month/day, and a value without dashes is left
      alone. */
  lemma DateTickOfIsoDate(y: string, m: string, d: string)
    requires forall j :: 0 <= j < |y| ==> y[j] != '-'
    requires forall j :: 0 <= j < |m| ==> m[j] != '-'
    requires forall j :: 0 <= j < |d| ==> d[j] != '-'
    ensures DateTick(y + "-" + m + "-" + d) == m + "/" + d
  {
    var parts := [y, m, d];
    assert Join(parts, "-") == y + "-" + m + "-" + d by {
      assert Join(parts[1..], "-") == m + "-" + Join(parts[2..], "-");
    }
    SplitJoin(parts, '-');
  }

  lemma DateTickWithoutDash(value: string)
    requires forall j :: 0 <= j < |value| ==> value[j] != '-'
    ensures DateTick(value) == value
  {
    SplitNoSep(value, '-');
  }

  /** The unit of a volume axis label. */
  datatype VolumeUnit = Millions | Thousands | Units

  /** The volume axis label: millions from 1 000 000, thousands from 1 000,
      the value itself below; the number shown times the unit is the
      volume. */
  function VolumeTick(v: real): (t: (real, VolumeUnit))
    ensures t.1 == Millions <==> v >= 1000000.0
    ensures t.1 == Thousands <==> 1000.0 <= v < 1000000.0
    ensures t.1 == Units <==> v < 1000.0
    ensures t.1 == Millions ==> t.0 * 1000000.0 == v
    ensures t.1 == Thousands ==> t.0 * 1000.0 == v
    ensures t.1 == Units ==> t.0 == v
  {
    if v >= 1000000.0 then (v / 1000000.0, Millions)
    else if v >= 1000.0 then (v / 1000.0, Thousands)
    else (v, Units)
  }

  // ---------------------------------------------------------------------
  // State

  /** The chart's state: the selected range, the zoom level and the drag
      selection. */
  class ChartView {
    var selectedRange: string
    var zoomLevel: real
    var refAreaLeft: Option<string>
    var refAreaRight: Option<string>
    var isDragging: bool

    constructor()
      ensures selectedRange == "1M" && zoomLevel == 1.0
      ensures refAreaLeft.None? && refAreaRight.None? && !isDragging
      ensures Valid()
    {
      selectedRange := "1M";
      zoomLevel := 1.0;
      refAreaLeft := None;
      refAreaRight := None;
      isDragging := false;
    }

    /** The zoom level stays between 1 and 5. */
    predicate Valid()
      reads this
    {
      1.0 <= zoomLevel <= MaxZoom
    }

    /** The zoom-out button is disabled at zoom 1 and below. */
    predicate ZoomOutDisabled()
      reads this
    {
      zoomLevel <= 1.0
    }

    /** The points on screen. */
    function Shown(data: seq<Bar>, age: string -> real): (r: seq<Bar>)
      requires Valid()
      reads this
      ensures |r| <= |data|
      ensures zoomLevel == 1.0 ==> r == FilteredData(data, selectedRange, age)
    {
      WindowAtOne(|FilteredData(data, selectedRange, age)|);
      ZoomedData(FilteredData(data, selectedRange, age), zoomLevel)
    }

    /** handleRangeChange: the range is selected, the zoom reset, and the
        callback, when there is one, told the key. */
    method HandleRangeChange(key: string, hasCallback: bool) returns (notified: Option<string>)
      modifies this`selectedRange, this`zoomLevel
      ensures selectedRange == key && zoomLevel == 1.0 && Valid()
      ensures notified == (if hasCallback then Some(key) else None)
    {
      selectedRange := key;
      zoomLevel := 1.0;
      notified := if hasCallback then Some(key) else None;
    }

    method HandleZoomIn()
      requires Valid()
      modifies this`zoomLevel
      ensures zoomLevel == ZoomedIn(old(zoomLevel)) && Valid()
    {
      zoomLevel := ZoomedIn(zoomLevel);
    }

    method HandleZoomOut()
      requires Valid()
      modifies this`zoomLevel
      ensures zoomLevel == ZoomedOut(old(zoomLevel)) && Valid()
    {
      zoomLevel := ZoomedOut(zoomLevel);
    }

    /** handleMouseDown: a press on a labelled point starts a drag there. */
    method HandleMouseDown(point: Option<string>)
      modifies this`refAreaLeft, this`isDragging
      ensures point.Some? && point.value != "" ==> refAreaLeft == point && isDragging
      ensures !(point.Some? && point.value != "") ==> refAreaLeft == old(refAreaLeft) && isDragging == old(isDragging)
    {
      if point.Some? && point.value != "" {
        refAreaLeft := point;
        isDragging := true;
      }
    }

    /** handleMouseMove: while dragging, a labelled point becomes the other
        end. */
    method HandleMouseMove(point: Option<string>)
      modifies this`refAreaRight
      ensures isDragging && point.Some? && point.value != "" ==> refAreaRight == point
      ensures !(isDragging && point.Some? && point.value != "") ==> refAreaRight == old(refAreaRight)
    {
      if isDragging && point.Some? && point.value != "" {
        refAreaRight := point;
      }
    }

    /** handleMouseUp: the selection is cleared; the zoom is left as it was. */
    method HandleMouseUp()
      modifies this`refAreaLeft, this`refAreaRight, this`isDragging
      ensures refAreaLeft.None? && refAreaRight.None? && !isDragging
    {
      refAreaLeft := None;
      refAreaRight := None;
      isDragging := false;
    }
  }
}
