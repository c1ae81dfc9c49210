/**
 * A NISTMonte detector that collects counts in a number of equal channels
 * between two limits, and writes them as a two-column table of channel
 * midpoints and counts.
 */
module ChannelDetector {
  import opened Wrappers

  /** `Math.min` and `Math.max` on doubles (NaN aside). */
  function MathMin(a: real, b: real): real
  {
    if a <= b then a else b
  }

  function MathMax(a: real, b: real): real
  {
    if a >= b then a else b
  }

  /**
   * A histogram of `|counts|` equal bins from `lo` to `hi`; bin i spans
   * [MinValue(i), MaxValue(i)].
   */
  datatype Histogram = Histogram(lo: real, hi: real, counts: seq<int>)
  {
    predicate Valid()
    {
      |counts| > 0
    }

    function BinCount(): nat
    {
      |counts|
    }

    function BinWidth(): real
      requires Valid()
    {
      (hi - lo) / (|counts| as real)
    }

    function MinValue(i: nat): real
      requires Valid()
    {
      lo + (i as real) * BinWidth()
    }

    function MaxValue(i: nat): real
      requires Valid()
    {
      lo + ((i + 1) as real) * BinWidth()
    }
  }

  /** The bounds as the constructor computes them: `min` is overwritten before `max` is computed. */
  function BoundsAsWritten(min: real, max: real): (real, real)
  {
    var min' := MathMin(min, max);
    var max' := MathMax(min', max);
    (min', max')
  }

  /** With the limits given in order they are kept; given in reverse, both become the original max. */
  lemma BoundsAsWrittenCollapse(min: real, max: real)
    ensures min <= max ==> BoundsAsWritten(min, max) == (min, max)
    ensures min > max ==> BoundsAsWritten(min, max) == (max, max)
    ensures BoundsAsWritten(2.0, 1.0) == (1.0, 1.0)
  {
  }

  /** The bounds ordered, as the constructor evidently intends. */
  function Bounds(min: real, max: real): (r: (real, real))
    ensures r.0 <= r.1
    ensures r == (min, max) || r == (max, min)
  {
    (MathMin(min, max), MathMax(min, max))
  }

  /** The ordered bounds agree with the code exactly when the limits were given in order. */
  lemma BoundsAgree(min: real, max: real)
    ensures BoundsAsWritten(min, max) == Bounds(min, max) <==> min <= max
  {
  }

  datatype Detector = Detector(histogram: Histogram)
  {
    predicate Valid()
    {
      histogram.Valid()
    }

    /** `getMinimumLimit`: the lower bound of the first channel. */
    function MinimumLimit(): real
      requires Valid()
    {
      histogram.MinValue(0)
    }

    /** `getMaximumLimit`: the upper bound of the last channel. */
    function MaximumLimit(): real
      requires Valid()
    {
      histogram.MaxValue(histogram.BinCount() - 1)
    }

    /** `getChannelWidth`: the width of the first channel. */
    function ChannelWidth(): real
      requires Valid()
    {
      histogram.MaxValue(0) - histogram.MinValue(0)
    }

    /** `getChannels`. */
    function Channels(): nat
    {
      histogram.BinCount()
    }
  }

  /**
   * The constructor: IllegalArgumentException unless there is at least one
   * channel; otherwise an empty histogram between the ordered limits.
   */
  function NewDetector(min: real, max: real, channels: int): (r: Result<Detector>)
    ensures r.Err? <==> channels <= 0
    ensures r.Err? ==> r.error == IllegalArgumentException
    ensures r.Ok? ==> r.value.Valid() && r.value.Channels() == channels
    ensures r.Ok? ==> forall i :: 0 <= i < channels ==> r.value.histogram.counts[i] == 0
    ensures r.Ok? ==> (r.value.histogram.lo, r.value.histogram.hi) == Bounds(min, max)
  {
    if channels <= 0 then Err(IllegalArgumentException)
    else
      var (lo, hi) := Bounds(min, max);
      Ok(Detector(Histogram(lo, hi, seq(channels, _ => 0))))
  }

  /**
   * The limits span the histogram; the channel width is the span divided by
   * the number of channels.
   */
  lemma LimitsAndWidth(d: Detector)
    requires d.Valid()
    ensures d.MinimumLimit() == d.histogram.lo
    ensures d.MaximumLimit() == d.histogram.hi
    ensures d.ChannelWidth() * (d.Channels() as real) == d.histogram.hi - d.histogram.lo
  {
    var n := d.histogram.BinCount() as real;
    assert d.MaximumLimit() == d.histogram.lo + n * ((d.histogram.hi - d.histogram.lo) / n);
  }

  /** A detector built from limits in either order spans from the smaller to the larger one. */
  lemma NewDetectorSpans(min: real, max: real, channels: int)
    requires channels > 0
    ensures var d := NewDetector(min, max, channels).value;
      d.MinimumLimit() == MathMin(min, max) && d.MaximumLimit() == MathMax(min, max)
      && d.MinimumLimit() <= d.MaximumLimit()
  {
    LimitsAndWidth(NewDetector(min, max, channels).value);
  }

  /** `getCountsHeader`. */
  const COUNTS_HEADER: string := "Counts"

  /** A row of the results table. */
  datatype Row = HeaderRow(bins: string, counts: string) | ValueRow(x: real, y: real)

  /** The middle of channel i. */
  function Midpoint(h: Histogram, i: nat): real
    requires h.Valid()
  {
    (h.MinValue(i) + h.MaxValue(i)) / 2.0
  }

  /**
   * `saveResults`: the header row (the bins header comes from the concrete
   * detector), then one row per channel in order with its midpoint and
   * count.
   */
  method SaveResults(d: Detector, binsHeader: string) returns (rows: seq<Row>)
    requires d.Valid()
    ensures |rows| == d.Channels() + 1
    ensures rows[0] == HeaderRow(binsHeader, COUNTS_HEADER)
    ensures forall i :: 0 <= i < d.Channels() ==>
      rows[i + 1] == ValueRow(Midpoint(d.histogram, i), d.histogram.counts[i] as real)
  {
    var h := d.histogram;
    rows := [HeaderRow(binsHeader, COUNTS_HEADER)];
    var i := 0;
    while i < h.BinCount()
      invariant 0 <= i <= h.BinCount()
      invariant |rows| == i + 1
      invariant rows[0] == HeaderRow(binsHeader, COUNTS_HEADER)
      invariant forall j :: 0 <= j < i ==> rows[j + 1] == ValueRow(Midpoint(h, j), h.counts[j] as real)
    {
      var x := (h.MinValue(i) + h.MaxValue(i)) / 2.0;
      var y := h.counts[i] as real;
      rows := rows + [ValueRow(x, y)];
      i := i + 1;
    }
  }

  /**
   * The midpoints lie inside the limits, half a channel from the channel's
   * lower bound, and strictly increase when the limits differ.
   */
  lemma MidpointsOrdered(h: Histogram, i: nat, j: nat)
    requires h.Valid() && h.lo <= h.hi && i < j < h.BinCount()
    ensures Midpoint(h, i) == h.MinValue(i) + h.BinWidth() / 2.0
    ensures h.lo <= Midpoint(h, i) <= Midpoint(h, j) <= h.hi
    ensures h.lo < h.hi ==> Midpoint(h, i) < Midpoint(h, j)
  {
    var n := |h.counts| as real;
    var w := h.BinWidth();
    assert w >= 0.0;
    MidpointIs(h, i);
    MidpointIs(h, j);
    ScaleMonotone(i as real + 0.5, j as real + 0.5, w);
    ScaleMonotone(0.0, i as real + 0.5, w);
    ScaleMonotone(j as real + 0.5, n, w);
    assert n * w == h.hi - h.lo;
    if h.lo < h.hi {
      assert w > 0.0;
      assert (i as real + 0.5) * w < (j as real + 0.5) * w;
    }
  }

  /** The middle of channel k lies k and a half widths above the lower limit. */
  lemma MidpointIs(h: Histogram, k: nat)
    requires h.Valid()
    ensures Midpoint(h, k) == h.lo + (k as real + 0.5) * h.BinWidth()
    ensures Midpoint(h, k) == h.MinValue(k) + h.BinWidth() / 2.0
  {
  }

  lemma ScaleMonotone(a: real, b: real, w: real)
    requires a <= b && w >= 0.0
    ensures a * w <= b * w
  {
  }
}
