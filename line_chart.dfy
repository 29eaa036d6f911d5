/**
 * The cumulative-XP line chart (js/graphs/xpGraph.js): the running total over the ordered
 * transactions, the time and value scales, which points become axis ticks and hover dots,
 * the polyline through every point, and the text of a hover tooltip.
 *
 * Drawing is reduced to the geometry it is built from: a rendered chart is a `Chart` value
 * holding the ticks, the path commands and the dots. A JavaScript division that yields NaN
 * or an infinity is an absent coordinate (`None`).
 */
module LineChart {
  import opened Wrappers
  import opened Transactions
  import opened JsMath

  /** One point of the processed series. */
  datatype Point = Point(date: int, amount: int, cumulativeXP: int, path: string)

  /** The processed series: point i carries transaction i and the running total up to it. */
  function Cumulative(txs: seq<Transaction>): (ps: seq<Point>)
    ensures |ps| == |txs|
  {
    if txs == [] then []
    else
      var last := txs[|txs| - 1];
      Cumulative(txs[..|txs| - 1]) + [Point(last.createdAt, last.amount, Sum(txs), last.path)]
  }

  /** Point i keeps transaction i's date, amount and path, and its running total is the sum of
      amounts 0..i; the last running total is the total of all amounts. */
  lemma {:induction false} CumulativeAt(txs: seq<Transaction>, i: nat)
    requires i < |txs|
    ensures Cumulative(txs)[i] == Point(txs[i].createdAt, txs[i].amount, Sum(txs[..i + 1]), txs[i].path)
    ensures i == |txs| - 1 ==> Cumulative(txs)[i].cumulativeXP == Sum(txs)
  {
    var n := |txs|;
    assert txs[..n] == txs;
    if i < n - 1 {
      var prefix := txs[..n - 1];
      CumulativeAt(prefix, i);
      assert prefix[..i + 1] == txs[..i + 1];
      assert prefix[i] == txs[i];
    }
  }

  /** With non-negative amounts the running total never decreases along the series. */
  lemma CumulativeMonotone(txs: seq<Transaction>, i: nat, j: nat)
    requires NonNegative(txs)
    requires i <= j < |txs|
    ensures Cumulative(txs)[i].cumulativeXP <= Cumulative(txs)[j].cumulativeXP
  {
    CumulativeAt(txs, i);
    CumulativeAt(txs, j);
    SumMonotone(txs, i + 1, j + 1);
  }

  /** With non-negative amounts the last running total, the top of the value domain, is the
      largest one. */
  lemma LastIsMaximum(txs: seq<Transaction>)
    requires NonNegative(txs)
    requires |txs| > 0
    ensures forall i :: 0 <= i < |txs| ==>
      Cumulative(txs)[i].cumulativeXP <= Cumulative(txs)[|txs| - 1].cumulativeXP
  {
    forall i | 0 <= i < |txs|
      ensures Cumulative(txs)[i].cumulativeXP <= Cumulative(txs)[|txs| - 1].cumulativeXP
    {
      CumulativeMonotone(txs, i, |txs| - 1);
    }
  }

  /** The running-total loop of `loadData`. */
  method CumulativePoints(txs: seq<Transaction>) returns (points: seq<Point>)
    ensures points == Cumulative(txs)
  {
    var cumulativeXP := 0;
    points := [];
    var i := 0;
    while i < |txs|
      invariant 0 <= i <= |txs|
      invariant cumulativeXP == Sum(txs[..i])
      invariant points == Cumulative(txs[..i])
    {
      SumStep(txs, i);
      cumulativeXP := cumulativeXP + txs[i].amount;
      assert txs[..i + 1][..i] == txs[..i];
      points := points + [Point(txs[i].createdAt, txs[i].amount, cumulativeXP, txs[i].path)];
      i := i + 1;
    }
    assert txs[..i] == txs;
  }

  /** The time scale: elapsed time since the first date as a share of the whole span, times the
      plot width. There is no guard: a zero span gives NaN, here `None`. */
  function XScale(t: int, first: int, last: int, plotWidth: real): (x: Option<real>)
    ensures x.None? <==> first == last
  {
    if last == first then None
    else Some(((t - first) as real / (last - first) as real) * plotWidth)
  }

  /** The first date maps to the left edge and the last date to the right edge. */
  lemma XScaleEndpoints(first: int, last: int, plotWidth: real)
    requires first != last
    ensures XScale(first, first, last, plotWidth) == Some(0.0)
    ensures XScale(last, first, last, plotWidth) == Some(plotWidth)
  {
    var span := (last - first) as real;
    assert span / span == 1.0;
  }

  /** Dividing by a positive number keeps an ordering. */
  lemma DivMonotone(a: real, b: real, d: real)
    requires a <= b && d > 0.0
    ensures a / d <= b / d
  {
  }

  /** Multiplying by a non-negative number keeps an ordering. */
  lemma MulMonotoneReal(a: real, b: real, c: real)
    requires a <= b && c >= 0.0
    ensures a * c <= b * c
  {
  }

  /** Scaling by `pw / span` keeps an ordering. */
  lemma ScaledMonotone(a: real, b: real, span: real, pw: real)
    requires a <= b && span > 0.0 && pw >= 0.0
    ensures (a / span) * pw <= (b / span) * pw
  {
    DivMonotone(a, b, span);
    MulMonotoneReal(a / span, b / span, pw);
  }

  /** A part of a positive span, scaled by `pw / span`, lands in [0, pw]. */
  lemma ScaledInside(a: real, span: real, pw: real)
    requires 0.0 <= a <= span && span > 0.0 && pw >= 0.0
    ensures 0.0 <= (a / span) * pw <= pw
  {
    DivMonotone(0.0, a, span);
    DivMonotone(a, span, span);
    Quotient(0.0, span, 0.0);
    Quotient(span, span, 1.0);
    MulMonotoneReal(0.0, a / span, pw);
    MulMonotoneReal(a / span, 1.0, pw);
  }

  /** On a positive span a later date never lies left of an earlier one, and a date inside the
      domain lands inside the plot. */
  lemma XScaleMonotone(t: int, u: int, first: int, last: int, plotWidth: real)
    requires first < last && plotWidth >= 0.0
    requires t <= u
    ensures XScale(t, first, last, plotWidth).value <= XScale(u, first, last, plotWidth).value
    ensures first <= t <= last ==> 0.0 <= XScale(t, first, last, plotWidth).value <= plotWidth
  {
    var span := (last - first) as real;
    ScaledMonotone((t - first) as real, (u - first) as real, span, plotWidth);
    if first <= t <= last {
      ScaledInside((t - first) as real, span, plotWidth);
    }
  }

  /** The value scale: the share of the top of the value domain, measured down from the bottom
      of the plot. A zero top gives NaN or an infinity, here `None`. */
  function YScale(v: real, max: real, plotHeight: real): (y: Option<real>)
    ensures y.None? <==> max == 0.0
  {
    if max == 0.0 then None else Some(plotHeight - (v / max) * plotHeight)
  }

  /** Zero maps to the bottom of the plot and the top of the domain to its top edge. */
  lemma YScaleEndpoints(max: real, plotHeight: real)
    requires max != 0.0
    ensures YScale(0.0, max, plotHeight) == Some(plotHeight)
    ensures YScale(max, max, plotHeight) == Some(0.0)
  {
    assert max / max == 1.0;
  }

  /** For a positive top, a larger value is drawn no lower than a smaller one. */
  lemma YScaleMonotone(v: real, w: real, max: real, plotHeight: real)
    requires max > 0.0 && plotHeight >= 0.0
    requires v <= w
    ensures YScale(w, max, plotHeight).value <= YScale(v, max, plotHeight).value
  {
    assert v / max <= w / max;
    assert (v / max) * plotHeight <= (w / max) * plotHeight;
  }

  /** Along a series with non-negative amounts and dates in ascending order, with a positive
      time span and a positive total, the line runs left to right and never descends. */
  lemma LineRises(txs: seq<Transaction>, i: nat, j: nat, plotWidth: real, plotHeight: real)
    requires NonNegative(txs)
    requires forall a, b :: 0 <= a <= b < |txs| ==> txs[a].createdAt <= txs[b].createdAt
    requires i <= j < |txs|
    requires txs[0].createdAt < txs[|txs| - 1].createdAt
    requires Sum(txs) > 0
    requires plotWidth >= 0.0 && plotHeight >= 0.0
    ensures var ps, n := Cumulative(txs), |txs|;
      && ps[0].date < ps[n - 1].date
      && ps[n - 1].cumulativeXP > 0
      && XScale(ps[i].date, ps[0].date, ps[n - 1].date, plotWidth).value
         <= XScale(ps[j].date, ps[0].date, ps[n - 1].date, plotWidth).value
      && YScale(ps[j].cumulativeXP as real, ps[n - 1].cumulativeXP as real, plotHeight).value
         <= YScale(ps[i].cumulativeXP as real, ps[n - 1].cumulativeXP as real, plotHeight).value
  {
    var ps, n := Cumulative(txs), |txs|;
    CumulativeAt(txs, 0);
    CumulativeAt(txs, i);
    CumulativeAt(txs, j);
    CumulativeAt(txs, n - 1);
    XScaleMonotone(ps[i].date, ps[j].date, ps[0].date, ps[n - 1].date, plotWidth);
    CumulativeMonotone(txs, i, j);
    YScaleMonotone(ps[i].cumulativeXP as real, ps[j].cumulativeXP as real,
                   ps[n - 1].cumulativeXP as real, plotHeight);
  }

  /** `Math.ceil(n / 6)`: the spacing, in points, between x-axis ticks. */
  function TickInterval(n: nat): (m: nat)
    ensures n > 0 ==> m >= 1 && n <= 6 * m && 6 * (m - 1) < n
  {
    (n + 5) / 6
  }

  /** Multiplying by a non-negative factor keeps an ordering. */
  lemma MulMonotone(a: int, b: int, m: int)
    ensures a <= b && m >= 0 ==> a * m <= b * m
  {
  }

  /** A multiple of `m` in the window ((c-1)m, cm] is cm. */
  lemma MultipleInWindow(i: int, m: int, c: int)
    requires m > 0 && i % m == 0
    requires (c - 1) * m < i <= c * m
    ensures i == c * m
  {
    var q := i / m;
    assert i == q * m;
    MulMonotone(q, c - 1, m);
    MulMonotone(c + 1, q, m);
    assert (c + 1) * m == c * m + m;
  }

  /** Multiples of a positive `m` have no remainder. */
  lemma MultipleHasNoRemainder(c: int, m: int)
    requires m > 0
    ensures (c * m) % m == 0
  {
    var q, r := (c * m) / m, (c * m) % m;
    assert c * m == q * m + r && 0 <= r < m;
    assert r == (c - q) * m;
    MulMonotone(1, c - q, m);
    MulMonotone(c - q, -1, m);
  }

  /** At most `b` windows of width `m` fit below `b * m`. */
  lemma FewerWindows(c: int, m: int, b: int)
    requires m > 0
    requires (c - 1) * m < b * m
    ensures c - 1 < b
  {
    MulMonotone(b, c - 1, m);
  }

  /** The x-axis tick loop of `render`: point i gets a tick when i is a multiple of
      `ceil(n / 6)`, so tick k sits at point k * ceil(n / 6), there is always a tick at the first
      point, and there are never more than six. */
  method XTickIndices(n: nat) returns (ticks: seq<nat>)
    ensures forall k :: k in ticks <==> 0 <= k < n && k % TickInterval(n) == 0
    ensures forall k :: 0 <= k < |ticks| ==> ticks[k] == k * TickInterval(n) && ticks[k] < n
    ensures n > 0 ==> 0 < |ticks| <= 6 && ticks[0] == 0
  {
    var m := TickInterval(n);
    ticks := [];
    var i := 0;
    while i < n
      invariant 0 <= i <= n
      invariant forall k :: k in ticks <==> 0 <= k < i && k % m == 0
      invariant forall k :: 0 <= k < |ticks| ==> ticks[k] == k * m && ticks[k] < i
      invariant i <= |ticks| * m
      invariant |ticks| == 0 || (|ticks| - 1) * m < i
    {
      if i % m == 0 {
        if |ticks| > 0 {
          MultipleInWindow(i, m, |ticks|);
        }
        ticks := ticks + [i];
      } else {
        MultipleHasNoRemainder(|ticks|, m);
      }
      i := i + 1;
    }
    if n > 0 {
      assert 0 in ticks;
      FewerWindows(|ticks|, m, 6);
    }
  }

  /** The number of intervals on the value axis. */
  const NumTicks: nat := 5

  /** Consecutive value-axis ticks `(max / 5) * i` are a fifth of the top apart. */
  lemma TickSpacing(max: real, i: nat)
    ensures (max / NumTicks as real) * (i + 1) as real - (max / NumTicks as real) * i as real
      == max / NumTicks as real
  {
    var d := max / NumTicks as real;
    assert d * (i + 1) as real == d * i as real + d;
  }

  /** For a non-negative top, the value-axis ticks stay within [0, max]. */
  lemma TickBounds(max: real, i: nat)
    requires max >= 0.0 && i <= NumTicks
    ensures 0.0 <= (max / NumTicks as real) * i as real <= max
  {
    assert NumTicks as real == 5.0;
    var d := max / 5.0;
    assert 0.0 <= d && 5.0 * d == max;
    MulMonotoneReal(0.0, i as real, d);
    MulMonotoneReal(i as real, 5.0, d);
  }

  /** The value scale in terms of the share of the top a value makes up. */
  lemma YScaleOfShare(v: real, max: real, plotHeight: real, share: real)
    requires max != 0.0 && v / max == share
    ensures YScale(v, max, plotHeight) == Some(plotHeight - share * plotHeight)
  {
    var y := YScale(v, max, plotHeight);
    assert y.value == plotHeight - share * plotHeight;
    assert y == Some(y.value);
  }

  /** Value-axis tick i is the share i/5 of a non-zero top. */
  lemma TickShare(max: real, i: nat)
    requires max != 0.0
    ensures ((max / NumTicks as real) * i as real) / max == i as real / NumTicks as real
  {
    var n, r := NumTicks as real, i as real;
    var d := max / n;
    assert max * (r / n) == d * r;
    Quotient(d * r, max, r / n);
  }

  /** For a non-zero top, value-axis tick i lands at the fixed height i/5 of the plot. */
  lemma TickHeight(max: real, i: nat, plotHeight: real)
    requires max != 0.0
    ensures YScale((max / NumTicks as real) * i as real, max, plotHeight).value
      == plotHeight - (i as real / NumTicks as real) * plotHeight
  {
    TickShare(max, i);
    YScaleOfShare((max / NumTicks as real) * i as real, max, plotHeight, i as real / NumTicks as real);
  }

  /** The y-axis tick loop of `render`: six values from 0 up to the top of the domain in equal
      steps. When the top is not zero, tick i is drawn at the fixed height i/5 of the plot, so the
      gridlines do not depend on the data. */
  method YTickValues(max: real, plotHeight: real) returns (ticks: seq<real>)
    ensures |ticks| == NumTicks + 1
    ensures ticks[0] == 0.0 && ticks[NumTicks] == max
    ensures forall i :: 0 <= i < NumTicks ==> ticks[i + 1] - ticks[i] == max / NumTicks as real
    ensures max >= 0.0 ==> forall i :: 0 <= i <= NumTicks ==> 0.0 <= ticks[i] <= max
    ensures max != 0.0 ==> forall i :: 0 <= i <= NumTicks ==>
      YScale(ticks[i], max, plotHeight).value == plotHeight - (i as real / NumTicks as real) * plotHeight
  {
    ticks := [];
    for i := 0 to NumTicks + 1
      invariant |ticks| == i
      invariant forall k :: 0 <= k < i ==> ticks[k] == (max / NumTicks as real) * k as real
    {
      var yValue := (max / NumTicks as real) * i as real;
      ticks := ticks + [yValue];
    }
    forall i | 0 <= i <= NumTicks
      ensures i < NumTicks ==> ticks[i + 1] - ticks[i] == max / NumTicks as real
      ensures max >= 0.0 ==> 0.0 <= ticks[i] <= max
      ensures max != 0.0 ==>
        YScale(ticks[i], max, plotHeight).value == plotHeight - (i as real / NumTicks as real) * plotHeight
    {
      TickSpacing(max, i);
      if max >= 0.0 { TickBounds(max, i); }
      if max != 0.0 { TickHeight(max, i, plotHeight); }
    }
  }

  /** One command of the line's path data. */
  datatype PathCmd = MoveTo(x: Option<real>, y: Option<real>) | LineTo(x: Option<real>, y: Option<real>)

  /** The path-building loop of `render`: one command per point, in series order; the first
      moves the pen, every later one draws a segment to its point. */
  method LinePath(points: seq<Point>, first: int, last: int, max: real, plotWidth: real, plotHeight: real)
    returns (cmds: seq<PathCmd>)
    ensures |cmds| == |points|
    ensures forall i :: 0 <= i < |cmds| ==> (cmds[i].MoveTo? <==> i == 0)
    ensures forall i :: 0 <= i < |cmds| ==>
      && cmds[i].x == XScale(points[i].date, first, last, plotWidth)
      && cmds[i].y == YScale(points[i].cumulativeXP as real, max, plotHeight)
  {
    cmds := [];
    var i := 0;
    while i < |points|
      invariant 0 <= i <= |points|
      invariant |cmds| == i
      invariant forall k :: 0 <= k < i ==> (cmds[k].MoveTo? <==> k == 0)
      invariant forall k :: 0 <= k < i ==>
        && cmds[k].x == XScale(points[k].date, first, last, plotWidth)
        && cmds[k].y == YScale(points[k].cumulativeXP as real, max, plotHeight)
    {
      var x := XScale(points[i].date, first, last, plotWidth);
      var y := YScale(points[i].cumulativeXP as real, max, plotHeight);
      if i == 0 {
        cmds := cmds + [MoveTo(x, y)];
      } else {
        cmds := cmds + [LineTo(x, y)];
      }
      i := i + 1;
    }
  }

  /** The hover-dot loop of `render`: a dot on every fifth point and on the last one, so the
      first and the last point always get one. */
  method HoverDotIndices(n: nat) returns (dots: seq<nat>)
    ensures forall k :: k in dots <==> 0 <= k < n && (k % 5 == 0 || k == n - 1)
    ensures forall a, b :: 0 <= a < b < |dots| ==> dots[a] < dots[b]
    ensures n > 0 ==> |dots| > 0 && dots[0] == 0 && dots[|dots| - 1] == n - 1
  {
    dots := [];
    var i := 0;
    while i < n
      invariant 0 <= i <= n
      invariant forall k :: k in dots <==> 0 <= k < i && (k % 5 == 0 || k == n - 1)
      invariant forall a, b :: 0 <= a < b < |dots| ==> dots[a] < dots[b]
      invariant forall a :: 0 <= a < |dots| ==> dots[a] < i
      invariant i > 0 ==> |dots| > 0 && dots[0] == 0
    {
      if i % 5 == 0 || i == n - 1 {
        dots := dots + [i];
      }
      i := i + 1;
    }
    if n > 0 {
      assert n - 1 in dots;
      var k :| 0 <= k < |dots| && dots[k] == n - 1;
      assert k == |dots| - 1;
    }
  }

  /** `path.split('/').pop()`: the part of the path after its last slash (all of it when it has
      none): a slash-free suffix that is the whole path or follows a slash. */
  function LastSegment(path: string): (seg: string)
    ensures '/' !in seg
    ensures |seg| <= |path| && seg == path[|path| - |seg|..]
    ensures |seg| == |path| || path[|path| - |seg| - 1] == '/'
  {
    if path == [] then []
    else if path[|path| - 1] == '/' then []
    else LastSegment(path[..|path| - 1]) + [path[|path| - 1]]
  }

  /** The tooltip of a path `dir/name` shows `name`, whatever `dir` holds. */
  lemma {:induction false} LastSegmentOfJoin(dir: string, name: string)
    requires '/' !in name
    ensures LastSegment(dir + "/" + name) == name
  {
    if name == [] {
    } else {
      var init := name[..|name| - 1];
      assert (dir + "/" + name)[..|dir + "/" + name| - 1] == dir + "/" + init;
      assert '/' !in init by {
        forall c | c in init ensures c != '/' { assert c in name; }
      }
      LastSegmentOfJoin(dir, init);
      assert init + [name[|name| - 1]] == name;
    }
  }

  /** What a dot's tooltip shows: the date, the transaction's own amount (not the running
      total) and the last segment of its path. */
  datatype Tooltip = Tooltip(date: int, xp: int, pathTail: string)

  /** The tooltip attached to the dot of a point. */
  function TooltipFor(p: Point): (t: Tooltip)
    ensures t.date == p.date && t.xp == p.amount
    ensures t.pathTail == LastSegment(p.path)
    ensures '/' !in t.pathTail && |t.pathTail| <= |p.path|
  {
    Tooltip(p.date, p.amount, LastSegment(p.path))
  }

  /** One x-axis tick: the date of the point it marks and where that date lands. */
  datatype XTick = XTick(date: int, x: Option<real>)

  /** One y-axis tick: its value, where it lands, and its label text, the value rounded with
      `Math.round`. */
  datatype YTick = YTick(value: real, y: Option<real>, text: int)

  /** A hover dot: the index of its point, its position and its tooltip. */
  datatype Dot = Dot(index: nat, cx: Option<real>, cy: Option<real>, tooltip: Tooltip)

  /** Everything a render draws into the container. */
  datatype Chart = Chart(xTicks: seq<XTick>, yTicks: seq<YTick>, line: seq<PathCmd>, dots: seq<Dot>)

  /** The XP graph object: its fixed geometry, the loaded transactions, the processed series
      (absent until loaded) and what its container shows (`None` until a chart is drawn). */
  class XPGraph {
    const width: int := 800
    const height: int := 400
    const marginTop: int := 40
    const marginRight: int := 40
    const marginBottom: int := 60
    const marginLeft: int := 70

    var data: Option<seq<Transaction>>
    var processedData: Option<seq<Point>>
    var drawn: Option<Chart>

    constructor ()
      ensures data == Some([]) && processedData == None && drawn == None
    {
      data := Some([]);
      processedData := None;
      drawn := None;
    }

    /** `loadData`: keeps the gateway's transaction list and derives the processed series from
        it; a failed request leaves both as they were. An answer without a transaction list
        leaves `data` undefined (`None`), and the `map` over it then throws, so the processed
        series stays as it was. */
    method LoadData(answer: Result<Option<seq<Transaction>>>)
      modifies this`data, this`processedData
      ensures answer.Err? ==> data == old(data) && processedData == old(processedData)
      ensures answer.Ok? ==> data == answer.value
      ensures answer.Ok? && answer.value.None? ==> processedData == old(processedData)
      ensures answer.Ok? && answer.value.Some? ==>
        processedData == Some(Cumulative(answer.value.value))
    {
      if answer.Err? {
        return;
      }
      data := answer.value;
      if data.None? {
        return;
      }
      var points := CumulativePoints(data.value);
      processedData := Some(points);
    }

    /** `render`: with no processed series, or an empty one, the container is left as it was;
        otherwise it is cleared and holds the chart of the series. */
    method Render()
      modifies this`drawn
      ensures processedData.None? || processedData.value == [] ==> drawn == old(drawn)
      ensures processedData.Some? && processedData.value != [] ==>
        var ps := processedData.value;
        && drawn.Some?
        && |drawn.value.line| == |ps|
        && 0 < |drawn.value.xTicks| <= 6
        && drawn.value.xTicks[0].date == ps[0].date
        && |drawn.value.yTicks| == NumTicks + 1
        && (forall k :: 0 <= k < |drawn.value.yTicks| ==>
              drawn.value.yTicks[k].text == Round(drawn.value.yTicks[k].value))
        && |drawn.value.dots| > 0
        && drawn.value.dots[0].index == 0
        && drawn.value.dots[|drawn.value.dots| - 1].index == |ps| - 1
    {
      if processedData.None? || |processedData.value| == 0 {
        return;
      }
      var ps := processedData.value;
      var n := |ps|;
      var plotWidth := (width - marginLeft - marginRight) as real;
      var plotHeight := (height - marginTop - marginBottom) as real;
      var first, last := ps[0].date, ps[n - 1].date;
      var max := ps[n - 1].cumulativeXP as real;

      var tickIndices := XTickIndices(n);
      var xTicks := seq(|tickIndices|, k requires 0 <= k < |tickIndices| =>
        XTick(ps[tickIndices[k]].date, XScale(ps[tickIndices[k]].date, first, last, plotWidth)));

      var values := YTickValues(max, plotHeight);
      var yTicks := seq(|values|, k requires 0 <= k < |values| =>
        YTick(values[k], YScale(values[k], max, plotHeight), Round(values[k])));

      var line := LinePath(ps, first, last, max, plotWidth, plotHeight);

      var dotIndices := HoverDotIndices(n);
      assert forall k :: 0 <= k < |dotIndices| ==> dotIndices[k] in dotIndices;
      var dots := seq(|dotIndices|, k requires 0 <= k < |dotIndices| =>
        var p := ps[dotIndices[k]];
        Dot(dotIndices[k], XScale(p.date, first, last, plotWidth),
            YScale(p.cumulativeXP as real, max, plotHeight), TooltipFor(p)));

      drawn := Some(Chart(xTicks, yTicks, line, dots));
    }
  }
}
