/**
 * The audit pie chart (js/graphs/auditGraph.js, class `AuditGraph`): the audit totals in MB,
 * the audit ratio, one slice per non-zero total laid out around the circle in a fixed order,
 * the hover percentage of each slice, the two legend rows and the responsive size.
 *
 * Angles are fractions of a full turn (a turn is 2 * pi in the source), so the arc geometry is
 * kept without its trigonometry. A rendered chart is a `PieView` value.
 */
module PieChart {
  import opened Wrappers
  import opened JsMath

  // ---------------------------------------------------------------- totals and ratio

  /** The audit record of the signed-in user; a missing or null total is `None`. */
  datatype AuditUser = AuditUser(login: string, totalUp: Option<nat>, totalDown: Option<nat>)

  /** `total / 1000000 || 0`: a byte total in MB, where a missing total (NaN in the source) is 0. */
  function ToMB(total: Option<nat>): (mb: real)
    ensures mb >= 0.0
    ensures total.None? ==> mb == 0.0
    ensures total.Some? ==> mb * 1000000.0 == total.value as real
  {
    if total.None? then 0.0 else total.value as real / 1000000.0
  }

  /** The audit ratio: 0 when nothing was received, otherwise up / down rounded to one decimal. */
  function AuditRatio(up: real, down: real): (r: real)
    ensures down <= 0.0 ==> r == 0.0
    ensures down > 0.0 ==> IsTenths(r) && up / down - 0.05 < r <= up / down + 0.05
  {
    if down > 0.0 then RoundTenths(up / down) else 0.0
  }

  /** The ratio does not depend on the unit: computed on MB it is the rounded ratio of the byte
      totals themselves. */
  lemma RatioIsUnitFree(up: nat, down: nat)
    requires down > 0
    ensures AuditRatio(ToMB(Some(up)), ToMB(Some(down))) == RoundTenths(up as real / down as real)
  {
    var u, d := ToMB(Some(up)), ToMB(Some(down));
    assert u / d * (down as real) == up as real by {
      assert u / d * d == u;
      assert u * 1000000.0 == up as real && d * 1000000.0 == down as real;
      assert u / d * (d * 1000000.0) == u * 1000000.0;
    }
    Quotient(up as real, down as real, u / d);
  }

  /** 15 MB done against 10 MB received is a ratio of 1.5. */
  lemma RatioExample()
    ensures AuditRatio(ToMB(Some(15000000)), ToMB(Some(10000000))) == 1.5
  {
    RatioIsUnitFree(15000000, 10000000);
    assert 15000000 as real / 10000000 as real == 1.5;
    assert Round(1.5 * 10.0) == 15;
  }

  // ---------------------------------------------------------------- slices

  /** One entry of `pieData`: its legend label, its value in MB and its colour. */
  datatype Slice = Slice(caption: string, value: real, color: string)

  const UpLabel: string := "Audits Done (Up)"
  const DownLabel: string := "Audits Received (Down)"
  const UpColor: string := "#4CAF50"
  const DownColor: string := "#2196F3"

  /** `pieData`: the up slice, then the down slice. */
  function PieData(up: real, down: real): (pie: seq<Slice>)
    ensures |pie| == 2
    ensures pie[0].caption == UpLabel && pie[0].value == up && pie[0].color == UpColor
    ensures pie[1].caption == DownLabel && pie[1].value == down && pie[1].color == DownColor
  {
    [Slice(UpLabel, up, UpColor), Slice(DownLabel, down, DownColor)]
  }

  /** The sum of the slice values, accumulated from the left. */
  function SumValues(s: seq<Slice>): real
  {
    if s == [] then 0.0 else SumValues(s[..|s| - 1]) + s[|s| - 1].value
  }

  /** True when no slice value is negative. */
  predicate NonNegative(s: seq<Slice>)
  {
    forall k :: 0 <= k < |s| ==> s[k].value >= 0.0
  }

  /** The slices that get an arc: those whose value is not 0, in their order. */
  function Drawn(s: seq<Slice>): (d: seq<Slice>)
    ensures |d| <= |s|
    ensures forall k :: 0 <= k < |d| ==> d[k].value != 0.0
  {
    if s == [] then []
    else Drawn(s[..|s| - 1]) + (if s[|s| - 1].value != 0.0 then [s[|s| - 1]] else [])
  }

  /** `Drawn` is the filter that keeps the non-zero slices: each of them as often as in `s`,
      no zero slice at all. */
  lemma {:induction false} DrawnKeepsNonZero(s: seq<Slice>)
    ensures forall x :: multiset(Drawn(s))[x] == if x.value != 0.0 then multiset(s)[x] else 0
  {
    if s != [] {
      var init, last := s[..|s| - 1], s[|s| - 1];
      DrawnKeepsNonZero(init);
      assert s == init + [last];
      var tail := if last.value != 0.0 then [last] else [];
      assert Drawn(s) == Drawn(init) + tail;
      assert multiset(Drawn(s)) == multiset(Drawn(init)) + multiset(tail);
      assert multiset(s) == multiset(init) + multiset{last};
    }
  }

  /** `Drawn` keeps the order of the slices: filtering a concatenation is concatenating the
      filtered parts. */
  lemma {:induction false} DrawnAppend(a: seq<Slice>, b: seq<Slice>)
    ensures Drawn(a + b) == Drawn(a) + Drawn(b)
  {
    if b == [] {
      assert a + b == a;
    } else {
      var init, last := b[..|b| - 1], b[|b| - 1];
      DrawnAppend(a, init);
      assert (a + b)[..|a + b| - 1] == a + init;
      assert (a + b)[|a + b| - 1] == last;
      var tail := if last.value != 0.0 then [last] else [];
      calc {
        Drawn(a + b);
        Drawn(a + init) + tail;
        (Drawn(a) + Drawn(init)) + tail;
        Drawn(a) + (Drawn(init) + tail);
        Drawn(a) + Drawn(b);
      }
    }
  }

  /** Appending one slice adds its value. */
  lemma SumValuesAppend(s: seq<Slice>, x: Slice)
    ensures SumValues(s + [x]) == SumValues(s) + x.value
  {
    assert (s + [x])[..|s|] == s;
  }

  /** Skipping the zero slices does not change the total. */
  lemma {:induction false} DrawnSum(s: seq<Slice>)
    ensures SumValues(Drawn(s)) == SumValues(s)
  {
    if s != [] {
      var init, last := s[..|s| - 1], s[|s| - 1];
      DrawnSum(init);
      if last.value != 0.0 {
        SumValuesAppend(Drawn(init), last);
      } else {
        assert Drawn(s) == Drawn(init) + [];
        assert Drawn(init) + [] == Drawn(init);
        assert SumValues(s) == SumValues(init) + last.value;
      }
    }
  }

  /** With non-negative values, every value is at most the total, and the total is not negative. */
  lemma {:induction false} ValueBelowSum(s: seq<Slice>, i: nat)
    requires NonNegative(s) && i < |s|
    ensures 0.0 <= s[i].value <= SumValues(s)
  {
    var n := |s| - 1;
    assert NonNegative(s[..n]);
    if i < n {
      ValueBelowSum(s[..n], i);
    } else if n > 0 {
      ValueBelowSum(s[..n], 0);
    }
  }

  /** The prefix of `Drawn` up to slice `i + 1`. */
  lemma DrawnStep(s: seq<Slice>, i: nat)
    requires i < |s|
    ensures Drawn(s[..i + 1]) == Drawn(s[..i]) + (if s[i].value != 0.0 then [s[i]] else [])
  {
    assert s[..i + 1][..i] == s[..i];
  }

  // ---------------------------------------------------------------- arcs

  /** One drawn slice: where it starts and how far it sweeps, as fractions of a turn, and whether
      the SVG large-arc flag is set. */
  datatype Arc = Arc(caption: string, color: string, start: real, sweep: real, largeArc: bool)

  /** The arc of slice `s` starting at `start`: it sweeps `value / total` of a turn, and the
      large-arc flag is set when that is more than half a turn (an angle above pi). */
  function ArcFor(s: Slice, start: real, total: real): (a: Arc)
    requires total > 0.0
    ensures a.caption == s.caption && a.color == s.color && a.start == start
    ensures a.sweep == s.value / total
    ensures a.largeArc <==> 2.0 * s.value > total
  {
    var sweep := s.value / total;
    var a := Arc(s.caption, s.color, start, sweep, sweep > 0.5);
    assert sweep > 0.5 <==> 2.0 * s.value > total by {
      assert sweep * total == s.value;
      assert sweep > 0.5 <==> sweep * total > 0.5 * total;
    }
    a
  }

  /** The percentage the hover of an arc shows: its share of the total in percent, rounded with
      `Math.round`. */
  function Percentage(a: Arc): (p: int)
    ensures p as real - 0.5 <= a.sweep * 100.0 < p as real + 0.5
  {
    Round(a.sweep * 100.0)
  }

  /** The arcs of the drawn slices `d`, each starting where the previous one ends. */
  function ArcsOf(d: seq<Slice>, total: real): (arcs: seq<Arc>)
    requires total > 0.0
    ensures |arcs| == |d|
  {
    if d == [] then []
    else
      var init := d[..|d| - 1];
      ArcsOf(init, total) + [ArcFor(d[|d| - 1], SumValues(init) / total, total)]
  }

  /** Arc `k` starts at the share of the slices before it and spans its own share. */
  lemma {:induction false} ArcsOfAt(d: seq<Slice>, total: real, k: nat)
    requires total > 0.0 && k < |d|
    ensures ArcsOf(d, total)[k] == ArcFor(d[k], SumValues(d[..k]) / total, total)
  {
    var n := |d| - 1;
    if k < n {
      ArcsOfAt(d[..n], total, k);
      assert d[..n][..k] == d[..k];
    }
  }

  /** `(a + b) / c == a / c + b / c`. */
  lemma DivAdd(a: real, b: real, c: real)
    requires c != 0.0
    ensures (a + b) / c == a / c + b / c
  {
  }

  /** Each arc starts exactly where the one before it ends, and the first starts at the top (0). */
  lemma ArcsAreContiguous(d: seq<Slice>, total: real)
    requires total > 0.0
    ensures d != [] ==> ArcsOf(d, total)[0].start == 0.0
    ensures forall k :: 0 <= k < |d| - 1 ==>
      ArcsOf(d, total)[k + 1].start == ArcsOf(d, total)[k].start + ArcsOf(d, total)[k].sweep
  {
    if d != [] {
      ArcsOfAt(d, total, 0);
      assert d[..0] == [];
      Quotient(0.0, total, 0.0);
    }
    forall k | 0 <= k < |d| - 1
      ensures ArcsOf(d, total)[k + 1].start == ArcsOf(d, total)[k].start + ArcsOf(d, total)[k].sweep
    {
      NextArcStart(d, total, k);
    }
  }

  /** Arc `k + 1` starts where arc `k` ends. */
  lemma NextArcStart(d: seq<Slice>, total: real, k: nat)
    requires total > 0.0 && k + 1 < |d|
    ensures ArcsOf(d, total)[k + 1].start == ArcsOf(d, total)[k].start + ArcsOf(d, total)[k].sweep
  {
    var before := SumValues(d[..k]);
    assert SumValues(d[..k + 1]) == before + d[k].value by {
      assert d[..k + 1] == d[..k] + [d[k]];
      SumValuesAppend(d[..k], d[k]);
    }
    ArcsOfAt(d, total, k);
    ArcsOfAt(d, total, k + 1);
    DivAdd(before, d[k].value, total);
  }

  /** When the total is the sum of the drawn values, the last arc ends exactly one full turn
      after the first one starts. */
  lemma ArcsFillTheTurn(d: seq<Slice>, total: real)
    requires d != [] && total > 0.0 && total == SumValues(d)
    ensures ArcsOf(d, total)[|d| - 1].start + ArcsOf(d, total)[|d| - 1].sweep == 1.0
  {
    var n := |d| - 1;
    var before := SumValues(d[..n]);
    assert total == before + d[n].value;
    ArcsOfAt(d, total, n);
    SharesEndAtOne(before, d[n].value, total);
  }

  /** The shares of `before` and `v` of the total `before + v` make up one turn. */
  lemma SharesEndAtOne(before: real, v: real, total: real)
    requires total > 0.0 && total == before + v
    ensures before / total + v / total == 1.0
  {
    DivAdd(before, v, total);
    assert total / total == 1.0;
  }

  /** The `forEach` over `pieData` that advances `startAngle`: a zero slice is skipped, every other
      slice gets the arc that starts where the previous drawn one ended. */
  method SliceArcs(pie: seq<Slice>, total: real) returns (arcs: seq<Arc>)
    requires NonNegative(pie)
    requires total == SumValues(pie)
    ensures total == 0.0 ==> arcs == []
    ensures total > 0.0 ==> arcs == ArcsOf(Drawn(pie), total)
  {
    arcs := [];
    var startAngle := 0.0;
    for i := 0 to |pie|
      invariant total == 0.0 ==> arcs == [] && startAngle == 0.0
      invariant total > 0.0 ==>
        arcs == ArcsOf(Drawn(pie[..i]), total) && startAngle == SumValues(Drawn(pie[..i])) / total
    {
      DrawnStep(pie, i);
      if pie[i].value != 0.0 {
        ValueBelowSum(pie, i);
        var sliceAngle := pie[i].value / total;
        var endAngle := startAngle + sliceAngle;
        var d := Drawn(pie[..i]);
        assert Drawn(pie[..i + 1]) == d + [pie[i]];
        assert (d + [pie[i]])[..|d|] == d;
        SumValuesAppend(d, pie[i]);
        DivAdd(SumValues(d), pie[i].value, total);
        arcs := arcs + [ArcFor(pie[i], startAngle, total)];
        startAngle := endAngle;
      } else {
        assert Drawn(pie[..i + 1]) == Drawn(pie[..i]);
      }
    }
    assert pie[..|pie|] == pie;
  }

  /** With something to draw, the drawn arcs go round the circle exactly once, from the top. */
  lemma PieCoversOneTurn(pie: seq<Slice>)
    requires NonNegative(pie) && SumValues(pie) > 0.0
    ensures var d := Drawn(pie); var arcs := ArcsOf(d, SumValues(pie));
      && |arcs| > 0
      && arcs[0].start == 0.0
      && arcs[|arcs| - 1].start + arcs[|arcs| - 1].sweep == 1.0
  {
    var d := Drawn(pie);
    DrawnSum(pie);
    ArcsAreContiguous(d, SumValues(pie));
    ArcsFillTheTurn(d, SumValues(pie));
  }

  /** The two entries of `pieData` add up to the total. */
  lemma PieDataSum(up: real, down: real)
    ensures SumValues(PieData(up, down)) == up + down
  {
    var pie := PieData(up, down);
    assert [] + [pie[0]] == [pie[0]];
    SumValuesAppend([], pie[0]);
    assert [pie[0]] + [pie[1]] == pie;
    SumValuesAppend([pie[0]], pie[1]);
  }

  /** The drawn entries of `pieData` are those of the two that are not 0, up first. */
  lemma PieDataDrawn(up: real, down: real)
    ensures Drawn(PieData(up, down))
      == (if up != 0.0 then [PieData(up, down)[0]] else [])
       + (if down != 0.0 then [PieData(up, down)[1]] else [])
  {
    var pie := PieData(up, down);
    assert pie[..1] == [pie[0]];
    assert pie[..1][..0] == [];
    assert Drawn(pie[..1]) == (if up != 0.0 then [pie[0]] else []);
  }

  /** When both totals are 0 there is nothing to draw; a single non-zero total, the one done or
      the one received, is the whole circle, drawn as one large arc at 100 percent. */
  lemma OneSliceIsTheWholePie(up: real, down: real)
    requires up >= 0.0 && down >= 0.0
    ensures up + down == 0.0 ==> Drawn(PieData(up, down)) == []
    ensures up > 0.0 && down == 0.0 ==>
      var arcs := ArcsOf(Drawn(PieData(up, down)), up + down);
      |arcs| == 1 && arcs[0].caption == UpLabel && arcs[0].sweep == 1.0 && arcs[0].largeArc
      && Percentage(arcs[0]) == 100
    ensures up == 0.0 && down > 0.0 ==>
      var arcs := ArcsOf(Drawn(PieData(up, down)), up + down);
      |arcs| == 1 && arcs[0].caption == DownLabel && arcs[0].sweep == 1.0 && arcs[0].largeArc
      && Percentage(arcs[0]) == 100
  {
    PieDataDrawn(up, down);
    if up > 0.0 && down == 0.0 {
      var d := Drawn(PieData(up, down));
      assert d == [PieData(up, down)[0]];
      ArcsOfAt(d, up + down, 0);
      WholeSlice(d[0], SumValues(d[..0]) / (up + down), up + down);
    } else if up == 0.0 && down > 0.0 {
      var d := Drawn(PieData(up, down));
      assert d == [PieData(up, down)[1]];
      ArcsOfAt(d, up + down, 0);
      WholeSlice(d[0], SumValues(d[..0]) / (up + down), up + down);
    }
  }

  /** A slice that is the whole total sweeps a full turn, as a large arc, at 100 percent. */
  lemma WholeSlice(s: Slice, start: real, total: real)
    requires total > 0.0 && s.value == total
    ensures ArcFor(s, start, total).sweep == 1.0
    ensures ArcFor(s, start, total).largeArc
    ensures Percentage(ArcFor(s, start, total)) == 100
  {
    var a := ArcFor(s, start, total);
    assert total / total == 1.0;
    assert a.sweep * 100.0 == 100.0;
  }

  /** Two shares of 100 percent, each rounded with `Math.round`, add up to 100 or 101. */
  lemma RoundedSharesAddUp(p: real, q: real)
    requires p + q == 100.0
    ensures 100 <= Round(p) + Round(q) <= 101
  {
  }

  /** The two hover percentages add up to 100, or to 101 when both shares end in exactly half a
      percent and both round up. */
  lemma PercentagesAddUp(up: real, down: real)
    requires up > 0.0 && down > 0.0
    ensures var arcs := ArcsOf(Drawn(PieData(up, down)), up + down);
      && |arcs| == 2
      && arcs[0].caption == UpLabel && arcs[1].caption == DownLabel
      && 100 <= Percentage(arcs[0]) + Percentage(arcs[1]) <= 101
  {
    var pie := PieData(up, down);
    var total := up + down;
    BothDrawn(up, down);
    TwoArcs(pie, total);
    TwoPercentages(pie[0], pie[1], up / total);
  }

  /** The hover percentages of two slices that make up the whole total add up to 100 or 101. */
  lemma TwoPercentages(first: Slice, second: Slice, start: real)
    requires first.value + second.value > 0.0
    ensures var total := first.value + second.value;
      100 <= Percentage(ArcFor(first, 0.0, total)) + Percentage(ArcFor(second, start, total)) <= 101
  {
    var total := first.value + second.value;
    var a0, a1 := ArcFor(first, 0.0, total), ArcFor(second, start, total);
    SharesEndAtOne(first.value, second.value, total);
    RoundedSharesAddUp(a0.sweep * 100.0, a1.sweep * 100.0);
  }

  /** With both totals positive, both entries of `pieData` are drawn. */
  lemma BothDrawn(up: real, down: real)
    requires up > 0.0 && down > 0.0
    ensures Drawn(PieData(up, down)) == PieData(up, down)
  {
    PieDataDrawn(up, down);
  }

  /** The arcs of two slices: the first starts at the top, the second after the first's share. */
  lemma TwoArcs(pie: seq<Slice>, total: real)
    requires |pie| == 2 && total > 0.0
    ensures ArcsOf(pie, total) == [ArcFor(pie[0], 0.0, total), ArcFor(pie[1], pie[0].value / total, total)]
  {
    ArcsOfAt(pie, total, 0);
    assert pie[..0] == [];
    Quotient(0.0, total, 0.0);
    ArcsOfAt(pie, total, 1);
    assert pie[..1] == [] + [pie[0]];
    SumValuesAppend([], pie[0]);
  }

  // ---------------------------------------------------------------- legend and size

  /** One legend row: the colour swatch, the label and the value in MB. */
  datatype LegendRow = LegendRow(caption: string, color: string, valueMB: real)

  /** The legend: one row per `pieData` entry, zero values included. */
  function Legend(pie: seq<Slice>): (rows: seq<LegendRow>)
    ensures |rows| == |pie|
    ensures forall k :: 0 <= k < |pie| ==>
      rows[k] == LegendRow(pie[k].caption, pie[k].color, pie[k].value)
  {
    seq(|pie|, k requires 0 <= k < |pie| => LegendRow(pie[k].caption, pie[k].color, pie[k].value))
  }

  /** The largest size of the chart, in pixels. */
  const MaxSize: nat := 500

  /** `Math.min(offsetWidth || 500, 500)`: a zero width counts as 500. */
  function ChartSize(offsetWidth: nat): (size: nat)
    ensures 0 < size <= MaxSize
    ensures offsetWidth == 0 || offsetWidth >= MaxSize ==> size == MaxSize
    ensures 0 < offsetWidth < MaxSize ==> size == offsetWidth
  {
    var containerWidth := if offsetWidth == 0 then MaxSize else offsetWidth;
    if containerWidth < MaxSize then containerWidth else MaxSize
  }

  /** `Math.min(width, height) / 2 - margin`. */
  function Radius(width: nat, height: nat, margin: nat): (r: real)
    ensures r + margin as real == (if width < height then width else height) as real / 2.0
  {
    (if width < height then width else height) as real / 2.0 - margin as real
  }

  /** The on-screen result of `render`. */
  datatype PieView = PieView(login: string, ratio: real, arcs: seq<Arc>, legend: seq<LegendRow>,
                             radius: real)

  /** The chart `render` draws for `user` at the given size and margin. */
  method DrawPie(user: AuditUser, width: nat, height: nat, margin: nat) returns (view: PieView)
    ensures var up, down := ToMB(user.totalUp), ToMB(user.totalDown);
      var pie := PieData(up, down);
      && view.login == user.login
      && view.ratio == AuditRatio(up, down)
      && (up + down == 0.0 ==> view.arcs == [])
      && (up + down > 0.0 ==> view.arcs == ArcsOf(Drawn(pie), up + down))
      && view.legend == Legend(pie)
      && view.radius == Radius(width, height, margin)
  {
    var totalUp := ToMB(user.totalUp);
    var totalDown := ToMB(user.totalDown);
    var total := totalUp + totalDown;
    var ratio := AuditRatio(totalUp, totalDown);
    var pie := PieData(totalUp, totalDown);
    PieDataSum(totalUp, totalDown);
    var arcs := SliceArcs(pie, total);
    view := PieView(user.login, ratio, arcs, Legend(pie), Radius(width, height, margin));
  }

  /** The audit chart: its size and margin, the loaded audit record and what it has drawn. */
  class AuditGraph {
    var width: nat
    var height: nat
    var margin: nat
    var data: Option<AuditUser>
    var drawn: Option<PieView>

    /** The square size and a margin that is either the initial 60 or the small-screen 40. */
    ghost predicate Valid()
      reads this
    {
      0 < width == height <= MaxSize && (margin == 60 || margin == 40)
    }

    /** `new AuditGraph(containerId)` for a container `offsetWidth` pixels wide. */
    constructor (offsetWidth: nat)
      ensures Valid()
      ensures width == height == ChartSize(offsetWidth)
      ensures margin == if width < 400 then 40 else 60
      ensures data == None && drawn == None
    {
      margin := 60;
      data := None;
      drawn := None;
      width := MaxSize;
      height := MaxSize;
      new;
      UpdateDimensions(offsetWidth);
    }

    /** `updateDimensions`: a square of `min(width, 500)`; below 400 pixels the margin becomes 40,
        otherwise it keeps its value. */
    method UpdateDimensions(offsetWidth: nat)
      requires Valid()
      modifies this`width, this`height, this`margin
      ensures Valid()
      ensures width == height == ChartSize(offsetWidth)
      ensures width < 400 ==> margin == 40
      ensures width >= 400 ==> margin == old(margin)
    {
      var size := ChartSize(offsetWidth);
      width := size;
      height := size;
      if width < 400 {
        margin := 40;
      }
    }

    /** The radius of a valid chart is at most 210 pixels; it is positive exactly when the size
        exceeds twice the margin, and a chart of 400 pixels or more has a radius of at least 140. */
    lemma RadiusBounds()
      requires Valid()
      ensures Radius(width, height, margin) <= 210.0
      ensures Radius(width, height, margin) > 0.0 <==> width > 2 * margin
      ensures width >= 400 ==> Radius(width, height, margin) >= 140.0
    {
    }

    /** `loadData`: the first user of the answer, or nothing when the list is empty; a failed
        request leaves the data as it was. */
    method LoadData(answer: Result<seq<AuditUser>>)
      modifies this`data
      ensures answer.Err? ==> data == old(data)
      ensures answer.Ok? && answer.value == [] ==> data == None
      ensures answer.Ok? && answer.value != [] ==> data == Some(answer.value[0])
    {
      if answer.Ok? {
        data := if |answer.value| > 0 then Some(answer.value[0]) else None;
      }
    }

    /** `render`: without data nothing changes; otherwise the chart shows the login, the ratio,
        one arc per non-zero total in the order up, down, and both legend rows. */
    method Render()
      modifies this`drawn
      ensures data.None? ==> drawn == old(drawn)
      ensures data.Some? ==>
        var up, down := ToMB(data.value.totalUp), ToMB(data.value.totalDown);
        var pie := PieData(up, down);
        && drawn.Some?
        && drawn.value.login == data.value.login
        && drawn.value.ratio == AuditRatio(up, down)
        && (up + down == 0.0 ==> drawn.value.arcs == [])
        && (up + down > 0.0 ==> drawn.value.arcs == ArcsOf(Drawn(pie), up + down))
        && drawn.value.legend == Legend(pie)
        && drawn.value.radius == Radius(width, height, margin)
    {
      if data.None? {
        return;
      }
      var view := DrawPie(data.value, width, height, margin);
      drawn := Some(view);
    }
  }
}
