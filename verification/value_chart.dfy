/**
 * The series behind an asset's value chart (components/asset/value-chart.tsx): the recorded
 * history in date order, with the purchase point in front when that day has no point of its own,
 * and today's value at the end when it differs from the initial value and today has no point yet.
 */
module ValueChart {
  import opened Wrappers
  import opened Sorting

  /** A history point; the date is a day number, one per ISO date string. */
  datatype Point = Point(day: int, value: real)

  function DayKey(p: Point): real {
    p.day as real
  }

  /** `points.some(point => point.date === day)`. */
  function HasPointOn(points: seq<Point>, day: int): (b: bool)
    ensures b <==> exists i :: 0 <= i < |points| && points[i].day == day
    decreases |points|
  {
    if points == [] then false
    else if points[0].day == day then true
    else
      var b := HasPointOn(points[1..], day);
      assert forall i :: 1 <= i < |points| ==> points[i] == points[1..][i - 1];
      b
  }

  /** The history sorted by date, with the purchase point prepended when missing. */
  function WithInitialPoint(history: seq<Point>, initialDay: int, initialValue: real): seq<Point> {
    var sortedHistory := SortBy(history, DayKey);
    if HasPointOn(sortedHistory, initialDay) then sortedHistory
    else [Point(initialDay, initialValue)] + sortedHistory
  }

  /** The whole series: today's point appended when there is a current value, it differs from
      the initial value, and no point (the purchase point included) is dated today. */
  function ChartSeries(history: seq<Point>, initialDay: int, initialValue: real,
                       currentValue: Option<real>, today: int): seq<Point> {
    var withInitial := WithInitialPoint(history, initialDay, initialValue);
    if currentValue.Some? && currentValue.value != initialValue && !HasPointOn(withInitial, today) then
      withInitial + [Point(today, currentValue.value)]
    else withInitial
  }

  /** The effect: copy and sort the history, `unshift` the purchase point, `push` today's point,
      then map the series to labels (its days) and values. */
  method BuildChartData(history: seq<Point>, initialDay: int, initialValue: real,
                        currentValue: Option<real>, today: int)
    returns (series: seq<Point>, labels: seq<int>, values: seq<real>)
    ensures series == ChartSeries(history, initialDay, initialValue, currentValue, today)
    ensures |labels| == |series| && |values| == |series|
    ensures forall i :: 0 <= i < |series| ==> labels[i] == series[i].day && values[i] == series[i].value
  {
    var sortedHistory := SortBy(history, DayKey);
    if !HasPointOn(sortedHistory, initialDay) {
      sortedHistory := [Point(initialDay, initialValue)] + sortedHistory;
    }
    if currentValue.Some? && currentValue.value != initialValue {
      if !HasPointOn(sortedHistory, today) {
        sortedHistory := sortedHistory + [Point(today, currentValue.value)];
      }
    }
    series := sortedHistory;
    labels := [];
    values := [];
    for i := 0 to |series|
      invariant |labels| == i && |values| == i
      invariant forall k :: 0 <= k < i ==> labels[k] == series[k].day && values[k] == series[k].value
    {
      labels := labels + [series[i].day];
      values := values + [series[i].value];
    }
  }

  /** Putting at most one point in front of `sorted` and at most one behind keeps `sorted` whole,
      one or zero places in. */
  lemma FramedKeepsMiddle(sorted: seq<Point>, w: seq<Point>, series: seq<Point>, first: Point, last: Point)
    requires w == sorted || w == [first] + sorted
    requires series == w || series == w + [last]
    ensures |sorted| <= |series| <= |sorted| + 2
    ensures (|sorted| <= |series| && series[..|sorted|] == sorted)
         || (|sorted| < |series| && series[1..|sorted| + 1] == sorted)
    ensures multiset(sorted) <= multiset(series)
  {
    assert multiset(w) <= multiset(series) by {
      if series != w {
        assert series == w + [last];
      }
    }
    if w == sorted {
      assert series[..|sorted|] == sorted;
    } else {
      assert series[1..|sorted| + 1] == sorted;
    }
  }

  /** The series keeps every recorded point, in date order, after at most the purchase point,
      and adds at most two points. */
  lemma ChartSeriesKeepsHistory(history: seq<Point>, initialDay: int, initialValue: real,
                                currentValue: Option<real>, today: int)
    ensures var series := ChartSeries(history, initialDay, initialValue, currentValue, today);
      && |history| <= |series| <= |history| + 2
      && ((|history| <= |series| && series[..|history|] == SortBy(history, DayKey))
          || (|history| < |series| && series[1..|history| + 1] == SortBy(history, DayKey)))
      && multiset(history) <= multiset(series)
  {
    var sortedHistory := SortBy(history, DayKey);
    FramedKeepsMiddle(sortedHistory, WithInitialPoint(history, initialDay, initialValue),
      ChartSeries(history, initialDay, initialValue, currentValue, today),
      Point(initialDay, initialValue), Point(today, currentValue.GetOr(0.0)));
  }

  /** Putting `first` in front of `sorted` unless its day is already there, and maybe `last`
      behind: `first`'s day is plotted, `last`'s too when it was added, a day plotted before the
      append stays plotted, and every point is from `sorted` or one of the two. */
  lemma FramedPlotsDays(sorted: seq<Point>, w: seq<Point>, series: seq<Point>, first: Point, last: Point,
                        day: int)
    requires (w == sorted && HasPointOn(sorted, first.day)) || w == [first] + sorted
    requires series == w || series == w + [last]
    ensures HasPointOn(series, first.day)
    ensures series != w ==> HasPointOn(series, last.day)
    ensures HasPointOn(w, day) ==> HasPointOn(series, day)
    ensures forall i :: 0 <= i < |series| ==> series[i] in multiset(sorted) || series[i] == first || series[i] == last
  {
    if w != sorted {
      PrependedDays(first, sorted, first.day);
    }
    forall i | 0 <= i < |w| ensures w[i] in multiset(sorted) || w[i] == first {
      if w != sorted && 0 < i {
        assert w[i] == sorted[i - 1];
      }
    }
    if series != w {
      AppendedDays(w, last, first.day);
      AppendedDays(w, last, last.day);
      AppendedDays(w, last, day);
      forall i | 0 <= i < |w| ensures series[i] == w[i] { }
    }
  }

  /** A point put behind plots its own day besides those already plotted. */
  lemma AppendedDays(points: seq<Point>, last: Point, day: int)
    ensures HasPointOn(points + [last], day) <==> last.day == day || HasPointOn(points, day)
  {
    var framed := points + [last];
    assert framed[|points|] == last;
    if HasPointOn(points, day) {
      var k :| 0 <= k < |points| && points[k].day == day;
      assert framed[k] == points[k];
    }
    if HasPointOn(framed, day) && last.day != day {
      var k :| 0 <= k < |framed| && framed[k].day == day;
      assert points[k] == framed[k];
    }
  }

  /** The purchase day is always plotted, today is plotted whenever the current value differs
      from the initial one, and every point not from the history is dated one of the two. */
  lemma ChartSeriesPlotsDays(history: seq<Point>, initialDay: int, initialValue: real,
                             currentValue: Option<real>, today: int)
    ensures var series := ChartSeries(history, initialDay, initialValue, currentValue, today);
      && HasPointOn(series, initialDay)
      && (currentValue.Some? && currentValue.value != initialValue ==> HasPointOn(series, today))
      && (forall i :: 0 <= i < |series| ==>
            series[i] in multiset(history) || series[i].day == initialDay || series[i].day == today)
  {
    FramedPlotsDays(SortBy(history, DayKey), WithInitialPoint(history, initialDay, initialValue),
      ChartSeries(history, initialDay, initialValue, currentValue, today),
      Point(initialDay, initialValue), Point(today, currentValue.GetOr(0.0)), today);
  }

  /** Sorting the history plots the same days. */
  lemma SortedHistoryDays(history: seq<Point>, day: int)
    ensures HasPointOn(SortBy(history, DayKey), day) <==> HasPointOn(history, day)
  {
    var sorted := SortBy(history, DayKey);
    if HasPointOn(history, day) {
      var i :| 0 <= i < |history| && history[i].day == day;
      assert history[i] in multiset(sorted);
    }
    if HasPointOn(sorted, day) {
      var i :| 0 <= i < |sorted| && sorted[i].day == day;
      assert sorted[i] in multiset(history);
    }
  }

  /** A point put in front plots its own day besides those already plotted. */
  lemma PrependedDays(first: Point, points: seq<Point>, day: int)
    ensures HasPointOn([first] + points, day) <==> first.day == day || HasPointOn(points, day)
  {
    var framed := [first] + points;
    if HasPointOn(points, day) {
      var k :| 0 <= k < |points| && points[k].day == day;
      assert framed[k + 1] == points[k];
    }
    if HasPointOn(framed, day) && first.day != day {
      var k :| 0 <= k < |framed| && framed[k].day == day;
      assert points[k - 1] == framed[k];
    }
  }

  /** The sorted history with the purchase point: in front exactly when the history has no
      point on the purchase day. */
  lemma WithInitialShape(history: seq<Point>, initialDay: int, initialValue: real, today: int)
    ensures var withInitial := WithInitialPoint(history, initialDay, initialValue);
      var prepended := !HasPointOn(history, initialDay);
      && |withInitial| == |history| + (if prepended then 1 else 0)
      && (prepended ==> withInitial == [Point(initialDay, initialValue)] + SortBy(history, DayKey))
      && (!prepended ==> withInitial == SortBy(history, DayKey))
      && (HasPointOn(withInitial, today) <==> HasPointOn(history, today) || (prepended && initialDay == today))
  {
    var sorted := SortBy(history, DayKey);
    SortedHistoryDays(history, initialDay);
    SortedHistoryDays(history, today);
    PrependedDays(Point(initialDay, initialValue), sorted, today);
  }

  /** The exact shape of the series: the purchase point is put in front exactly when the
      history has no point on the purchase day, today's point is put behind exactly when there is
      a current value different from the initial one and neither the history nor the purchase
      point is dated today, and the sorted history sits whole between them. */
  lemma ChartSeriesShape(history: seq<Point>, initialDay: int, initialValue: real,
                         currentValue: Option<real>, today: int)
    ensures var series := ChartSeries(history, initialDay, initialValue, currentValue, today);
      var prepended := !HasPointOn(history, initialDay);
      var appended := currentValue.Some? && currentValue.value != initialValue
                      && !HasPointOn(history, today) && !(prepended && initialDay == today);
      && |series| == |history| + (if prepended then 1 else 0) + (if appended then 1 else 0)
      && (prepended ==> series[0] == Point(initialDay, initialValue)
                        && series[1..|history| + 1] == SortBy(history, DayKey))
      && (!prepended ==> series[..|history|] == SortBy(history, DayKey))
      && (appended ==> series[|series| - 1] == Point(today, currentValue.value))
  {
    var withInitial := WithInitialPoint(history, initialDay, initialValue);
    WithInitialShape(history, initialDay, initialValue, today);
    var series := ChartSeries(history, initialDay, initialValue, currentValue, today);
    assert series[..|withInitial|] == withInitial;
  }

  /** An asset received today with no history gets a single point: the purchase point, dated
      today, also stands for today's value. */
  lemma ReceivedTodayHasOnePoint(initialDay: int, initialValue: real, currentValue: Option<real>)
    ensures ChartSeries([], initialDay, initialValue, currentValue, initialDay) == [Point(initialDay, initialValue)]
  {
    assert SortBy([], DayKey) == [];
    assert HasPointOn([Point(initialDay, initialValue)], initialDay);
  }
}
