/** The admin growth chart: items counted per creation day, one point per
    day, ordered by date. */
module GrowthChart {
  import opened Util
  import Sorting

  datatype Point = Point(x: string, y: nat)

  datatype Series = Series(id: string, data: seq<Point>)

  // ---------------------------------------------------------------------------
  // Days and counts

  /** The day of each item, in list order. `dayOf` stands for parsing the UTC
      timestamp and formatting it as `yyyy-MM-dd`. */
  function DayList(createdAt: seq<string>, dayOf: string -> string): (r: seq<string>)
    ensures |r| == |createdAt| && forall i :: 0 <= i < |r| ==> r[i] == dayOf(createdAt[i])
  {
    seq(|createdAt|, i requires 0 <= i < |createdAt| => dayOf(createdAt[i]))
  }

  /** The distinct days in order of first appearance: the keys of a `Map`
      filled in list order. */
  function Distinct(ds: seq<string>): seq<string>
  {
    if |ds| == 0 then []
    else
      var prev := Distinct(ds[..|ds| - 1]);
      if ds[|ds| - 1] in prev then prev else prev + [ds[|ds| - 1]]
  }

  predicate NoDuplicates(ks: seq<string>)
  {
    forall i, j :: 0 <= i < j < |ks| ==> ks[i] != ks[j]
  }

  /** Every day appears once, and exactly the days of the list appear. */
  lemma {:induction false} DistinctMeaning(ds: seq<string>)
    ensures NoDuplicates(Distinct(ds))
    ensures forall d :: d in Distinct(ds) <==> d in ds
    decreases |ds|
  {
    if |ds| > 0 {
      var n := |ds| - 1;
      DistinctMeaning(ds[..n]);
      assert ds == ds[..n] + [ds[n]];
    }
  }

  /** One more item: its day joins the distinct days unless it is there
      already, and a day not yet seen has no items. */
  lemma DistinctSnoc(ds: seq<string>, d: string)
    ensures Distinct(ds + [d]) == if d in ds then Distinct(ds) else Distinct(ds) + [d]
    ensures d in Distinct(ds) <==> d in ds
    ensures d !in ds ==> multiset(ds)[d] == 0
  {
    assert (ds + [d])[..|ds|] == ds;
    DistinctMeaning(ds);
  }

  // ---------------------------------------------------------------------------
  // Counting loop

  /** The `dailyCounts` map filled by one pass over the items; `days` keeps
      the map's insertion order. */
  method DailyCounts(createdAt: seq<string>, dayOf: string -> string)
    returns (days: seq<string>, counts: map<string, nat>)
    ensures days == Distinct(DayList(createdAt, dayOf))
    ensures forall d :: d in counts <==> d in days
    ensures forall d :: d in counts ==> counts[d] == multiset(DayList(createdAt, dayOf))[d]
  {
    ghost var ds := DayList(createdAt, dayOf);
    days := [];
    counts := map[];
    for k := 0 to |createdAt|
      invariant days == Distinct(ds[..k])
      invariant forall d :: d in counts <==> d in days
      invariant forall d :: d in counts ==> counts[d] == multiset(ds[..k])[d]
    {
      var date := dayOf(createdAt[k]);
      assert ds[..k + 1] == ds[..k] + [date];
      DistinctSnoc(ds[..k], date);
      var previous := if date in counts then counts[date] else 0;
      if date !in counts {
        days := days + [date];
      }
      counts := counts[date := previous + 1];
    }
    assert ds[..|createdAt|] == ds;
  }

  // ---------------------------------------------------------------------------
  // Chart points

  /** One point per key, carrying the key's number of items. */
  function PointsOf(keys: seq<string>, ds: seq<string>): (r: seq<Point>)
    ensures |r| == |keys|
  {
    seq(|keys|, i requires 0 <= i < |keys| => Point(keys[i], multiset(ds)[keys[i]]))
  }

  function Ys(points: seq<Point>): (r: seq<int>)
    ensures |r| == |points|
  {
    seq(|points|, i requires 0 <= i < |points| => points[i].y as int)
  }

  /** A point's date in milliseconds; `millisOf` stands for
      `DateTime.fromISO(date).toMillis()`. */
  function ByDate(millisOf: string -> int): Point -> int
  {
    (p: Point) => millisOf(p.x)
  }

  /** The points ordered by date. */
  function SortPoints(points: seq<Point>, millisOf: string -> int): (r: seq<Point>)
    ensures Sorting.SortedBy(r, ByDate(millisOf))
    ensures multiset(r) == multiset(points)
  {
    Sorting.SortBy(points, ByDate(millisOf))
  }

  /** One more item adds one to its day's count and leaves the others. */
  lemma YsSnoc(keys: seq<string>, ds: seq<string>, d: string)
    ensures forall j :: 0 <= j < |keys| ==>
              Ys(PointsOf(keys, ds + [d]))[j] == Ys(PointsOf(keys, ds))[j] + (if keys[j] == d then 1 else 0)
  {
    assert multiset(ds + [d]) == multiset(ds) + multiset{d};
  }

  /** The counts over the distinct days of a list add up to its length. */
  lemma {:induction false} CountsSum(ds: seq<string>)
    ensures Sum(Ys(PointsOf(Distinct(ds), ds))) == |ds|
    decreases |ds|
  {
    if |ds| > 0 {
      var n := |ds| - 1;
      var p, d := ds[..n], ds[n];
      assert ds == p + [d];
      CountsSum(p);
      DistinctSnoc(p, d);
      DistinctMeaning(p);
      var keys := Distinct(p);
      var before := Ys(PointsOf(keys, p));
      if d in keys {
        var i :| 0 <= i < |keys| && keys[i] == d;
        SeenDayStep(keys, p, d, i);
        SumUpdate(before, i, before[i] + 1);
      } else {
        NewDayStep(keys, p, d);
        SumAppend(before, [1]);
      }
    }
  }

  /** An item on a day already seen: that day's count goes up by one. */
  lemma SeenDayStep(keys: seq<string>, p: seq<string>, d: string, i: nat)
    requires NoDuplicates(keys) && i < |keys| && keys[i] == d
    ensures Ys(PointsOf(keys, p + [d])) == Ys(PointsOf(keys, p))[i := Ys(PointsOf(keys, p))[i] + 1]
  {
    YsSnoc(keys, p, d);
  }

  /** An item on a new day: a point with count one follows the others. */
  lemma NewDayStep(keys: seq<string>, p: seq<string>, d: string)
    requires d !in keys && multiset(p)[d] == 0
    ensures Ys(PointsOf(keys + [d], p + [d])) == Ys(PointsOf(keys, p)) + [1]
  {
    YsSnoc(keys, p, d);
    assert multiset(p + [d])[d] == 1;
    forall j | 0 <= j < |keys|
      ensures Ys(PointsOf(keys + [d], p + [d]))[j] == Ys(PointsOf(keys, p + [d]))[j]
    {
    }
  }

  /** The unsorted points: one per distinct day, each day of the list has
      one, each count is the number of items on that day and positive, and
      the counts add up to the number of items. */
  lemma PointsMeaning(ds: seq<string>)
    ensures var points := PointsOf(Distinct(ds), ds);
            && (forall i, j :: 0 <= i < j < |points| ==> points[i].x != points[j].x)
            && (forall i :: 0 <= i < |points| ==> points[i].x in ds && points[i].y == multiset(ds)[points[i].x] > 0)
            && (forall d :: d in ds ==> d in Distinct(ds))
            && Sum(Ys(points)) == |ds|
  {
    DistinctMeaning(ds);
    CountsSum(ds);
    var points := PointsOf(Distinct(ds), ds);
    forall i | 0 <= i < |points|
      ensures points[i].x in ds && points[i].y == multiset(ds)[points[i].x] > 0
    {
      assert points[i].x == Distinct(ds)[i];
    }
  }

  // ---------------------------------------------------------------------------
  // The chart's series

  /** `chartData`: nothing without items; otherwise one series, named by the
      lower-cased title, of the per-day points ordered by date. */
  function ChartData(data: Option<seq<string>>, title: string,
                     dayOf: string -> string, millisOf: string -> int): seq<Series>
  {
    if data.None? || |data.value| == 0 then []
    else
      var ds := DayList(data.value, dayOf);
      [Series(Lower(title), SortPoints(PointsOf(Distinct(ds), ds), millisOf))]
  }

  /** The `useMemo` body: the counting loop, then the points and the sort. */
  method ComputeChartData(data: Option<seq<string>>, title: string,
                          dayOf: string -> string, millisOf: string -> int)
    returns (chartData: seq<Series>)
    ensures chartData == ChartData(data, title, dayOf, millisOf)
  {
    if data.None? || |data.value| == 0 {
      return [];
    }
    var days, counts := DailyCounts(data.value, dayOf);
    var points := seq(|days|, i requires 0 <= i < |days| && days[i] in counts => Point(days[i], counts[days[i]]));
    ghost var ds := DayList(data.value, dayOf);
    assert points == PointsOf(Distinct(ds), ds);
    chartData := [Series(Lower(title), SortPoints(points, millisOf))];
  }

  /** The chart holds one series exactly when there are items. Its points
      are ordered by date, are the per-day points rearranged, and each
      carries a day of the items with that day's positive count. */
  lemma ChartMeaning(data: Option<seq<string>>, title: string,
                     dayOf: string -> string, millisOf: string -> int)
    ensures data.None? || |data.value| == 0 <==> ChartData(data, title, dayOf, millisOf) == []
    ensures data.Some? && |data.value| > 0 ==>
              var ds := DayList(data.value, dayOf);
              var chart := ChartData(data, title, dayOf, millisOf);
              && |chart| == 1
              && chart[0].id == Lower(title)
              && Sorting.SortedBy(chart[0].data, ByDate(millisOf))
              && multiset(chart[0].data) == multiset(PointsOf(Distinct(ds), ds))
              && forall p :: p in chart[0].data ==> p.x in ds && p.y == multiset(ds)[p.x] > 0
  {
    if data.Some? && |data.value| > 0 {
      var ds := DayList(data.value, dayOf);
      var points := PointsOf(Distinct(ds), ds);
      var chart := ChartData(data, title, dayOf, millisOf);
      PointsMeaning(ds);
      forall p | p in chart[0].data
        ensures p.x in ds && p.y == multiset(ds)[p.x] > 0
      {
        assert p in multiset(points);
        var i :| 0 <= i < |points| && points[i] == p;
      }
    }
  }
}
