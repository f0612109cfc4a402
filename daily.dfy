/** `getDailyForecast`: 3-hour forecast samples grouped into calendar days, with a
    synthetic "today" when the forecast starts tomorrow, sorted, extended by one
    trend-extrapolated day when fewer than seven days exist, truncated to seven and
    rounded. A calendar day is `DayOf(t, localOffset)`, the local date of the
    timestamp `t` (seconds) in a zone `localOffset` seconds ahead of UTC. */
module Daily {
  import opened Numbers
  import opened WeatherModel

  const SecondsPerDay: int := 86400
  const MaxDays: nat := 7
  /** Share of the day-over-day temperature trend carried into the extrapolated day. */
  const TempTrendWeight: real := 0.7
  /** Share of the day-over-day precipitation trend carried into the extrapolated day. */
  const PopTrendWeight: real := 0.5

  function DayOf(t: int, localOffset: int): int
  {
    (t + localOffset) / SecondsPerDay
  }

  lemma DayOfMonotone(a: int, b: int, localOffset: int)
    requires a <= b
    ensures DayOf(a, localOffset) <= DayOf(b, localOffset)
  {
  }

  lemma DayOfNextDay(t: int, localOffset: int)
    ensures DayOf(t + SecondsPerDay, localOffset) == DayOf(t, localOffset) + 1
  {
  }

  /** A `dailyMap` value: the date of its first sample, every temperature seen, the
      representative condition and probability, running extremes, and the explicit
      average that only the extrapolated day carries. */
  datatype Group = Group(date: int, temps: seq<real>, weather: Condition, pop: real,
                         tempMin: real, tempMax: real, temp: Option<real>)

  /** The record created for the first sample of a day, before that sample is added. */
  function StartGroup(s: Sample): (g: Group)
    ensures var one := AddSample(g, s);
            one.date == s.dt && one.temps == [s.temp] && one.tempMin == one.tempMax == s.temp &&
            one.pop == PopOrZero(s) && one.weather == s.condition && one.temp.None?
  {
    Group(s.dt, [], s.condition, PopOrZero(s), s.temp, s.temp, None)
  }

  /** Adding one sample to its day: push the temperature, widen the extremes, and take
      the sample's condition and probability only when its probability is strictly
      higher (an absent probability never is). */
  function AddSample(g: Group, s: Sample): (r: Group)
    ensures r.date == g.date && r.temp == g.temp
  {
    var higher := s.pop.Some? && s.pop.value > g.pop;
    g.(temps := g.temps + [s.temp],
       tempMin := if s.temp < g.tempMin then s.temp else g.tempMin,
       tempMax := if s.temp > g.tempMax then s.temp else g.tempMax,
       pop := if higher then s.pop.value else g.pop,
       weather := if higher then s.condition else g.weather)
  }

  /** `dailyMap.has(dayKey)` / `dailyMap.get(dayKey)`: the position of the group of day `d`. */
  function FindDay(groups: seq<Group>, d: int, localOffset: int): (r: Option<nat>)
    ensures r.Some? ==> r.value < |groups| && DayOf(groups[r.value].date, localOffset) == d &&
                        forall j :: 0 <= j < r.value ==> DayOf(groups[j].date, localOffset) != d
    ensures r.None? ==> forall j :: 0 <= j < |groups| ==> DayOf(groups[j].date, localOffset) != d
  {
    if groups == [] then None
    else if DayOf(groups[0].date, localOffset) == d then Some(0)
    else match FindDay(groups[1..], d, localOffset)
      case None => None
      case Some(i) => Some(i + 1)
  }

  function Lookup(groups: seq<Group>, d: int, localOffset: int): Option<Group>
  {
    match FindDay(groups, d, localOffset)
    case None => None
    case Some(i) => Some(groups[i])
  }

  /** One iteration of the `forEach` over the samples. */
  function Absorb(groups: seq<Group>, s: Sample, localOffset: int): (r: seq<Group>)
    ensures FindDay(groups, DayOf(s.dt, localOffset), localOffset).None? ==>
              r == groups + [AddSample(StartGroup(s), s)]
    ensures FindDay(groups, DayOf(s.dt, localOffset), localOffset).Some? ==>
              var i := FindDay(groups, DayOf(s.dt, localOffset), localOffset).value;
              |r| == |groups| && r[i] == AddSample(groups[i], s) &&
              forall j :: 0 <= j < |groups| && j != i ==> r[j] == groups[j]
  {
    match FindDay(groups, DayOf(s.dt, localOffset), localOffset)
    case None => groups + [AddSample(StartGroup(s), s)]
    case Some(i) => groups[i := AddSample(groups[i], s)]
  }

  /** The `dailyMap` after the `forEach`, as a list in insertion order. */
  function GroupSamples(init: seq<Group>, samples: seq<Sample>, localOffset: int): seq<Group>
  {
    if samples == [] then init
    else Absorb(GroupSamples(init, samples[..|samples| - 1], localOffset), samples[|samples| - 1], localOffset)
  }

  /** Grouping adds at most one record per sample and keeps the initial records' dates. */
  lemma {:induction false} GroupSamplesGrowth(init: seq<Group>, samples: seq<Sample>, localOffset: int)
    ensures var r := GroupSamples(init, samples, localOffset);
            |init| <= |r| <= |init| + |samples| && forall j :: 0 <= j < |init| ==> r[j].date == init[j].date
  {
    if samples != [] {
      GroupSamplesGrowth(init, samples[..|samples| - 1], localOffset);
    }
  }

  /** `forecastList.some(item => sameDay(item, today))`. */
  predicate OnDay(samples: seq<Sample>, d: int, localOffset: int)
  {
    exists k :: 0 <= k < |samples| && DayOf(samples[k].dt, localOffset) == d
  }

  /** The synthetic "today": the snapshot's temperature, condition and extremes, and
      a zero probability. */
  function TodayGroup(c: Snapshot): Group
  {
    Group(c.dt, [c.temp], c.condition, 0.0, c.tempMin, c.tempMax, None)
  }

  /** `dailyMap` before the `forEach`. */
  function InitialGroups(samples: seq<Sample>, current: Option<Snapshot>, localOffset: int): (g: seq<Group>)
    ensures g != [] <==> current.Some? && !OnDay(samples, DayOf(current.value.dt, localOffset), localOffset)
    ensures g != [] ==> g == [TodayGroup(current.value)]
  {
    if current.Some? && !OnDay(samples, DayOf(current.value.dt, localOffset), localOffset)
    then [TodayGroup(current.value)] else []
  }

  // ---------------------------------------------------------------------------
  // What grouping computes for one day

  /** The samples of day `d`, in order. */
  function DaySamples(samples: seq<Sample>, d: int, localOffset: int): (r: seq<Sample>)
    ensures forall k :: 0 <= k < |r| ==> r[k] in samples && DayOf(r[k].dt, localOffset) == d
    ensures forall k :: 0 <= k < |samples| && DayOf(samples[k].dt, localOffset) == d ==> samples[k] in r
    ensures r == [] <==> !OnDay(samples, d, localOffset)
    ensures |samples| == 1 ==> r == if DayOf(samples[0].dt, localOffset) == d then samples else []
  {
    if samples == [] then []
    else
      var rest := DaySamples(samples[..|samples| - 1], d, localOffset);
      var last := samples[|samples| - 1];
      assert forall x :: x in samples[..|samples| - 1] ==> x in samples;
      assert !OnDay(samples[..|samples| - 1], d, localOffset) && DayOf(last.dt, localOffset) != d
             ==> !OnDay(samples, d, localOffset) by {
        if OnDay(samples, d, localOffset) && DayOf(last.dt, localOffset) != d {
          var k :| 0 <= k < |samples| && DayOf(samples[k].dt, localOffset) == d;
          assert samples[..|samples| - 1][k] == samples[k];
        }
      }
      assert forall k :: 0 <= k < |samples| - 1 ==> samples[k] == samples[..|samples| - 1][k];
      if DayOf(last.dt, localOffset) == d then rest + [last] else rest
  }

  /** Selecting a day's samples distributes over concatenation; with the one-sample
      case this keeps the day's samples in forecast order, each as often as it occurs. */
  lemma {:induction false} DaySamplesAppend(a: seq<Sample>, b: seq<Sample>, d: int, localOffset: int)
    ensures DaySamples(a + b, d, localOffset) == DaySamples(a, d, localOffset) + DaySamples(b, d, localOffset)
  {
    if b == [] {
      assert a + b == a;
    } else {
      var b', y := b[..|b| - 1], b[|b| - 1];
      var tail := if DayOf(y.dt, localOffset) == d then [y] else [];
      assert (a + b)[..|a + b| - 1] == a + b';
      assert (a + b)[|a + b| - 1] == y;
      assert DaySamples(a + b, d, localOffset) == DaySamples(a + b', d, localOffset) + tail;
      assert DaySamples(b, d, localOffset) == DaySamples(b', d, localOffset) + tail;
      DaySamplesAppend(a, b', d, localOffset);
      assert DaySamples(a, d, localOffset) + DaySamples(b', d, localOffset) + tail ==
             DaySamples(a, d, localOffset) + (DaySamples(b', d, localOffset) + tail);
    }
  }

  /** The synthetic today is shown with the current rounded temperature and extremes,
      the current condition and a zero probability. */
  lemma TodayShown(c: Snapshot)
    ensures Summarize(TodayGroup(c)) ==
            DailySummary(c.dt, Round(c.temp), Round(c.tempMin), Round(c.tempMax), c.condition, 0)
  {
    assert Sum([c.temp]) == c.temp by {
      assert [c.temp][..0] == [];
    }
  }

  /** The group a run of samples of one day produces. */
  function FoldDay(ds: seq<Sample>): Group
    requires |ds| > 0
  {
    if |ds| == 1 then AddSample(StartGroup(ds[0]), ds[0])
    else AddSample(FoldDay(ds[..|ds| - 1]), ds[|ds| - 1])
  }

  function Temps(ds: seq<Sample>): (r: seq<real>)
    ensures |r| == |ds| && forall k :: 0 <= k < |ds| ==> r[k] == ds[k].temp
  {
    seq(|ds|, k requires 0 <= k < |ds| => ds[k].temp)
  }

  lemma FindDaySameDates(g: seq<Group>, h: seq<Group>, d: int, localOffset: int)
    requires |g| == |h| && forall j :: 0 <= j < |g| ==> g[j].date == h[j].date
    ensures FindDay(g, d, localOffset) == FindDay(h, d, localOffset)
  {
    var a, b := FindDay(g, d, localOffset), FindDay(h, d, localOffset);
    if a.Some? && b.Some? {
      assert !(a.value < b.value) && !(b.value < a.value);
    }
  }

  lemma {:induction false} FindDayAppend(g: seq<Group>, x: Group, d: int, localOffset: int)
    ensures FindDay(g, d, localOffset).Some? ==> FindDay(g + [x], d, localOffset) == FindDay(g, d, localOffset)
    ensures FindDay(g, d, localOffset).None? && DayOf(x.date, localOffset) == d ==>
            FindDay(g + [x], d, localOffset) == Some(|g|)
    ensures FindDay(g, d, localOffset).None? && DayOf(x.date, localOffset) != d ==>
            FindDay(g + [x], d, localOffset).None?
  {
    if g != [] {
      assert (g + [x])[0] == g[0] && (g + [x])[1..] == g[1..] + [x];
      FindDayAppend(g[1..], x, d, localOffset);
    }
  }

  /** Absorbing a sample of another day leaves the group of day `d` where and as it was. */
  lemma AbsorbOtherDay(g: seq<Group>, s: Sample, d: int, localOffset: int)
    requires DayOf(s.dt, localOffset) != d
    ensures Lookup(Absorb(g, s, localOffset), d, localOffset) == Lookup(g, d, localOffset)
  {
    var e := DayOf(s.dt, localOffset);
    match FindDay(g, e, localOffset)
    case None =>
      FindDayAppend(g, AddSample(StartGroup(s), s), d, localOffset);
      var f := FindDay(g, d, localOffset);
      if f.Some? {
        assert (g + [AddSample(StartGroup(s), s)])[f.value] == g[f.value];
      }
    case Some(i) =>
      var h := g[i := AddSample(g[i], s)];
      FindDaySameDates(g, h, d, localOffset);
  }

  /** Grouping, looked up by day: a day without samples keeps its initial group (or
      has none), and a day with samples that had no initial group gets exactly the
      group its own samples fold to. */
  lemma {:induction false} GroupOfDay(init: seq<Group>, samples: seq<Sample>, d: int, localOffset: int)
    ensures DaySamples(samples, d, localOffset) == [] ==>
            Lookup(GroupSamples(init, samples, localOffset), d, localOffset) == Lookup(init, d, localOffset)
    ensures DaySamples(samples, d, localOffset) != [] && Lookup(init, d, localOffset).None? ==>
            Lookup(GroupSamples(init, samples, localOffset), d, localOffset) ==
            Some(FoldDay(DaySamples(samples, d, localOffset)))
  {
    if samples != [] {
      var prefix := samples[..|samples| - 1];
      var x := samples[|samples| - 1];
      var g := GroupSamples(init, prefix, localOffset);
      GroupOfDay(init, prefix, d, localOffset);
      if DayOf(x.dt, localOffset) != d {
        AbsorbOtherDay(g, x, d, localOffset);
      } else if DaySamples(prefix, d, localOffset) == [] {
        if Lookup(init, d, localOffset).None? {
          FindDayAppend(g, AddSample(StartGroup(x), x), d, localOffset);
          assert DaySamples(samples, d, localOffset) == [x];
        }
      } else if Lookup(init, d, localOffset).None? {
        var i := FindDay(g, d, localOffset).value;
        var h := g[i := AddSample(g[i], x)];
        FindDaySameDates(g, h, d, localOffset);
        var ds := DaySamples(samples, d, localOffset);
        assert ds[..|ds| - 1] == DaySamples(prefix, d, localOffset);
      }
    }
  }

  /** Today's synthetic group survives grouping untouched when no sample is on today. */
  lemma TodayGroupKept(samples: seq<Sample>, current: Snapshot, localOffset: int)
    requires !OnDay(samples, DayOf(current.dt, localOffset), localOffset)
    ensures Lookup(GroupSamples(InitialGroups(samples, Some(current), localOffset), samples, localOffset),
                   DayOf(current.dt, localOffset), localOffset) == Some(TodayGroup(current))
  {
    GroupOfDay(InitialGroups(samples, Some(current), localOffset), samples, DayOf(current.dt, localOffset), localOffset);
  }

  /** A synthetic "today" is only added when no sample falls on today. */
  lemma NoTodayGroupWhenForecastCoversToday(samples: seq<Sample>, current: Option<Snapshot>, localOffset: int)
    requires current.Some? ==> OnDay(samples, DayOf(current.value.dt, localOffset), localOffset)
    ensures InitialGroups(samples, current, localOffset) == []
  {
  }

  lemma {:induction false} FoldDayTemps(ds: seq<Sample>)
    requires |ds| > 0
    ensures FoldDay(ds).date == ds[0].dt && FoldDay(ds).temp.None?
    ensures FoldDay(ds).temps == Temps(ds)
  {
    if |ds| > 1 {
      var prefix := ds[..|ds| - 1];
      FoldDayTemps(prefix);
      assert Temps(ds) == Temps(prefix) + [ds[|ds| - 1].temp];
    }
  }

  lemma {:induction false} FoldDayMin(ds: seq<Sample>)
    requires |ds| > 0
    ensures FoldDay(ds).tempMin == MinOf(Temps(ds))
  {
    if |ds| > 1 {
      var prefix := ds[..|ds| - 1];
      FoldDayMin(prefix);
      assert Temps(ds)[..|ds| - 1] == Temps(prefix);
    }
  }

  lemma {:induction false} FoldDayMax(ds: seq<Sample>)
    requires |ds| > 0
    ensures FoldDay(ds).tempMax == MaxOf(Temps(ds))
  {
    if |ds| > 1 {
      var prefix := ds[..|ds| - 1];
      FoldDayMax(prefix);
      assert Temps(ds)[..|ds| - 1] == Temps(prefix);
    }
  }

  /** The extremes of a day are the least and greatest of its sample temperatures, and
      the group keeps every temperature, in order. */
  lemma FoldDayExtremes(ds: seq<Sample>)
    requires |ds| > 0
    ensures FoldDay(ds).date == ds[0].dt && FoldDay(ds).temp.None?
    ensures FoldDay(ds).temps == Temps(ds)
    ensures FoldDay(ds).tempMin == MinOf(Temps(ds))
    ensures FoldDay(ds).tempMax == MaxOf(Temps(ds))
  {
    FoldDayTemps(ds);
    FoldDayMin(ds);
    FoldDayMax(ds);
  }

  /** `j` is the first sample of `ds` with the highest probability (absent counting 0). */
  predicate FirstMaxPop(ds: seq<Sample>, j: int)
  {
    0 <= j < |ds| &&
    (forall k :: 0 <= k < |ds| ==> PopOrZero(ds[k]) <= PopOrZero(ds[j])) &&
    (forall k :: 0 <= k < j ==> PopOrZero(ds[k]) < PopOrZero(ds[j]))
  }

  lemma {:induction false} RepresentativeIndex(ds: seq<Sample>) returns (j: nat)
    requires |ds| > 0 && PopsInRange(ds)
    ensures FirstMaxPop(ds, j)
    ensures FoldDay(ds).weather == ds[j].condition && FoldDay(ds).pop == PopOrZero(ds[j])
  {
    if |ds| == 1 {
      j := 0;
    } else {
      var prefix := ds[..|ds| - 1];
      var x := ds[|ds| - 1];
      assert PopsInRange(prefix) by {
        forall k | 0 <= k < |prefix| ensures PopInRange(prefix[k]) {
          assert prefix[k] == ds[k];
        }
      }
      var i := RepresentativeIndex(prefix);
      assert PopInRange(x) && PopInRange(ds[i]);
      if x.pop.Some? && x.pop.value > FoldDay(prefix).pop {
        j := |ds| - 1;
      } else {
        j := i;
      }
      assert forall k :: 0 <= k < |prefix| ==> prefix[k] == ds[k];
    }
  }

  /** The representative condition and probability of a day come from its first sample
      with the highest probability: later samples replace it only when strictly higher. */
  lemma DayRepresentative(ds: seq<Sample>)
    requires |ds| > 0 && PopsInRange(ds)
    ensures exists j :: FirstMaxPop(ds, j) && FoldDay(ds).weather == ds[j].condition &&
                        FoldDay(ds).pop == PopOrZero(ds[j])
  {
    var j := RepresentativeIndex(ds);
  }

  // ---------------------------------------------------------------------------
  // Invariants of the grouped list

  /** No two groups share a calendar day: `dailyMap` is keyed by day. */
  predicate DistinctDays(g: seq<Group>, localOffset: int)
  {
    forall i, j :: 0 <= i < j < |g| ==> DayOf(g[i].date, localOffset) != DayOf(g[j].date, localOffset)
  }

  predicate TempsNonEmpty(g: seq<Group>)
  {
    forall k :: 0 <= k < |g| ==> |g[k].temps| > 0
  }

  predicate PopsValid(g: seq<Group>)
  {
    forall k :: 0 <= k < |g| ==> 0.0 <= g[k].pop <= 1.0
  }

  lemma AbsorbKeepsInvariants(g: seq<Group>, s: Sample, localOffset: int)
    requires DistinctDays(g, localOffset) && TempsNonEmpty(g)
    ensures DistinctDays(Absorb(g, s, localOffset), localOffset) && TempsNonEmpty(Absorb(g, s, localOffset))
    ensures PopsValid(g) && PopInRange(s) ==> PopsValid(Absorb(g, s, localOffset))
    ensures |g| <= |Absorb(g, s, localOffset)|
  {
  }

  lemma {:induction false} GroupSamplesInvariants(init: seq<Group>, samples: seq<Sample>, localOffset: int)
    requires DistinctDays(init, localOffset) && TempsNonEmpty(init)
    ensures DistinctDays(GroupSamples(init, samples, localOffset), localOffset)
    ensures TempsNonEmpty(GroupSamples(init, samples, localOffset))
    ensures PopsValid(init) && PopsInRange(samples) ==> PopsValid(GroupSamples(init, samples, localOffset))
    ensures samples != [] ==> |GroupSamples(init, samples, localOffset)| > 0
  {
    if samples != [] {
      var prefix := samples[..|samples| - 1];
      GroupSamplesInvariants(init, prefix, localOffset);
      AbsorbKeepsInvariants(GroupSamples(init, prefix, localOffset), samples[|samples| - 1], localOffset);
      assert PopsInRange(samples) ==> PopsInRange(prefix) && PopInRange(samples[|samples| - 1]) by {
        if PopsInRange(samples) {
          forall k | 0 <= k < |prefix| ensures PopInRange(prefix[k]) {
            assert prefix[k] == samples[k];
          }
        }
      }
    }
  }

  // ---------------------------------------------------------------------------
  // Sorting by date

  predicate SortedByDate(g: seq<Group>)
  {
    forall i, j :: 0 <= i < j < |g| ==> g[i].date <= g[j].date
  }

  /** One step of a stable sort by ascending date. */
  function InsertByDate(x: Group, s: seq<Group>): (r: seq<Group>)
    ensures multiset(r) == multiset(s) + multiset{x}
  {
    if s == [] || x.date <= s[0].date then [x] + s
    else
      assert s == [s[0]] + s[1..];
      [s[0]] + InsertByDate(x, s[1..])
  }

  lemma InsertAfterHead(x: Group, s: seq<Group>, localOffset: int)
    requires s != [] && x.date > s[0].date
    requires SortedByDate(s) && DistinctDays(s, localOffset)
    requires forall k :: 0 <= k < |s| ==> DayOf(s[k].date, localOffset) != DayOf(x.date, localOffset)
    ensures forall k :: 0 <= k < |InsertByDate(x, s[1..])| ==>
              s[0].date <= InsertByDate(x, s[1..])[k].date &&
              DayOf(s[0].date, localOffset) != DayOf(InsertByDate(x, s[1..])[k].date, localOffset)
  {
    var tail := s[1..];
    var r := InsertByDate(x, tail);
    forall k | 0 <= k < |r|
      ensures s[0].date <= r[k].date && DayOf(s[0].date, localOffset) != DayOf(r[k].date, localOffset)
    {
      assert r[k] in multiset(tail) + multiset{x};
      if r[k] != x {
        var m :| 0 <= m < |tail| && tail[m] == r[k];
        assert s[m + 1] == r[k];
      }
    }
  }

  /** Putting in front a group no later than, and on another day than, every group of
      a sorted list of distinct days keeps it so. */
  lemma ConsKeepsOrder(h: Group, rest: seq<Group>, localOffset: int)
    requires SortedByDate(rest) && DistinctDays(rest, localOffset)
    requires forall k :: 0 <= k < |rest| ==>
               h.date <= rest[k].date && DayOf(h.date, localOffset) != DayOf(rest[k].date, localOffset)
    ensures SortedByDate([h] + rest) && DistinctDays([h] + rest, localOffset)
  {
    var r := [h] + rest;
    forall i, j | 0 <= i < j < |r|
      ensures r[i].date <= r[j].date && DayOf(r[i].date, localOffset) != DayOf(r[j].date, localOffset)
    {
      assert r[j] == rest[j - 1];
      if i > 0 {
        assert r[i] == rest[i - 1];
      }
    }
  }

  lemma {:induction false} InsertKeepsOrder(x: Group, s: seq<Group>, localOffset: int)
    requires SortedByDate(s) && DistinctDays(s, localOffset)
    requires forall k :: 0 <= k < |s| ==> DayOf(s[k].date, localOffset) != DayOf(x.date, localOffset)
    ensures SortedByDate(InsertByDate(x, s)) && DistinctDays(InsertByDate(x, s), localOffset)
  {
    if s != [] && x.date > s[0].date {
      var tail := s[1..];
      assert SortedByDate(tail) && DistinctDays(tail, localOffset) by {
        forall i, j | 0 <= i < j < |tail|
          ensures tail[i].date <= tail[j].date && DayOf(tail[i].date, localOffset) != DayOf(tail[j].date, localOffset)
        {
          assert tail[i] == s[i + 1] && tail[j] == s[j + 1];
        }
      }
      InsertKeepsOrder(x, tail, localOffset);
      InsertAfterHead(x, s, localOffset);
      ConsKeepsOrder(s[0], InsertByDate(x, tail), localOffset);
    } else {
      ConsKeepsOrder(x, s, localOffset);
    }
  }

  /** `.sort((a, b) => a.date - b.date)`: a permutation, ascending by date. */
  function SortByDate(s: seq<Group>): (r: seq<Group>)
    ensures multiset(r) == multiset(s)
  {
    if s == [] then []
    else
      assert s == [s[0]] + s[1..];
      InsertByDate(s[0], SortByDate(s[1..]))
  }

  /** Sorting by date lists distinct days in strictly ascending order. */
  lemma {:induction false} SortByDateAscending(s: seq<Group>, localOffset: int)
    requires DistinctDays(s, localOffset)
    ensures SortedByDate(SortByDate(s)) && DistinctDays(SortByDate(s), localOffset)
    ensures forall i, j :: 0 <= i < j < |SortByDate(s)| ==>
              DayOf(SortByDate(s)[i].date, localOffset) < DayOf(SortByDate(s)[j].date, localOffset)
  {
    if s != [] {
      var tail := s[1..];
      assert DistinctDays(tail, localOffset) by {
        forall i, j | 0 <= i < j < |tail|
          ensures DayOf(tail[i].date, localOffset) != DayOf(tail[j].date, localOffset)
        {
          assert tail[i] == s[i + 1] && tail[j] == s[j + 1];
        }
      }
      SortByDateAscending(tail, localOffset);
      var sorted := SortByDate(tail);
      forall k | 0 <= k < |sorted| ensures DayOf(sorted[k].date, localOffset) != DayOf(s[0].date, localOffset) {
        assert sorted[k] in multiset(tail);
        var m :| 0 <= m < |tail| && tail[m] == sorted[k];
        assert s[m + 1] == sorted[k];
      }
      InsertKeepsOrder(s[0], sorted, localOffset);
    }
    var r := SortByDate(s);
    forall i, j | 0 <= i < j < |r|
      ensures DayOf(r[i].date, localOffset) < DayOf(r[j].date, localOffset)
    {
      DayOfMonotone(r[i].date, r[j].date, localOffset);
    }
  }

  lemma SortedMembers(s: seq<Group>)
    ensures TempsNonEmpty(s) ==> TempsNonEmpty(SortByDate(s))
    ensures PopsValid(s) ==> PopsValid(SortByDate(s))
    ensures |SortByDate(s)| == |s|
  {
    var r := SortByDate(s);
    assert |r| == |multiset(r)| == |multiset(s)| == |s|;
    forall k | 0 <= k < |r| ensures exists m :: 0 <= m < |s| && s[m] == r[k] {
      assert r[k] in multiset(s);
    }
  }

  // ---------------------------------------------------------------------------
  // Extrapolation and output

  datatype Trend = Trend(temp: real, tempMin: real, tempMax: real, pop: real)

  /** Day-over-day change between the last two groups; zero with a single group. */
  function TrendOf(g: seq<Group>): (t: Trend)
    requires |g| > 0 && TempsNonEmpty(g)
    ensures |g| == 1 ==> t == Trend(0.0, 0.0, 0.0, 0.0)
    ensures |g| >= 2 ==>
              var last, prev := g[|g| - 1], g[|g| - 2];
              Mean(prev.temps) + t.temp == Mean(last.temps) &&
              prev.tempMin + t.tempMin == last.tempMin && prev.tempMax + t.tempMax == last.tempMax &&
              prev.pop + t.pop == last.pop
  {
    if |g| >= 2 then
      var last, prev := g[|g| - 1], g[|g| - 2];
      Trend(Mean(last.temps) - Mean(prev.temps), last.tempMin - prev.tempMin,
            last.tempMax - prev.tempMax, last.pop - prev.pop)
    else Trend(0.0, 0.0, 0.0, 0.0)
  }

  /** The one extra day appended after the last: a day later, 70% of the temperature
      trends and 50% of the probability trend (clamped to [0, 1]) added to the last
      day, and the last day's condition. */
  function ExtrapolatedDay(g: seq<Group>): (x: Group)
    requires |g| > 0 && TempsNonEmpty(g)
    ensures x.date == g[|g| - 1].date + SecondsPerDay && x.weather == g[|g| - 1].weather
    ensures x.temps == [Mean(g[|g| - 1].temps) + TrendOf(g).temp * TempTrendWeight]
    ensures x.temp == Some(x.temps[0])
    ensures x.tempMin == g[|g| - 1].tempMin + TrendOf(g).tempMin * TempTrendWeight
    ensures x.tempMax == g[|g| - 1].tempMax + TrendOf(g).tempMax * TempTrendWeight
    ensures x.pop == Clamp01(g[|g| - 1].pop + TrendOf(g).pop * PopTrendWeight)
  {
    var last := g[|g| - 1];
    var trend := TrendOf(g);
    var avg := Mean(last.temps) + trend.temp * TempTrendWeight;
    Group(last.date + SecondsPerDay, [avg], last.weather,
          Clamp01(last.pop + trend.pop * PopTrendWeight),
          last.tempMin + trend.tempMin * TempTrendWeight,
          last.tempMax + trend.tempMax * TempTrendWeight, Some(avg))
  }

  /** Appends the extrapolated day when there are between one and six days. */
  function Extrapolate(g: seq<Group>): (r: seq<Group>)
    requires TempsNonEmpty(g)
    ensures 0 < |g| < MaxDays ==> r == g + [ExtrapolatedDay(g)]
    ensures |g| == 0 || |g| >= MaxDays ==> r == g
  {
    if 0 < |g| < MaxDays then g + [ExtrapolatedDay(g)] else g
  }

  /** A single day is extended flat: same average and extremes, probability clamped. */
  lemma SingleDayFlat(g: seq<Group>)
    requires |g| == 1 && TempsNonEmpty(g)
    ensures Extrapolate(g)[1].temps == [Mean(g[0].temps)]
    ensures Extrapolate(g)[1].tempMin == g[0].tempMin && Extrapolate(g)[1].tempMax == g[0].tempMax
    ensures Extrapolate(g)[1].pop == Clamp01(g[0].pop)
  {
  }

  /** Two days with mean temperatures 10 and 14 extrapolate to a third of 16.8, shown as 17. */
  lemma TrendExample(g: seq<Group>)
    requires |g| == 2 && TempsNonEmpty(g)
    requires Mean(g[0].temps) == 10.0 && Mean(g[1].temps) == 14.0
    ensures Extrapolate(g)[2].temps == [16.8]
    ensures Summarize(Extrapolate(g)[2]).temp == 17
  {
    assert Round(16.8) == 17;
  }

  /** The `.map` of the result: the average (an explicit non-zero `temp`, else the mean
      of `temps`, else 0), the extremes and the probability as rounded integers. */
  function Summarize(g: Group): (d: DailySummary)
    ensures d.date == g.date && d.weather == g.weather
    ensures d.tempMin == Round(g.tempMin) && d.tempMax == Round(g.tempMax)
    ensures d.pop == Round(g.pop * 100.0)
    ensures 0.0 <= g.pop <= 1.0 ==> 0 <= d.pop <= 100
  {
    assert 0.0 <= g.pop <= 1.0 ==> 0 <= Round(g.pop * 100.0) <= 100 by {
      if 0.0 <= g.pop <= 1.0 {
        PercentBounds(g.pop);
      }
    }
    var avg := if g.temp.Some? && g.temp.value != 0.0 then g.temp.value
               else if |g.temps| > 0 then Mean(g.temps) else 0.0;
    DailySummary(g.date, Round(avg), Round(g.tempMin), Round(g.tempMax), g.weather, Round(g.pop * 100.0))
  }

  /** Whether or not a group carries an explicit average, the shown temperature is the
      rounded mean of its temperatures (for the extrapolated day, `temps` is `[temp]`). */
  lemma SummarizeAverage(g: Group)
    requires |g.temps| > 0
    requires g.temp.Some? ==> g.temps == [g.temp.value]
    ensures Summarize(g).temp == Round(Mean(g.temps))
  {
    if g.temp.Some? {
      assert Sum(g.temps) == g.temp.value by {
        assert g.temps[..0] == [];
      }
    }
  }

  /** Calendar days strictly increase along the list. */
  predicate AscendingDays(g: seq<Group>, localOffset: int)
  {
    forall i, j :: 0 <= i < j < |g| ==> DayOf(g[i].date, localOffset) < DayOf(g[j].date, localOffset)
  }

  /** The extrapolated day falls on the day after the last, so the order is kept. */
  lemma ExtrapolateKeepsOrder(g: seq<Group>, localOffset: int)
    requires TempsNonEmpty(g) && AscendingDays(g, localOffset)
    ensures AscendingDays(Extrapolate(g), localOffset)
    ensures PopsValid(g) ==> PopsValid(Extrapolate(g))
    ensures |g| > 0 ==> |Extrapolate(g)| > 0
  {
    if 0 < |g| < MaxDays {
      var r := Extrapolate(g);
      var last := |g| - 1;
      DayOfNextDay(g[last].date, localOffset);
      forall i, j | 0 <= i < j < |r| ensures DayOf(r[i].date, localOffset) < DayOf(r[j].date, localOffset) {
        if j == |g| && i < last {
          assert DayOf(g[i].date, localOffset) < DayOf(g[last].date, localOffset);
        }
      }
    }
  }

  /** `.slice(0, 7).map(...)`: the first seven groups, summarized. */
  function Finish(days: seq<Group>): (r: seq<DailySummary>)
    ensures |r| == if |days| < MaxDays then |days| else MaxDays
    ensures forall i :: 0 <= i < |r| ==> r[i] == Summarize(days[i])
  {
    var n := if |days| < MaxDays then |days| else MaxDays;
    seq(n, i requires 0 <= i < n => Summarize(days[i]))
  }

  lemma FinishKeepsOrder(days: seq<Group>, localOffset: int)
    requires AscendingDays(days, localOffset)
    ensures forall i, j :: 0 <= i < j < |Finish(days)| ==>
              DayOf(Finish(days)[i].date, localOffset) < DayOf(Finish(days)[j].date, localOffset)
    ensures PopsValid(days) ==> forall i :: 0 <= i < |Finish(days)| ==> 0 <= Finish(days)[i].pop <= 100
  {
  }

  /** The records present before the loop satisfy the grouping invariants. */
  lemma InitialGroupsValid(samples: seq<Sample>, current: Option<Snapshot>, localOffset: int)
    ensures var init := InitialGroups(samples, current, localOffset);
            DistinctDays(init, localOffset) && TempsNonEmpty(init) && PopsValid(init)
  {
  }

  /** The groups after grouping and sorting, before extrapolation. */
  function SortedGroups(samples: seq<Sample>, current: Option<Snapshot>, localOffset: int): (g: seq<Group>)
    ensures TempsNonEmpty(g) && AscendingDays(g, localOffset)
    ensures samples != [] ==> |g| > 0
    ensures PopsInRange(samples) ==> PopsValid(g)
  {
    var init := InitialGroups(samples, current, localOffset);
    var groups := GroupSamples(init, samples, localOffset);
    InitialGroupsValid(samples, current, localOffset);
    GroupSamplesInvariants(init, samples, localOffset);
    SortedMembers(groups);
    SortByDateAscending(groups, localOffset);
    SortByDate(groups)
  }

  /** `getDailyForecast(forecastList, currentWeather)`. */
  function DailyForecastOf(samples: seq<Sample>, current: Option<Snapshot>, localOffset: int): (r: seq<DailySummary>)
    ensures r == [] <==> samples == []
    ensures |r| <= MaxDays
  {
    if samples == [] then []
    else
      ExtrapolateKeepsOrder(SortedGroups(samples, current, localOffset), localOffset);
      Finish(Extrapolate(SortedGroups(samples, current, localOffset)))
  }

  /** The daily outlook: empty without samples; otherwise between one and seven days,
      strictly ascending by calendar day, with every probability a percentage. */
  lemma DailyForecastShape(samples: seq<Sample>, current: Option<Snapshot>, localOffset: int)
    ensures samples == [] ==> DailyForecastOf(samples, current, localOffset) == []
    ensures samples != [] ==> 1 <= |DailyForecastOf(samples, current, localOffset)| <= MaxDays
    ensures forall i, j :: 0 <= i < j < |DailyForecastOf(samples, current, localOffset)| ==>
              DayOf(DailyForecastOf(samples, current, localOffset)[i].date, localOffset) <
              DayOf(DailyForecastOf(samples, current, localOffset)[j].date, localOffset)
    ensures PopsInRange(samples) ==>
              forall i :: 0 <= i < |DailyForecastOf(samples, current, localOffset)| ==>
                0 <= DailyForecastOf(samples, current, localOffset)[i].pop <= 100
  {
    if samples != [] {
      var sorted := SortedGroups(samples, current, localOffset);
      ExtrapolateKeepsOrder(sorted, localOffset);
      FinishKeepsOrder(Extrapolate(sorted), localOffset);
    }
  }

  /** The in-place updates of `dayData` for one sample. */
  method AddToDay(g: Group, item: Sample) returns (dayData: Group)
    ensures dayData == AddSample(g, item)
  {
    dayData := g;
    dayData := dayData.(temps := dayData.temps + [item.temp]);
    if item.temp < dayData.tempMin {
      dayData := dayData.(tempMin := item.temp);
    }
    if item.temp > dayData.tempMax {
      dayData := dayData.(tempMax := item.temp);
    }
    if item.pop.Some? && item.pop.value > dayData.pop {
      dayData := dayData.(pop := item.pop.value, weather := item.condition);
    }
  }

  /** The `forEach` over the samples, updating `dailyMap` one sample at a time. */
  method GroupForecast(init: seq<Group>, samples: seq<Sample>, localOffset: int)
    returns (dailyMap: seq<Group>)
    ensures dailyMap == GroupSamples(init, samples, localOffset)
  {
    dailyMap := init;
    var i := 0;
    while i < |samples|
      invariant 0 <= i <= |samples|
      invariant dailyMap == GroupSamples(init, samples[..i], localOffset)
    {
      var item := samples[i];
      ghost var before := dailyMap;
      var dayKey := DayOf(item.dt, localOffset);
      var found := FindDay(dailyMap, dayKey, localOffset);
      var at: nat;
      if found.None? {
        dailyMap := dailyMap + [StartGroup(item)];
        at := |dailyMap| - 1;
      } else {
        at := found.value;
      }
      var dayData := AddToDay(dailyMap[at], item);
      dailyMap := dailyMap[at := dayData];
      assert found.None? ==> dailyMap == before + [dayData];
      assert dailyMap == Absorb(before, item, localOffset);
      assert samples[..i + 1][..i] == samples[..i];
      i := i + 1;
    }
    assert samples[..|samples|] == samples;
  }

  /** `getDailyForecast`, filling `dailyMap` in a loop over the samples as the source
      does, then sorting, extrapolating, truncating and rounding. */
  method DailyForecast(samples: seq<Sample>, current: Option<Snapshot>, localOffset: int)
    returns (days: seq<DailySummary>)
    ensures days == DailyForecastOf(samples, current, localOffset)
    ensures samples == [] ==> days == []
    ensures samples != [] ==> 1 <= |days| <= MaxDays
    ensures forall i, j :: 0 <= i < j < |days| ==>
              DayOf(days[i].date, localOffset) < DayOf(days[j].date, localOffset)
    ensures PopsInRange(samples) ==> forall i :: 0 <= i < |days| ==> 0 <= days[i].pop <= 100
  {
    if |samples| == 0 {
      DailyForecastShape(samples, current, localOffset);
      return [];
    }
    var dailyMap: seq<Group> := [];
    if current.Some? {
      var todayKey := DayOf(current.value.dt, localOffset);
      if !OnDay(samples, todayKey, localOffset) {
        dailyMap := [TodayGroup(current.value)];
      }
    }
    dailyMap := GroupForecast(dailyMap, samples, localOffset);
    var sortedDays := SortByDate(dailyMap);
    assert sortedDays == SortedGroups(samples, current, localOffset);
    days := Finish(Extrapolate(sortedDays));
    DailyForecastShape(samples, current, localOffset);
  }
}
