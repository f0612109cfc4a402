/** The service's time-boxed cache: a map from keys to entries stamped with the time
    of writing and the calendar day they belong to, evicted lazily on read. The clock
    (`Date.now()`) and today's key (`getTodayKey()`) are parameters. */
module Cache {
  import opened Text
  import opened WeatherModel

  /** 10 minutes, in milliseconds: the lifetime of a current-conditions read. */
  const CacheTtl: int := 10 * 60 * 1000
  /** 3 hours, in milliseconds: the lifetime of a daily-forecast read. */
  const DailyCacheTtl: int := 3 * 60 * 60 * 1000

  /** `getTodayKey()` for the local date `year`, `month` (counted from 0) and `day`. */
  function TodayKey(year: nat, month: nat, day: nat): (k: string)
    ensures |k| >= 5 && forall i :: 0 <= i < |k| ==> IsDigit(k[i]) || k[i] == '-'
  {
    var y, m, d := NatToString(year), NatToString(month), NatToString(day);
    var k := y + "-" + m + "-" + d;
    assert forall i :: 0 <= i < |k| ==>
             k[i] == if i < |y| then y[i] else if i == |y| then '-' else if i < |y| + 1 + |m| then m[i - |y| - 1]
                     else if i == |y| + 1 + |m| then '-' else d[i - |y| - |m| - 2];
    k
  }

  /** Splitting at the first '-' of a string whose first part has no '-'. */
  lemma {:induction false} SplitAtDash(a: string, b: string, c: string, d: string)
    requires AllDigits(a) && AllDigits(c)
    requires a + "-" + b == c + "-" + d
    ensures a == c && b == d
  {
    var s := a + "-" + b;
    assert s[|a|] == '-' && s[|c|] == '-';
    assert a == s[..|a|] == c;
    assert b == s[|a| + 1..] == d;
  }

  /** Distinct dates have distinct keys, so a key read on another day never matches. */
  lemma TodayKeyInjective(y1: nat, m1: nat, d1: nat, y2: nat, m2: nat, d2: nat)
    requires TodayKey(y1, m1, d1) == TodayKey(y2, m2, d2)
    ensures y1 == y2 && m1 == m2 && d1 == d2
  {
    var a, b := NatToString(y1), NatToString(m1) + "-" + NatToString(d1);
    var c, d := NatToString(y2), NatToString(m2) + "-" + NatToString(d2);
    assert TodayKey(y1, m1, d1) == a + "-" + b;
    assert TodayKey(y2, m2, d2) == c + "-" + d;
    SplitAtDash(a, b, c, d);
    SplitAtDash(NatToString(m1), NatToString(d1), NatToString(m2), NatToString(d2));
    NatToStringInjective(y1, y2);
    NatToStringInjective(m1, m2);
    NatToStringInjective(d1, d2);
  }

  /** `{data, timestamp, dateKey}` as stored by `setCachedData`. */
  datatype Entry<D> = Entry(data: D, timestamp: int, dateKey: string)

  /** Whether `getCachedData` returns a stored entry: a daily read needs today's key
      and an age under 3 hours; a normal read only an age under 10 minutes. */
  predicate Fresh<D>(e: Entry<D>, isDailyForecast: bool, now: int, todayKey: string): (b: bool)
    ensures b ==> now - e.timestamp < DailyCacheTtl
    ensures isDailyForecast && b ==> e.dateKey == todayKey
    ensures now - e.timestamp < CacheTtl ==> (b <==> !isDailyForecast || e.dateKey == todayKey)
  {
    if isDailyForecast then e.dateKey == todayKey && now - e.timestamp < DailyCacheTtl
    else now - e.timestamp < CacheTtl
  }

  /** An entry written on one date is a daily-purpose miss on any other date, however
      young it is. */
  lemma DailyReadOtherDayMisses<D>(e: Entry<D>, now: int,
                                   y1: nat, m1: nat, d1: nat, y2: nat, m2: nat, d2: nat)
    requires e.dateKey == TodayKey(y1, m1, d1)
    requires (y1, m1, d1) != (y2, m2, d2)
    ensures !Fresh(e, true, now, TodayKey(y2, m2, d2))
  {
    if e.dateKey == TodayKey(y2, m2, d2) {
      TodayKeyInjective(y1, m1, d1, y2, m2, d2);
    }
  }

  /** A normal read is good for exactly the first 10 minutes after the write; a daily
      read for the first 3 hours of the same day. */
  lemma FreshWindow<D>(data: D, written: int, now: int, key: string, today: string)
    requires written <= now
    ensures Fresh(Entry(data, written, key), false, now, today) <==> now < written + CacheTtl
    ensures Fresh(Entry(data, written, key), true, now, today) <==>
            key == today && now < written + DailyCacheTtl
  {
  }

  /** The process-wide `cache` Map. */
  class TimedCache<D> {
    var entries: map<string, Entry<D>>

    constructor ()
      ensures entries == map[]
    {
      entries := map[];
    }

    /** `getCachedData(key, isDailyForecast)`: the stored data when the entry is fresh;
        otherwise null, and the entry (if any) is deleted. No other key changes. */
    method Get(key: string, isDailyForecast: bool, now: int, todayKey: string) returns (r: Option<D>)
      modifies this
      ensures r.Some? <==> key in old(entries) && Fresh(old(entries)[key], isDailyForecast, now, todayKey)
      ensures r.Some? ==> r.value == old(entries)[key].data && entries == old(entries)
      ensures r.None? ==> entries == old(entries) - {key}
    {
      if key !in entries {
        assert entries - {key} == entries;
        return None;
      }
      var cached := entries[key];
      if isDailyForecast {
        if cached.dateKey == todayKey && now - cached.timestamp < DailyCacheTtl {
          return Some(cached.data);
        }
        entries := entries - {key};
        return None;
      }
      if now - cached.timestamp < CacheTtl {
        return Some(cached.data);
      }
      entries := entries - {key};
      return None;
    }

    /** `setCachedData(key, data, isDailyForecast)`: overwrites exactly one key with the
        data, the clock and today's key. The purpose flag has no effect. */
    method Set(key: string, data: D, isDailyForecast: bool, now: int, todayKey: string)
      modifies this
      ensures entries == old(entries)[key := Entry(data, now, todayKey)]
    {
      entries := entries[key := Entry(data, now, todayKey)];
    }
  }
}
