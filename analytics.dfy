/** The analytics handlers (backend/internal/handlers/analytics_handler.go):
    each selects the caller's entries in a time window and adds their
    durations into buckets keyed by a formatted start time.

    Durations are added in whole seconds; the handlers' per-entry division
    by 3600 is related to that sum by `HoursAreSecondsOver3600`, in exact
    arithmetic. The current time enters only through the window's lower
    bound (`time.Now().AddDate(...)`), which is a parameter, and each
    `Format` layout is an abstract key function of the start time. */
module Analytics {
  import opened Models

  /** What a handler answers: the bucket totals (200) or an error (500). */
  datatype AnalyticsReply = Totals(totals: map<string, int>) | Failed(message: string)
  {
    function Status(): (code: nat)
      ensures code == 200 <==> this.Totals?
    {
      if this.Totals? then 200 else 500
    }
  }

  /** `totals[k] += d` on a Go map, where a missing key reads as zero. */
  function AddTo(m: map<string, int>, k: string, d: int): (r: map<string, int>)
    ensures r.Keys == m.Keys + {k}
    ensures r[k] == (if k in m then m[k] else 0) + d
    ensures forall j :: j in m && j != k ==> r[j] == m[j]
  {
    m[k := (if k in m then m[k] else 0) + d]
  }

  /** The totals once the loop has visited `es`, in order. */
  function SumByKey(es: seq<TimeEntry>, key: Instant -> string): map<string, int>
  {
    if es == [] then map[]
    else
      var last := es[|es| - 1];
      AddTo(SumByKey(es[..|es| - 1], key), key(last.startTime), last.duration)
  }

  /** The bucket loop shared by the five handlers. */
  method Aggregate(entries: seq<TimeEntry>, key: Instant -> string) returns (totals: map<string, int>)
    ensures totals == SumByKey(entries, key)
  {
    totals := map[];
    var i := 0;
    while i < |entries|
      invariant 0 <= i <= |entries|
      invariant totals == SumByKey(entries[..i], key)
    {
      var entry := entries[i];
      var k := key(entry.startTime);
      totals := totals[k := (if k in totals then totals[k] else 0) + entry.duration];
      assert entries[..i + 1][..i] == entries[..i];
      i := i + 1;
    }
    assert entries[..|entries|] == entries;
  }

  // ---------------------------------------------------------------------
  // Windows and handlers

  /** The four fixed windows: the caller's entries starting at or after the
      bound. */
  function SinceWindow(userId: nat, since: Instant): TimeEntry -> bool
  {
    (e: TimeEntry) => e.userId == userId && e.startTime >= since
  }

  /** The range window: the caller's entries starting between the two
      bounds, both included. */
  function RangeWindow(userId: nat, start: Instant, end: Instant): TimeEntry -> bool
  {
    (e: TimeEntry) => e.userId == userId && start <= e.startTime <= end
  }

  lemma WindowMembers(rows: seq<TimeEntry>, userId: nat, since: Instant, start: Instant, end: Instant, e: TimeEntry)
    ensures e in Where(rows, SinceWindow(userId, since)) <==> e in rows && e.userId == userId && e.startTime >= since
    ensures e in Where(rows, RangeWindow(userId, start, end)) <==>
              e in rows && e.userId == userId && start <= e.startTime && e.startTime <= end
  {
  }

  /** One handler: a failed query answers 500 with no totals, otherwise the
      buckets of the selected rows. */
  method Analyze(rows: seq<TimeEntry>, window: TimeEntry -> bool, key: Instant -> string, queryOk: bool)
    returns (reply: AnalyticsReply)
    ensures !queryOk ==> reply == Failed("Error fetching analytics")
    ensures queryOk ==> reply == Totals(SumByKey(Where(rows, window), key))
  {
    if !queryOk {
      return Failed("Error fetching analytics");
    }
    var entries := Where(rows, window);
    var totals := Aggregate(entries, key);
    reply := Totals(totals);
  }

  /** `GetDailyAnalytics`: the last day, by date. */
  method GetDailyAnalytics(rows: seq<TimeEntry>, userId: nat, dayAgo: Instant, dateKey: Instant -> string, queryOk: bool)
    returns (reply: AnalyticsReply)
    ensures !queryOk ==> reply == Failed("Error fetching analytics")
    ensures queryOk ==> reply == Totals(SumByKey(Where(rows, SinceWindow(userId, dayAgo)), dateKey))
  {
    reply := Analyze(rows, SinceWindow(userId, dayAgo), dateKey, queryOk);
  }

  /** `GetWeeklyAnalytics`: the last seven days, by weekday name. */
  method GetWeeklyAnalytics(rows: seq<TimeEntry>, userId: nat, weekAgo: Instant, weekdayKey: Instant -> string, queryOk: bool)
    returns (reply: AnalyticsReply)
    requires forall t :: weekdayKey(t) in Weekdays
    ensures !queryOk ==> reply == Failed("Error fetching analytics")
    ensures queryOk ==> reply == Totals(SumByKey(Where(rows, SinceWindow(userId, weekAgo)), weekdayKey))
    ensures queryOk ==> |reply.totals| <= 7
  {
    reply := Analyze(rows, SinceWindow(userId, weekAgo), weekdayKey, queryOk);
    if queryOk {
      WeeklyBuckets(Where(rows, SinceWindow(userId, weekAgo)), weekdayKey);
    }
  }

  /** `GetMonthlyAnalytics`: the last month, by month name. */
  method GetMonthlyAnalytics(rows: seq<TimeEntry>, userId: nat, monthAgo: Instant, monthKey: Instant -> string, queryOk: bool)
    returns (reply: AnalyticsReply)
    requires forall t :: monthKey(t) in Months
    ensures !queryOk ==> reply == Failed("Error fetching analytics")
    ensures queryOk ==> reply == Totals(SumByKey(Where(rows, SinceWindow(userId, monthAgo)), monthKey))
    ensures queryOk ==> |reply.totals| <= 12
  {
    reply := Analyze(rows, SinceWindow(userId, monthAgo), monthKey, queryOk);
    if queryOk {
      MonthlyBuckets(Where(rows, SinceWindow(userId, monthAgo)), monthKey);
    }
  }

  /** `GetRangeAnalytics`: the two query bounds, by date. */
  method GetRangeAnalytics(rows: seq<TimeEntry>, userId: nat, start: Instant, end: Instant,
                           dateKey: Instant -> string, queryOk: bool)
    returns (reply: AnalyticsReply)
    ensures !queryOk ==> reply == Failed("Error fetching analytics")
    ensures queryOk ==> reply == Totals(SumByKey(Where(rows, RangeWindow(userId, start, end)), dateKey))
  {
    reply := Analyze(rows, RangeWindow(userId, start, end), dateKey, queryOk);
  }

  /** `GetYearlyAnalytics`: the last year, by year. */
  method GetYearlyAnalytics(rows: seq<TimeEntry>, userId: nat, yearAgo: Instant, yearKey: Instant -> string, queryOk: bool)
    returns (reply: AnalyticsReply)
    ensures !queryOk ==> reply == Failed("Error fetching analytics")
    ensures queryOk ==> reply == Totals(SumByKey(Where(rows, SinceWindow(userId, yearAgo)), yearKey))
  {
    reply := Analyze(rows, SinceWindow(userId, yearAgo), yearKey, queryOk);
  }

  // ---------------------------------------------------------------------
  // Properties of the buckets

  /** The durations of the entries whose key is `k`. */
  function KeyTotal(es: seq<TimeEntry>, key: Instant -> string, k: string): int
  {
    if es == [] then 0
    else (if key(es[0].startTime) == k then es[0].duration else 0) + KeyTotal(es[1..], key, k)
  }

  lemma {:induction false} KeyTotalConcat(a: seq<TimeEntry>, b: seq<TimeEntry>, key: Instant -> string, k: string)
    ensures KeyTotal(a + b, key, k) == KeyTotal(a, key, k) + KeyTotal(b, key, k)
  {
    if a != [] {
      KeyTotalConcat(a[1..], b, key, k);
      assert (a + b)[1..] == a[1..] + b;
    } else {
      assert a + b == b;
    }
  }

  lemma {:induction false} KeyTotalAbsent(es: seq<TimeEntry>, key: Instant -> string, k: string)
    requires forall i :: 0 <= i < |es| ==> key(es[i].startTime) != k
    ensures KeyTotal(es, key, k) == 0
  {
    if es != [] {
      KeyTotalAbsent(es[1..], key, k);
    }
  }

  /** Adding an entry changes exactly one bucket, the one of its key, by its
      duration. */
  lemma OneBucketPerEntry(es: seq<TimeEntry>, e: TimeEntry, key: Instant -> string)
    ensures var before, after := SumByKey(es, key), SumByKey(es + [e], key);
            && after.Keys == before.Keys + {key(e.startTime)}
            && after[key(e.startTime)] == (if key(e.startTime) in before then before[key(e.startTime)] else 0) + e.duration
            && forall j :: j in before && j != key(e.startTime) ==> after[j] == before[j]
  {
    assert (es + [e])[..|es + [e]| - 1] == es;
  }

  /** A bucket exists exactly for the keys of the entries, and holds the
      durations of the entries with that key. */
  lemma BucketIsKeyTotal(es: seq<TimeEntry>, key: Instant -> string, k: string)
    ensures k in SumByKey(es, key) <==> exists i :: 0 <= i < |es| && key(es[i].startTime) == k
    ensures k in SumByKey(es, key) ==> SumByKey(es, key)[k] == KeyTotal(es, key, k)
  {
    BucketKeys(es, key, k);
    if k in SumByKey(es, key) {
      BucketValue(es, key, k);
    }
  }

  lemma {:induction false} BucketKeys(es: seq<TimeEntry>, key: Instant -> string, k: string)
    ensures k in SumByKey(es, key) <==> exists i :: 0 <= i < |es| && key(es[i].startTime) == k
  {
    if es != [] {
      var n := |es|;
      var init := es[..n - 1];
      BucketKeys(init, key, k);
      if k in SumByKey(init, key) {
        var i :| 0 <= i < |init| && key(init[i].startTime) == k;
        assert es[i] == init[i];
      }
      if exists i :: 0 <= i < |es| && key(es[i].startTime) == k {
        var i :| 0 <= i < |es| && key(es[i].startTime) == k;
        if i < n - 1 {
          assert init[i] == es[i];
        }
      }
    }
  }

  lemma {:induction false} BucketValue(es: seq<TimeEntry>, key: Instant -> string, k: string)
    requires k in SumByKey(es, key)
    ensures SumByKey(es, key)[k] == KeyTotal(es, key, k)
  {
    var n := |es|;
    var init, last := es[..n - 1], es[n - 1];
    assert es == init + [last];
    KeyTotalConcat(init, [last], key, k);
    assert KeyTotal([last], key, k) == if key(last.startTime) == k then last.duration else 0;
    if k in SumByKey(init, key) {
      BucketValue(init, key, k);
    } else {
      BucketKeys(init, key, k);
      KeyTotalAbsent(init, key, k);
    }
  }

  /** No entries, no buckets. */
  lemma NoEntriesNoBuckets(key: Instant -> string)
    ensures SumByKey([], key) == map[]
  {
  }

  /** Taking one entry out of a list takes its part out of each key's total. */
  lemma {:induction false} KeyTotalRemove(b: seq<TimeEntry>, j: nat, key: Instant -> string, k: string)
    requires j < |b|
    ensures KeyTotal(b, key, k)
              == (if key(b[j].startTime) == k then b[j].duration else 0) + KeyTotal(b[..j] + b[j + 1..], key, k)
  {
    assert b == b[..j] + ([b[j]] + b[j + 1..]);
    KeyTotalConcat(b[..j], [b[j]] + b[j + 1..], key, k);
    KeyTotalConcat([b[j]], b[j + 1..], key, k);
    KeyTotalConcat(b[..j], b[j + 1..], key, k);
    assert KeyTotal([b[j]], key, k) == (if key(b[j].startTime) == k then b[j].duration else 0) + KeyTotal([], key, k);
  }

  /** Taking one entry out of a list takes it out of the list's multiset. */
  lemma MultisetRemove(b: seq<TimeEntry>, j: nat)
    requires j < |b|
    ensures multiset(b[..j] + b[j + 1..]) == multiset(b) - multiset{b[j]}
  {
    assert b == b[..j] + [b[j]] + b[j + 1..];
    assert multiset(b) == multiset(b[..j]) + multiset([b[j]]) + multiset(b[j + 1..]);
  }

  lemma {:induction false} KeyTotalPermutation(a: seq<TimeEntry>, b: seq<TimeEntry>, key: Instant -> string, k: string)
    requires multiset(a) == multiset(b)
    ensures KeyTotal(a, key, k) == KeyTotal(b, key, k)
    decreases |a|
  {
    if a == [] {
      assert |b| == |multiset(b)| == 0;
    } else {
      var j := IndexOf(b, a[0]);
      var restA, restB := a[1..], b[..j] + b[j + 1..];
      RestsArePermutations(a, b, j);
      KeyTotalPermutation(restA, restB, key, k);
      KeyTotalRemove(b, j, key, k);
      assert KeyTotal(a, key, k) == (if key(a[0].startTime) == k then a[0].duration else 0) + KeyTotal(restA, key, k);
    }
  }

  /** Taking the first entry out of one list and the same entry out of a
      permutation of it leaves two permutations of each other. */
  lemma RestsArePermutations(a: seq<TimeEntry>, b: seq<TimeEntry>, j: nat)
    requires multiset(a) == multiset(b) && a != [] && j < |b| && b[j] == a[0]
    ensures multiset(a[1..]) == multiset(b[..j] + b[j + 1..])
  {
    MultisetRemove(b, j);
    assert a == [a[0]] + a[1..];
    assert multiset(a) == multiset{a[0]} + multiset(a[1..]);
  }

  /** A position at which an element of the list's multiset occurs. */
  lemma IndexOf(b: seq<TimeEntry>, x: TimeEntry) returns (j: nat)
    requires x in multiset(b)
    ensures j < |b| && b[j] == x
  {
    assert x in b;
    j :| 0 <= j < |b| && b[j] == x;
  }

  /** The totals do not depend on the order in which the query returns the
      entries. */
  lemma OrderIndependent(a: seq<TimeEntry>, b: seq<TimeEntry>, key: Instant -> string)
    requires multiset(a) == multiset(b)
    ensures SumByKey(a, key) == SumByKey(b, key)
  {
    var ma, mb := SumByKey(a, key), SumByKey(b, key);
    forall k
      ensures k in ma <==> k in mb
      ensures k in ma ==> ma[k] == mb[k]
    {
      BucketIsKeyTotal(a, key, k);
      BucketIsKeyTotal(b, key, k);
      if k in ma {
        var i :| 0 <= i < |a| && key(a[i].startTime) == k;
        assert a[i] in multiset(b);
        var j :| 0 <= j < |b| && b[j] == a[i];
        KeyTotalPermutation(a, b, key, k);
      }
      if k in mb {
        var j :| 0 <= j < |b| && key(b[j].startTime) == k;
        assert b[j] in multiset(a);
        var i :| 0 <= i < |a| && a[i] == b[j];
      }
    }
    assert ma.Keys == mb.Keys;
  }

  /** The sum of a map's values. */
  ghost function SumValues(m: map<string, int>): int
    decreases |m.Keys|
  {
    if m == map[] then 0
    else
      var k :| k in m;
      m[k] + SumValues(m - {k})
  }

  lemma {:induction false} SumValuesRemove(m: map<string, int>, k: string)
    requires k in m
    ensures SumValues(m) == m[k] + SumValues(m - {k})
    decreases |m.Keys|
  {
    var j :| j in m && SumValues(m) == m[j] + SumValues(m - {j});
    if j != k {
      assert (m - {j}).Keys == m.Keys - {j};
      assert |(m - {j}).Keys| < |m.Keys|;
      SumValuesRemove(m - {j}, k);
      assert (m - {k}).Keys == m.Keys - {k};
      assert |(m - {k}).Keys| < |m.Keys|;
      SumValuesRemove(m - {k}, j);
      assert m - {j} - {k} == m - {k} - {j};
    }
  }

  /** Conservation: the buckets together hold the durations of all the
      selected entries. */
  lemma {:induction false} Conservation(es: seq<TimeEntry>, key: Instant -> string)
    ensures SumValues(SumByKey(es, key)) == TotalDuration(es)
  {
    if es != [] {
      var init, last := es[..|es| - 1], es[|es| - 1];
      Conservation(init, key);
      var before := SumByKey(init, key);
      var k := key(last.startTime);
      var after := AddTo(before, k, last.duration);
      SumValuesRemove(after, k);
      if k in before {
        SumValuesRemove(before, k);
        assert after - {k} == before - {k};
      } else {
        assert after - {k} == before;
      }
    }
  }

  /** The weekday names `Format("Mon")` produces. */
  const Weekdays: seq<string> := ["Mon", "Tue", "Wed", "Thu", "Fri", "Sat", "Sun"]

  /** The month names `Format("Jan")` produces. */
  const Months: seq<string> := ["Jan", "Feb", "Mar", "Apr", "May", "Jun", "Jul", "Aug", "Sep", "Oct", "Nov", "Dec"]

  lemma {:induction false} SubsetCard(a: set<string>, b: set<string>)
    requires a <= b
    ensures |a| <= |b|
    decreases a
  {
    if a != {} {
      var x :| x in a;
      SubsetCard(a - {x}, b - {x});
    }
  }

  /** A list of names has at most as many distinct names as entries. */
  lemma {:induction false} NamesCard(names: seq<string>)
    ensures |set n | n in names| <= |names|
  {
    if names != [] {
      NamesCard(names[1..]);
      var rest := set n | n in names[1..];
      assert (set n | n in names) == rest + {names[0]};
      if names[0] in rest {
        assert rest + {names[0]} == rest;
      }
    }
  }

  /** Every bucket key is a name the format can produce. */
  lemma {:induction false} KeysWithin(es: seq<TimeEntry>, key: Instant -> string, names: seq<string>)
    requires forall t :: key(t) in names
    ensures SumByKey(es, key).Keys <= set n | n in names
  {
    if es != [] {
      KeysWithin(es[..|es| - 1], key, names);
    }
  }

  /** A format that produces one of a list of names makes at most as many
      buckets as the list has entries. */
  lemma BucketsWithin(es: seq<TimeEntry>, key: Instant -> string, names: seq<string>)
    requires forall t :: key(t) in names
    ensures |SumByKey(es, key)| <= |names|
  {
    KeysWithin(es, key, names);
    SubsetCard(SumByKey(es, key).Keys, set n | n in names);
    NamesCard(names);
  }

  /** Weekly totals have at most seven buckets. */
  lemma WeeklyBuckets(es: seq<TimeEntry>, weekdayKey: Instant -> string)
    requires forall t :: weekdayKey(t) in Weekdays
    ensures |SumByKey(es, weekdayKey)| <= 7
  {
    BucketsWithin(es, weekdayKey, Weekdays);
  }

  /** Monthly totals have at most twelve buckets. */
  lemma MonthlyBuckets(es: seq<TimeEntry>, monthKey: Instant -> string)
    requires forall t :: monthKey(t) in Months
    ensures |SumByKey(es, monthKey)| <= 12
  {
    BucketsWithin(es, monthKey, Months);
  }

  /** The handlers' own arithmetic in exact form: each entry adds its
      duration divided by 3600 to its bucket. */
  function HoursByKey(es: seq<TimeEntry>, key: Instant -> string): map<string, real>
  {
    if es == [] then map[]
    else
      var m := HoursByKey(es[..|es| - 1], key);
      var last := es[|es| - 1];
      var k := key(last.startTime);
      m[k := (if k in m then m[k] else 0.0) + last.duration as real / 3600.0]
  }

  /** Adding hours entry by entry gives the bucket's seconds over 3600. */
  lemma {:induction false} HoursAreSecondsOver3600(es: seq<TimeEntry>, key: Instant -> string)
    ensures HoursByKey(es, key).Keys == SumByKey(es, key).Keys
    ensures forall k :: k in HoursByKey(es, key) ==> HoursByKey(es, key)[k] == SumByKey(es, key)[k] as real / 3600.0
  {
    if es != [] {
      HoursAreSecondsOver3600(es[..|es| - 1], key);
    }
  }
}
