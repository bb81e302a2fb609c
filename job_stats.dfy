/** The statistics half of the jobs controller (`showStats`): counts of a
    user's jobs per status, and the number of jobs created in each of the
    six most recent months that have any. */
module JobStats {
  import opened Aggregation

  /** The stages of an application. */
  datatype Status = Pending | Interview | Declined

  /** A calendar month, the `{ year, month }` grouping key of the monthly
      series (`$year` and `$month` of `createdAt`). */
  datatype MonthKey = MonthKey(year: int, month: int)

  /** The `defaultStats` object: always exactly these three keys. */
  datatype StatusStats = StatusStats(pending: nat, interview: nat, declined: nat)

  /** `stats.<status> || 0`: the reduced count, or 0 when the status has no
      jobs (a count of 0 is falsy too, and gives 0 either way). */
  function CountOr0(stats: map<Status, nat>, s: Status): nat
  {
    if s in stats && stats[s] != 0 then stats[s] else 0
  }

  /** A status missing from the reduced object reads 0; a count of 0 is
      falsy but reads 0 all the same, so every field is a plain lookup with
      default 0. */
  function DefaultStats(stats: map<Status, nat>): (r: StatusStats)
    ensures r.pending == (if Pending in stats then stats[Pending] else 0)
    ensures r.interview == (if Interview in stats then stats[Interview] else 0)
    ensures r.declined == (if Declined in stats then stats[Declined] else 0)
  {
    StatusStats(CountOr0(stats, Pending), CountOr0(stats, Interview), CountOr0(stats, Declined))
  }

  /** The status part of `showStats`, given the statuses of the user's jobs:
      group by status, reduce into an object, fill in the defaults. */
  function StatusCounts(statuses: seq<Status>): StatusStats
  {
    DefaultStats(Tally(Group(statuses)))
  }

  /** Each of the three counts is the number of jobs with that status, 0
      when there is none. */
  lemma StatusCountsExact(statuses: seq<Status>)
    ensures StatusCounts(statuses).pending == multiset(statuses)[Pending]
    ensures StatusCounts(statuses).interview == multiset(statuses)[Interview]
    ensures StatusCounts(statuses).declined == multiset(statuses)[Declined]
  {
    var g := Group(statuses);
    var m := Tally(g);
    forall s: Status ensures CountOr0(m, s) == multiset(statuses)[s] {
      if s in m {
        assert m[s] == CountOf(g, s);
      } else {
        assert s !in KeySet(g);
        assert s !in statuses;
      }
    }
  }

  /** The three counts together account for every one of the user's jobs,
      so in particular their sum never exceeds the user's job count. */
  lemma StatusCountsTotal(statuses: seq<Status>)
    ensures var r := StatusCounts(statuses); r.pending + r.interview + r.declined == |statuses|
  {
    StatusCountsExact(statuses);
    MultisetOfStatuses(statuses);
  }

  lemma {:induction false} MultisetOfStatuses(statuses: seq<Status>)
    ensures multiset(statuses)[Pending] + multiset(statuses)[Interview] + multiset(statuses)[Declined] == |statuses|
  {
    if statuses != [] {
      var front, last := statuses[..|statuses| - 1], statuses[|statuses| - 1];
      assert statuses == front + [last];
      assert multiset(statuses) == multiset(front) + multiset{last};
      MultisetOfStatuses(front);
      assert multiset{last}[Pending] + multiset{last}[Interview] + multiset{last}[Declined] == 1 by {
        match last
        case Pending =>
        case Interview =>
        case Declined =>
      }
    }
  }

  /** `a` is an earlier month than `b`. */
  predicate Before(a: MonthKey, b: MonthKey)
  {
    a.year < b.year || (a.year == b.year && a.month < b.month)
  }

  ghost predicate StrictlyDescending(s: seq<Bucket<MonthKey>>)
  {
    forall i, j :: 0 <= i < j < |s| ==> Before(s[j].key, s[i].key)
  }

  ghost predicate StrictlyAscending(s: seq<Bucket<MonthKey>>)
  {
    forall i, j :: 0 <= i < j < |s| ==> Before(s[i].key, s[j].key)
  }

  /** Insert one bucket into a list sorted newest first. */
  function Insert(b: Bucket<MonthKey>, s: seq<Bucket<MonthKey>>): (r: seq<Bucket<MonthKey>>)
    ensures multiset(r) == multiset(s) + multiset{b}
  {
    if s == [] || !Before(b.key, s[0].key) then [b] + s
    else
      assert s == [s[0]] + s[1..];
      [s[0]] + Insert(b, s[1..])
  }

  /** Inserting a month that is not yet in a newest-first list keeps it
      strictly newest first. */
  lemma {:induction false} InsertKeepsOrder(b: Bucket<MonthKey>, s: seq<Bucket<MonthKey>>)
    requires StrictlyDescending(s)
    requires forall i :: 0 <= i < |s| ==> s[i].key != b.key
    ensures StrictlyDescending(Insert(b, s))
  {
    if s == [] || !Before(b.key, s[0].key) {
    } else {
      var rest := Insert(b, s[1..]);
      InsertKeepsOrder(b, s[1..]);
      forall x | x in rest ensures Before(x.key, s[0].key) {
        assert x in multiset(rest);
        if x != b {
          assert x in s[1..];
        }
      }
      var r := [s[0]] + rest;
      forall i, j | 0 <= i < j < |r| ensures Before(r[j].key, r[i].key) {
        if i == 0 {
          assert r[j] in rest;
        } else {
          assert r[i] == rest[i - 1] && r[j] == rest[j - 1];
        }
      }
    }
  }

  /** The `$sort: { '_id.year': -1, '_id.month': -1 }` stage: a permutation
      of the buckets, newest month first. */
  function SortDescending(g: seq<Bucket<MonthKey>>): (r: seq<Bucket<MonthKey>>)
    ensures multiset(r) == multiset(g)
    ensures |r| == |g|
  {
    if g == [] then []
    else
      assert g == [g[0]] + g[1..];
      Insert(g[0], SortDescending(g[1..]))
  }

  /** When, as after `$group`, no month has two buckets, the sorted list is
      strictly newest first. */
  lemma {:induction false} SortDescendingOrdered(g: seq<Bucket<MonthKey>>)
    requires DistinctKeys(g)
    ensures StrictlyDescending(SortDescending(g))
  {
    if g != [] {
      var rest := SortDescending(g[1..]);
      SortDescendingOrdered(g[1..]);
      forall i | 0 <= i < |rest| ensures rest[i].key != g[0].key {
        assert rest[i] in multiset(g[1..]);
        var j :| 0 <= j < |g[1..]| && g[1..][j] == rest[i];
        assert g[j + 1] == rest[i];
      }
      InsertKeepsOrder(g[0], rest);
    }
  }

  /** The `$limit` stage: the first `n` buckets. */
  function Limit(s: seq<Bucket<MonthKey>>, n: nat): (r: seq<Bucket<MonthKey>>)
    ensures |r| <= n && |r| <= |s|
    ensures |r| == n || r == s
    ensures forall i :: 0 <= i < |r| ==> r[i] == s[i]
  {
    if |s| <= n then s else s[..n]
  }

  /** `Array.prototype.reverse`. */
  function Reversed<T>(s: seq<T>): (r: seq<T>)
    ensures |r| == |s|
    ensures forall k :: 0 <= k < |s| ==> r[k] == s[|s| - 1 - k]
  {
    if s == [] then [] else Reversed(s[1..]) + [s[0]]
  }

  /** How many months the series shows. */
  const MonthsShown := 6

  /** The monthly series of `showStats`, given the creation month of each of
      the user's jobs: group by month, newest first, keep six, then reverse
      so that the chart reads oldest to newest. */
  function MonthlyApplications(months: seq<MonthKey>): (r: seq<Bucket<MonthKey>>)
    ensures |r| <= MonthsShown
  {
    Reversed(Limit(SortDescending(Group(months)), MonthsShown))
  }

  /** At most six entries, in strictly ascending month order (so no month
      appears twice). */
  lemma MonthlyOrdered(months: seq<MonthKey>)
    ensures |MonthlyApplications(months)| <= MonthsShown
    ensures StrictlyAscending(MonthlyApplications(months))
  {
    var s := SortDescending(Group(months));
    var l := Limit(s, MonthsShown);
    var r := Reversed(l);
    SortDescendingOrdered(Group(months));
    forall i, j | 0 <= i < j < |r| ensures Before(r[i].key, r[j].key) {
      assert r[i] == s[|l| - 1 - i] && r[j] == s[|l| - 1 - j];
    }
  }

  /** Each entry is a month in which the user created jobs, with the number
      of jobs created in that month as its (positive) count. */
  lemma MonthlyCounts(months: seq<MonthKey>)
    ensures forall i :: 0 <= i < |MonthlyApplications(months)| ==>
              var b := MonthlyApplications(months)[i];
              b.count > 0 && b.count == multiset(months)[b.key]
  {
    var g := Group(months);
    var s := SortDescending(g);
    var l := Limit(s, MonthsShown);
    var r := Reversed(l);
    forall i | 0 <= i < |r| ensures r[i].count > 0 && r[i].count == multiset(months)[r[i].key] {
      var b := r[i];
      assert b == s[|l| - 1 - i];
      assert b in multiset(g);
      var j :| 0 <= j < |g| && g[j] == b;
      CountOfAt(g, j);
    }
  }

  /** The series keeps the most recent months: a month in which the user
      created jobs is either in the series, or the series is full and every
      month in it is later. */
  lemma MonthlyMostRecent(months: seq<MonthKey>, m: MonthKey)
    requires m in months
    ensures var r := MonthlyApplications(months);
            (exists i :: 0 <= i < |r| && r[i].key == m)
            || (|r| == MonthsShown && forall i :: 0 <= i < |r| ==> Before(m, r[i].key))
  {
    var g := Group(months);
    var s := SortDescending(g);
    var l := Limit(s, MonthsShown);
    var r := Reversed(l);
    SortDescendingOrdered(g);
    assert m in KeySet(g);
    var j :| 0 <= j < |g| && g[j].key == m;
    assert g[j] in multiset(s);
    var p :| 0 <= p < |s| && s[p] == g[j];
    if p < |l| {
      assert r[|l| - 1 - p] == s[p];
    } else {
      assert |l| == MonthsShown;
      forall i | 0 <= i < |r| ensures Before(m, r[i].key) {
        assert r[i] == s[|l| - 1 - i];
      }
    }
  }
}
