/** Total and weekly scores, as the dashboard derives them from the fetched
    activity list. */
module Scoring {
  import opened Records

  const DayMillis: int := 24 * 60 * 60 * 1000

  /** The weekly window is a fixed seven days; calendar arithmetic on local
      dates is not modelled. */
  const WeekMillis: int := 7 * DayMillis

  /** The earliest instant that still counts as "this week" at time `now`:
      exactly seven days of milliseconds before it. */
  function WindowStart(now: int): (start: int)
    ensures start < now
    ensures now - start == 604_800_000
  {
    now - WeekMillis
  }

  /** An activity belongs to the weekly window when it was created at or
      after the window start; the comparison is purely numeric, so an
      activity dated in the future is in the window too. */
  predicate InWindow(a: Activity, now: int): (b: bool)
    ensures b <==> now - a.createdAt <= WeekMillis
  {
    a.createdAt >= WindowStart(now)
  }

  datatype Summary = Summary(total: int, weekly: int)

  /** The sum of the points of a list of activities (the `reduce` with
      initial value 0). */
  function SumPoints(acts: seq<Activity>): (sum: int)
    ensures AllNonNegative(acts) ==> sum >= 0
  {
    if acts == [] then 0 else acts[0].points + SumPoints(acts[1..])
  }

  /** The activities of the weekly window, in their original order (the
      `filter` over the fetched list). */
  function Recent(acts: seq<Activity>, now: int): (r: seq<Activity>)
    ensures |r| <= |acts|
  {
    if acts == [] then []
    else (if InWindow(acts[0], now) then [acts[0]] else []) + Recent(acts[1..], now)
  }

  /** The pair of scores shown on the dashboard. With no points below zero
      the weekly score is never negative and never exceeds the total; an
      empty list scores zero on both. */
  function Summarize(acts: seq<Activity>, now: int): (s: Summary)
    ensures acts == [] ==> s == Summary(0, 0)
    ensures AllNonNegative(acts) ==> 0 <= s.weekly <= s.total
  {
    RecentAtMostTotal(acts, now);
    RecentMembers(acts, now);
    Summary(SumPoints(acts), SumPoints(Recent(acts, now)))
  }

  /** The left-to-right accumulation that `reduce` performs agrees with the
      recursive sum. */
  method ReducePoints(acts: seq<Activity>) returns (sum: int)
    ensures sum == SumPoints(acts)
  {
    sum := 0;
    var i := 0;
    while i < |acts|
      invariant 0 <= i <= |acts|
      invariant sum == SumPoints(acts[..i])
    {
      SumPointsSnoc(acts[..i], acts[i]);
      assert acts[..i + 1] == acts[..i] + [acts[i]];
      sum := sum + acts[i].points;
      i := i + 1;
    }
    assert acts[..i] == acts;
  }

  /** The dashboard's computation as written: one pass reduces the whole
      list, one pass filters it to the window, and a last pass reduces the
      filtered list. */
  method ComputeScores(data: seq<Activity>, now: int) returns (total: int, weekly: int)
    ensures Summary(total, weekly) == Summarize(data, now)
  {
    total := ReducePoints(data);
    var weeklyActivities := FilterRecent(data, now);
    weekly := ReducePoints(weeklyActivities);
  }

  /** The `filter` pass: keeps, in order, the activities created at or after
      the window start. */
  method FilterRecent(data: seq<Activity>, now: int) returns (kept: seq<Activity>)
    ensures kept == Recent(data, now)
  {
    var weekAgo := WindowStart(now);
    kept := [];
    var i := 0;
    while i < |data|
      invariant 0 <= i <= |data|
      invariant kept == Recent(data[..i], now)
    {
      var a := data[i];
      assert data[..i + 1] == data[..i] + [a];
      RecentSnoc(data[..i], a, now);
      if a.createdAt >= weekAgo {
        kept := kept + [a];
      }
      i := i + 1;
    }
    assert data[..i] == data;
  }

  lemma {:induction false} SumPointsAppend(a: seq<Activity>, b: seq<Activity>)
    ensures SumPoints(a + b) == SumPoints(a) + SumPoints(b)
    decreases |a|
  {
    if a == [] {
      assert a + b == b;
    } else {
      assert (a + b)[1..] == a[1..] + b;
      SumPointsAppend(a[1..], b);
    }
  }

  lemma SumPointsSnoc(acts: seq<Activity>, a: Activity)
    ensures SumPoints(acts + [a]) == SumPoints(acts) + a.points
  {
    SumPointsAppend(acts, [a]);
  }

  lemma {:induction false} RecentAppend(a: seq<Activity>, b: seq<Activity>, now: int)
    ensures Recent(a + b, now) == Recent(a, now) + Recent(b, now)
    decreases |a|
  {
    if a == [] {
      assert a + b == b;
    } else {
      var head := if InWindow(a[0], now) then [a[0]] else [];
      assert (a + b)[0] == a[0];
      assert (a + b)[1..] == a[1..] + b;
      RecentAppend(a[1..], b, now);
      calc {
        Recent(a + b, now);
        head + Recent(a[1..] + b, now);
        head + (Recent(a[1..], now) + Recent(b, now));
        (head + Recent(a[1..], now)) + Recent(b, now);
      }
    }
  }

  lemma RecentSnoc(acts: seq<Activity>, a: Activity, now: int)
    ensures Recent(acts + [a], now) == Recent(acts, now) + (if InWindow(a, now) then [a] else [])
  {
    RecentAppend(acts, [a], now);
    assert [a][1..] == [];
  }

  /** The window keeps exactly the listed activities created at or after the
      window start. */
  lemma {:induction false} RecentMembers(acts: seq<Activity>, now: int)
    ensures forall a :: a in Recent(acts, now) <==> a in acts && InWindow(a, now)
    decreases |acts|
  {
    if acts != [] {
      RecentMembers(acts[1..], now);
      assert acts == [acts[0]] + acts[1..];
    }
  }

  /** With no negative points, the window's score is at most the total. */
  lemma {:induction false} RecentAtMostTotal(acts: seq<Activity>, now: int)
    ensures AllNonNegative(acts) ==> SumPoints(Recent(acts, now)) <= SumPoints(acts)
    decreases |acts|
  {
    if acts != [] {
      assert AllNonNegative(acts) ==> AllNonNegative(acts[1..]) by {
        assert forall a :: a in acts[1..] ==> a in acts;
      }
      RecentAtMostTotal(acts[1..], now);
      var head := if InWindow(acts[0], now) then [acts[0]] else [];
      SumPointsAppend(head, Recent(acts[1..], now));
    }
  }

  /** Removing one entry from a list removes exactly its points from the sum. */
  lemma SumPointsRemove(s: seq<Activity>, j: int)
    requires 0 <= j < |s|
    ensures SumPoints(s) == s[j].points + SumPoints(s[..j] + s[j + 1..])
  {
    var pre, rest, post := s[..j], s[j..], s[j + 1..];
    assert s == pre + rest;
    assert rest[0] == s[j] && rest[1..] == post;
    SumPointsAppend(pre, rest);
    SumPointsAppend(pre, post);
  }

  /** Removing one entry from a list removes it from the window's multiset
      when it was in the window, and changes nothing otherwise. */
  lemma RecentRemove(s: seq<Activity>, j: int, now: int)
    requires 0 <= j < |s|
    ensures multiset(Recent(s, now)) == multiset(Recent([s[j]], now)) + multiset(Recent(s[..j] + s[j + 1..], now))
  {
    assert s == s[..j] + ([s[j]] + s[j + 1..]);
    RecentAppend(s[..j], [s[j]] + s[j + 1..], now);
    RecentAppend([s[j]], s[j + 1..], now);
    RecentAppend(s[..j], s[j + 1..], now);
  }

  /** Taking out the entry at `j` takes exactly one copy of it out of the
      list's multiset. */
  lemma MultisetRemoveAt(s: seq<Activity>, j: int)
    requires 0 <= j < |s|
    ensures multiset(s[..j] + s[j + 1..]) == multiset(s) - multiset{s[j]}
  {
    assert s == s[..j] + [s[j]] + s[j + 1..];
  }

  /** In a reordering `b` of `a`, some position holds `a`'s first entry, and
      the rest of `b` is a reordering of the rest of `a`. */
  lemma MatchFirst(a: seq<Activity>, b: seq<Activity>) returns (j: int)
    requires a != [] && multiset(a) == multiset(b)
    ensures 0 <= j < |b| && b[j] == a[0]
    ensures multiset(a[1..]) == multiset(b[..j] + b[j + 1..])
  {
    assert a[0] in multiset(b);
    assert a[0] in b;
    j :| 0 <= j < |b| && b[j] == a[0];
    MultisetRemoveAt(b, j);
    assert a == [a[0]] + a[1..];
    assert multiset(a) == multiset{a[0]} + multiset(a[1..]);
  }

  /** The total does not depend on the order of the list. */
  lemma {:induction false} SumPointsPermutation(a: seq<Activity>, b: seq<Activity>)
    requires multiset(a) == multiset(b)
    ensures SumPoints(a) == SumPoints(b)
    decreases |a|
  {
    if a == [] {
      assert |multiset(b)| == 0;
    } else {
      var x := a[0];
      var j := MatchFirst(a, b);
      var rest := b[..j] + b[j + 1..];
      SumPointsPermutation(a[1..], rest);
      SumPointsRemove(b, j);
    }
  }

  /** Reordering the list reorders the window's activities and nothing more. */
  lemma {:induction false} RecentPermutation(a: seq<Activity>, b: seq<Activity>, now: int)
    requires multiset(a) == multiset(b)
    ensures multiset(Recent(a, now)) == multiset(Recent(b, now))
    decreases |a|
  {
    if a == [] {
      assert |multiset(b)| == 0;
      assert b == [];
    } else {
      var x := a[0];
      var j := MatchFirst(a, b);
      var rest := b[..j] + b[j + 1..];
      RecentPermutation(a[1..], rest, now);
      calc {
        multiset(Recent(a, now));
        { assert a == [x] + a[1..];
          RecentAppend([x], a[1..], now); }
        multiset(Recent([x], now)) + multiset(Recent(a[1..], now));
        multiset(Recent([x], now)) + multiset(Recent(rest, now));
        { RecentRemove(b, j, now); }
        multiset(Recent(b, now));
      }
    }
  }

  /** Both scores are invariant under any reordering of the fetched list. */
  lemma SummarizePermutation(a: seq<Activity>, b: seq<Activity>, now: int)
    requires multiset(a) == multiset(b)
    ensures Summarize(a, now) == Summarize(b, now)
  {
    SumPointsPermutation(a, b);
    RecentPermutation(a, b, now);
    SumPointsPermutation(Recent(a, now), Recent(b, now));
  }

  /** One more activity adds exactly its points to the total, and to the
      weekly score exactly when it lies in the window. */
  lemma SummarizeAppend(acts: seq<Activity>, a: Activity, now: int)
    ensures Summarize(acts + [a], now).total == Summarize(acts, now).total + a.points
    ensures InWindow(a, now) ==> Summarize(acts + [a], now).weekly == Summarize(acts, now).weekly + a.points
    ensures !InWindow(a, now) ==> Summarize(acts + [a], now).weekly == Summarize(acts, now).weekly
  {
    SumPointsSnoc(acts, a);
    RecentAppend(acts, [a], now);
    SumPointsAppend(Recent(acts, now), Recent([a], now));
  }

  /** Adding an activity worth something never lowers either score. */
  lemma SummarizeAppendMonotone(acts: seq<Activity>, a: Activity, now: int)
    requires a.points >= 0
    ensures Summarize(acts + [a], now).total >= Summarize(acts, now).total
    ensures Summarize(acts + [a], now).weekly >= Summarize(acts, now).weekly
  {
    SummarizeAppend(acts, a, now);
  }

  /** An activity from before the window counts toward the total only. */
  lemma OldActivityCountsOnlyInTotal(acts: seq<Activity>, a: Activity, now: int)
    requires a.createdAt < now - WeekMillis
    ensures Summarize(acts + [a], now).total == Summarize(acts, now).total + a.points
    ensures Summarize(acts + [a], now).weekly == Summarize(acts, now).weekly
  {
    SummarizeAppend(acts, a, now);
  }

  /** The window's lower bound is inclusive: an activity exactly seven days
      old counts, one a millisecond older does not. */
  lemma WindowBoundary(a: Activity, now: int)
    ensures a.createdAt == now - WeekMillis ==> InWindow(a, now)
    ensures a.createdAt == now - WeekMillis - 1 ==> !InWindow(a, now)
  {
  }
}
