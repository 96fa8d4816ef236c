/** The admin dashboard's three counters. */
module Dashboard {
  import opened Wrappers
  import opened Records
  import Seqs

  /** `7*24*60*60*1000`: one week in milliseconds. */
  const Week: int := 7 * 24 * 60 * 60 * 1000

  /**
   * A submission counts as recent when its time is strictly after one week before `now`
   * (milliseconds since the epoch). A submission without a time is never recent.
   */
  predicate IsRecent(s: Submission, now: int) {
    s.timestamp.Some? && s.timestamp.value > now - Week
  }

  function RecentCount(subs: seq<Submission>, now: int): (n: nat)
    ensures n <= |subs|
  {
    if subs == [] then 0 else (if IsRecent(subs[0], now) then 1 else 0) + RecentCount(subs[1..], now)
  }

  /** The counter is the length of `submissions.filter(...)`. */
  lemma {:induction false} RecentCountIsFilterLength(subs: seq<Submission>, now: int)
    ensures RecentCount(subs, now) == |Seqs.Keep(subs, s => IsRecent(s, now))|
    decreases |subs|
  {
    if subs != [] {
      RecentCountIsFilterLength(subs[1..], now);
      assert subs == [subs[0]] + subs[1..];
      Seqs.KeepConcat([subs[0]], subs[1..], s => IsRecent(s, now));
    }
  }

  /** Counts add up over a split list. */
  lemma {:induction false} RecentCountConcat(a: seq<Submission>, b: seq<Submission>, now: int)
    ensures RecentCount(a + b, now) == RecentCount(a, now) + RecentCount(b, now)
    decreases |a|
  {
    if a != [] {
      RecentCountConcat(a[1..], b, now);
      assert (a + b)[0] == a[0];
      assert (a + b)[1..] == a[1..] + b;
    } else {
      assert a + b == b;
    }
  }

  /** As time passes the counter can only go down. */
  lemma {:induction false} RecentCountFalls(subs: seq<Submission>, earlier: int, later: int)
    requires earlier <= later
    ensures RecentCount(subs, later) <= RecentCount(subs, earlier)
    decreases |subs|
  {
    if subs != [] {
      RecentCountFalls(subs[1..], earlier, later);
    }
  }

  /** A submission exactly one week old is no longer counted; a millisecond earlier it still was. */
  lemma WeekBoundary(s: Submission, now: int)
    requires s.timestamp == Some(now - Week)
    ensures !IsRecent(s, now) && IsRecent(s, now - 1)
  {
  }

  /** The three cards: all projects, all submissions, submissions of the last week. */
  datatype Stats = Stats(projects: nat, submissions: nat, recent: nat)

  /**
   * The values the dashboard renders. A `null` list (a load that returned no data) makes
   * `.length` throw, which is `None` here.
   */
  function Summary(projects: Option<seq<Project>>, submissions: Option<seq<Submission>>, now: int): (r: Option<Stats>)
    ensures r.Some? <==> projects.Some? && submissions.Some?
    ensures r.Some? ==> r.value.projects == |projects.value| && r.value.submissions == |submissions.value|
    ensures r.Some? ==> r.value.recent == RecentCount(submissions.value, now) && r.value.recent <= r.value.submissions
  {
    if projects.None? || submissions.None? then None
    else Some(Stats(|projects.value|, |submissions.value|, RecentCount(submissions.value, now)))
  }
}
