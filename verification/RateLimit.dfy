/**
 * The sliding-window limiter script (core/rate_limits.py).  The script keeps a pruned
 * sorted set that Redis drops when its time to live ends; `log` is the full history of
 * admissions it has to agree with.  Instants are the server's milliseconds.
 */
module RateLimit {
  import opened Basics

  type Member = nat

  // Scores by member: the admissions still stored, or all admissions ever.
  type Admissions = map<Member, int>

  /** The admissions in (from, to]. */
  function Within(m: Admissions, from: int, to: int): Admissions {
    map x | x in m && from < m[x] <= to :: m[x]
  }

  function Count(m: Admissions, from: int, to: int): nat {
    |Within(m, from, to)|
  }

  lemma {:induction false} SubmapCount(a: Admissions, b: Admissions)
    requires forall x | x in a :: x in b
    ensures |a| <= |b|
  {
    if a != map[] {
      var x :| x in a;
      SubmapCount(a - {x}, b - {x});
      assert |(a - {x}).Keys| == |a.Keys - {x}|;
      assert (a - {x}).Keys == a.Keys - {x} && (b - {x}).Keys == b.Keys - {x};
      assert |a.Keys - {x}| == |a.Keys| - 1 && |b.Keys - {x}| == |b.Keys| - 1;
    }
  }

  lemma MonotoneCount(a: Admissions, from: int, to: int, wider: int, later: int)
    requires wider <= from && to <= later
    ensures Count(a, from, to) <= Count(a, wider, later)
  {
    SubmapCount(Within(a, from, to), Within(a, wider, later));
  }

  lemma CountWithNew(a: Admissions, x: Member, at: int, from: int, to: int)
    requires x !in a
    ensures Count(a[x := at], from, to) == Count(a, from, to) + if from < at <= to then 1 else 0
  {
    if from < at <= to {
      assert Within(a[x := at], from, to) == Within(a, from, to)[x := at];
      assert Within(a[x := at], from, to).Keys == Within(a, from, to).Keys + {x};
    } else {
      assert Within(a[x := at], from, to) == Within(a, from, to);
    }
  }

  /** math.ceil(d / 1000) */
  function CeilSeconds(d: int): int {
    (d + 999) / 1000
  }

  lemma {:induction false} EarliestExists(m: Admissions)
    requires m != map[]
    ensures exists x :: x in m && forall y | y in m :: m[x] <= m[y]
  {
    var x :| x in m;
    var best := x;
    if m - {x} != map[] {
      EarliestExists(m - {x});
      var e :| e in m - {x} && forall y | y in m - {x} :: m[e] <= m[y];
      if m[e] <= m[x] {
        best := e;
      }
    }
    forall y | y in m ensures m[best] <= m[y] {
      assert y == x || y in m - {x};
    }
  }

  /** ZRANGE key 0 0 WITHSCORES: the lowest score. */
  function Earliest(m: Admissions): (score: int)
    requires m != map[]
    ensures exists x :: x in m && m[x] == score
    ensures forall y | y in m :: score <= m[y]
  {
    EarliestExists(m);
    var x :| x in m && forall y | y in m :: m[x] <= m[y];
    m[x]
  }

  // ---- the script ------------------------------------------------------------------

  /** One limiter key: the sorted set and the instant Redis drops it. */
  datatype Stored = Stored(entries: Admissions, expiresAt: Option<int>)

  /** The set Redis presents at time now: gone once its time to live has passed. */
  function Live(s: Stored, now: int): Admissions {
    if s.expiresAt.Some? && s.expiresAt.value < now then map[] else s.entries
  }

  /** ZREMRANGEBYSCORE key -inf (now - window) */
  function Pruned(m: Admissions, now: int, window: int): Admissions {
    map x | x in m && m[x] > now - window :: m[x]
  }

  /** What one evaluation stores and answers: 0 admits, otherwise the seconds to wait. */
  function Evaluate(s: Stored, limit: nat, window: int, now: int, member: Member): (Stored, int)
    requires limit >= 1
  {
    var live := Live(s, now);
    var entries := Pruned(live, now, window);
    var expiresAt := if live == map[] || entries == map[] then None else s.expiresAt;
    if |entries| >= limit then
      (Stored(entries, expiresAt), Max(1, CeilSeconds(Earliest(entries) + window - now)))
    else
      (Stored(entries[member := now], Some(now + window)), 0)
  }

  // ---- the full admission log ------------------------------------------------------

  /** Every interval of window length holds at most limit admissions. */
  ghost predicate Capped(log: Admissions, limit: nat, window: int) {
    forall from, to | to == from + window :: Count(log, from, to) <= limit
  }

  /** The stored key is a faithful remnant of the log at any time from `last` on. */
  ghost predicate Agrees(s: Stored, log: Admissions, last: int, window: int) {
    && (forall x | x in log :: log[x] <= last)
    && (forall x | x in s.entries :: x in log && log[x] == s.entries[x])
    && (forall x | x in log && last - window < log[x] :: x in s.entries)
    && (s.expiresAt.Some? ==> forall x | x in log :: log[x] + window <= s.expiresAt.value)
  }

  /** Pruning what is left of the set gives exactly the window of the full log. */
  lemma PrunedIsTheWindow(s: Stored, log: Admissions, last: int, window: int, now: int)
    requires Agrees(s, log, last, window) && last <= now
    ensures Pruned(Live(s, now), now, window) == Within(log, now - window, now)
  {
    var pruned, recent := Pruned(Live(s, now), now, window), Within(log, now - window, now);
    forall x | x in recent ensures x in pruned && pruned[x] == recent[x] {
    }
    forall x | x in pruned ensures x in recent {
    }
  }

  lemma CappedAfterAdmission(log: Admissions, limit: nat, window: int, now: int, member: Member)
    requires Capped(log, limit, window) && member !in log && window >= 1
    requires forall x | x in log :: log[x] <= now
    requires Count(log, now - window, now) < limit
    ensures Capped(log[member := now], limit, window)
  {
    var more := log[member := now];
    forall from, to | to == from + window ensures Count(more, from, to) <= limit {
      CountWithNew(log, member, now, from, to);
      if from < now <= to {
        assert Within(log, from, to) == Within(log, from, now);
        MonotoneCount(log, from, now, now - window, now);
      } else {
        assert Count(log, from, to) <= limit;
      }
    }
  }

  /**
   * The script decides exactly as the unpruned, never-expiring log would: it admits iff
   * fewer than limit admissions lie in (now - window, now].  The stored key stays faithful
   * and no interval of window length ever holds more than limit admissions.
   */
  lemma DecidesLikeTheLog(s: Stored, log: Admissions, last: int, limit: nat, window: int, now: int, member: Member)
    requires Agrees(s, log, last, window) && Capped(log, limit, window)
    requires last <= now && member !in log && limit >= 1 && window >= 1
    ensures var (s', retry) := Evaluate(s, limit, window, now, member);
            var log' := if retry == 0 then log[member := now] else log;
            && (retry == 0 <==> Count(log, now - window, now) < limit)
            && Agrees(s', log', now, window) && Capped(log', limit, window)
  {
    PrunedIsTheWindow(s, log, last, window, now);
    if Count(log, now - window, now) < limit {
      CappedAfterAdmission(log, limit, window, now, member);
    }
  }

  /** Waiting frees a slot exactly when the earliest stored admission leaves the window. */
  lemma FreesWithTheEarliest(log: Admissions, limit: nat, window: int, now: int, later: int)
    requires Capped(log, limit, window) && now <= later && window >= 1 && limit >= 1
    requires forall x | x in log :: log[x] <= now
    requires Count(log, now - window, now) >= limit
    ensures Within(log, now - window, now) != map[]
    ensures Count(log, later - window, later) < limit
            <==> Earliest(Within(log, now - window, now)) <= later - window
  {
    var recent := Within(log, now - window, now);
    var left := Within(log, later - window, later);
    var first := Earliest(recent);
    var x :| x in recent && recent[x] == first;
    if first <= later - window {
      assert x !in left && forall y | y in left :: y in recent - {x};
      SubmapCount(left, recent - {x});
      assert (recent - {x}).Keys == recent.Keys - {x};
      assert Count(log, now - window, now) <= limit;
    } else {
      assert left == recent;
    }
  }

  /** Asking again after `seconds` fails before the answered wait is over and succeeds when it is. */
  predicate ExactWait(s: Stored, limit: nat, windowSeconds: int, now: int, member: Member, seconds: nat)
    requires limit >= 1
  {
    var (rejected, retry) := Evaluate(s, limit, windowSeconds * 1000, now, member);
    var again := Evaluate(rejected, limit, windowSeconds * 1000, now + seconds * 1000, member).1;
    && 1 <= retry <= windowSeconds
    && (seconds == retry ==> again == 0)
    && (seconds < retry ==> again != 0)
  }

  /**
   * A rejection answers the least whole number of seconds that works: with no competing
   * admission the same caller is admitted after exactly that many seconds, is rejected after
   * any smaller number, and never has to wait longer than the window.
   */
  lemma RetryAfterIsExact(s: Stored, log: Admissions, last: int, limit: nat, windowSeconds: int, now: int,
                          member: Member, seconds: nat)
    requires windowSeconds >= 1 && limit >= 1 && last <= now && member !in log
    requires Agrees(s, log, last, windowSeconds * 1000) && Capped(log, limit, windowSeconds * 1000)
    requires Evaluate(s, limit, windowSeconds * 1000, now, member).1 != 0
    ensures ExactWait(s, limit, windowSeconds, now, member, seconds)
  {
    var window := windowSeconds * 1000;
    var later := now + seconds * 1000;
    hide Evaluate, Agrees, Capped, Within, Pruned, Live, Count, CeilSeconds, Max;
    var (rejected, retry) := Evaluate(s, limit, window, now, member);
    RejectionKeepsLog(s, log, last, limit, window, now, member);
    DecidesLikeTheLog(rejected, log, now, limit, window, later, member);
    PrunedIsTheWindow(s, log, last, window, now);
    FreesWithTheEarliest(log, limit, window, now, later);
    RejectionNames(s, limit, window, now, member);
    EarliestIsRecent(log, window, now);
    CeilingIsLeast(Earliest(Within(log, now - window, now)), windowSeconds, now, seconds);
  }

  lemma CeilingIsLeast(first: int, windowSeconds: int, now: int, seconds: nat)
    requires windowSeconds >= 1 && now - windowSeconds * 1000 < first <= now
    ensures var retry := Max(1, CeilSeconds(first + windowSeconds * 1000 - now));
            && 1 <= retry <= windowSeconds
            && (seconds >= retry <==> first <= now + seconds * 1000 - windowSeconds * 1000)
  {
  }

  lemma RejectionKeepsLog(s: Stored, log: Admissions, last: int, limit: nat, window: int, now: int, member: Member)
    requires Agrees(s, log, last, window) && Capped(log, limit, window)
    requires last <= now && member !in log && limit >= 1 && window >= 1
    requires Evaluate(s, limit, window, now, member).1 != 0
    ensures Agrees(Evaluate(s, limit, window, now, member).0, log, now, window)
    ensures Count(log, now - window, now) >= limit && forall x | x in log :: log[x] <= now
  {
    DecidesLikeTheLog(s, log, last, limit, window, now, member);
    hide Evaluate, Capped;
  }

  lemma RejectionNames(s: Stored, limit: nat, window: int, now: int, member: Member)
    requires limit >= 1 && Evaluate(s, limit, window, now, member).1 != 0
    ensures Pruned(Live(s, now), now, window) != map[]
    ensures Evaluate(s, limit, window, now, member).1
            == Max(1, CeilSeconds(Earliest(Pruned(Live(s, now), now, window)) + window - now))
  {
  }

  lemma EarliestIsRecent(log: Admissions, window: int, now: int)
    requires Within(log, now - window, now) != map[]
    ensures now - window < Earliest(Within(log, now - window, now)) <= now
  {
  }

  // ---- the object ------------------------------------------------------------------

  datatype Error = ValueError

  /** The limiter key as the script finds and leaves it. */
  class SlidingWindow {
    var entries: Admissions
    var expiresAt: Option<int>

    constructor ()
      ensures Contents() == Stored(map[], None)
    {
      entries, expiresAt := map[], None;
    }

    function Contents(): Stored
      reads this
    {
      Stored(entries, expiresAt)
    }

    /** sliding_window_retry_after; now is the server clock, member the random token. */
    method RetryAfter(limit: int, windowSeconds: int, now: int, member: Member) returns (r: Result<int, Error>)
      modifies this
      ensures limit < 1 || windowSeconds < 1 ==> r == Err(ValueError) && Contents() == old(Contents())
      ensures limit >= 1 && windowSeconds >= 1 ==>
                r.Ok? && (Contents(), r.value) == Evaluate(old(Contents()), limit, windowSeconds * 1000, now, member)
    {
      if limit < 1 || windowSeconds < 1 {
        return Err(ValueError);
      }
      var window := windowSeconds * 1000;
      if expiresAt.Some? && expiresAt.value < now {
        entries, expiresAt := map[], None;
      }
      entries := Pruned(entries, now, window);
      if entries == map[] {
        expiresAt := None;
      }
      if |entries| >= limit {
        assert entries != map[];
        var first := Earliest(entries);
        return Ok(Max(1, CeilSeconds(first + window - now)));
      }
      entries := entries[member := now];
      expiresAt := Some(now + window);
      return Ok(0);
    }
  }

  // ---- runs ------------------------------------------------------------------------

  /** One call of the limiter. */
  datatype Call = Call(now: int, member: Member)

  predicate Chronological(calls: seq<Call>) {
    && (forall i, j | 0 <= i < j < |calls| :: calls[i].now <= calls[j].now)
    && (forall i, j | 0 <= i < j < |calls| :: calls[i].member != calls[j].member)
  }

  /** The key and the admission log after a sequence of calls on an empty key. */
  function After(calls: seq<Call>, limit: nat, window: int): (Stored, Admissions)
    requires limit >= 1
  {
    if calls == [] then (Stored(map[], None), map[])
    else
      var (s, log) := After(calls[..|calls| - 1], limit, window);
      var c := calls[|calls| - 1];
      var (s', retry) := Evaluate(s, limit, window, c.now, c.member);
      (s', if retry == 0 then log[c.member := c.now] else log)
  }

  lemma {:induction false} LogMembers(calls: seq<Call>, limit: nat, window: int)
    requires limit >= 1
    ensures forall x | x in After(calls, limit, window).1 ::
              exists i :: 0 <= i < |calls| && calls[i] == Call(After(calls, limit, window).1[x], x)
  {
    if calls != [] {
      var init := calls[..|calls| - 1];
      LogMembers(init, limit, window);
      var log, log' := After(init, limit, window).1, After(calls, limit, window).1;
      forall x | x in log' ensures exists i :: 0 <= i < |calls| && calls[i] == Call(log'[x], x) {
        if x in log && log'[x] == log[x] {
          var i :| 0 <= i < |init| && init[i] == Call(log[x], x);
          assert calls[i] == Call(log'[x], x);
        } else {
          assert calls[|calls| - 1] == Call(log'[x], x);
        }
      }
    }
  }

  lemma AgreesLater(s: Stored, log: Admissions, last: int, later: int, window: int)
    requires Agrees(s, log, last, window) && last <= later
    ensures Agrees(s, log, later, window)
  {
  }

  lemma NextMemberIsNew(calls: seq<Call>, limit: nat, window: int)
    requires Chronological(calls) && calls != [] && limit >= 1
    ensures calls[|calls| - 1].member !in After(calls[..|calls| - 1], limit, window).1
  {
    var init := calls[..|calls| - 1];
    LogMembers(init, limit, window);
    assert forall i | 0 <= i < |init| :: init[i].member != calls[|calls| - 1].member;
  }

  /** In any run, every interval of window length holds at most limit admissions. */
  lemma {:induction false} RunIsCapped(calls: seq<Call>, limit: nat, window: int)
    requires Chronological(calls) && limit >= 1 && window >= 1
    ensures var (s, log) := After(calls, limit, window);
            && Capped(log, limit, window)
            && forall last | calls == [] || calls[|calls| - 1].now <= last :: Agrees(s, log, last, window)
  {
    if calls == [] {
      assert forall from, to :: Within(map[], from, to) == map[];
    } else {
      var init, c := calls[..|calls| - 1], calls[|calls| - 1];
      RunIsCapped(init, limit, window);
      NextMemberIsNew(calls, limit, window);
      var (s, log) := After(init, limit, window);
      hide Evaluate, Agrees;
      assert Agrees(s, log, c.now, window);
      DecidesLikeTheLog(s, log, c.now, limit, window, c.now, c.member);
      var (s', log') := After(calls, limit, window);
      forall last | c.now <= last ensures Agrees(s', log', last, window) {
        AgreesLater(s', log', c.now, last, window);
      }
    }
  }

  lemma InitIsChronological(calls: seq<Call>)
    requires Chronological(calls) && calls != []
    ensures var init := calls[..|calls| - 1];
            Chronological(init) && (init == [] || init[|init| - 1].now <= calls[|calls| - 1].now)
  {
  }

  /**
   * The last call of any run is admitted iff the full log of the run holds fewer than limit
   * admissions in its window; if rejected, the answer is the exact wait.
   */
  lemma LastCall(calls: seq<Call>, limit: nat, windowSeconds: int, seconds: nat)
    requires Chronological(calls) && calls != [] && limit >= 1 && windowSeconds >= 1
    ensures var window := windowSeconds * 1000;
            var (s, log) := After(calls[..|calls| - 1], limit, window);
            var c := calls[|calls| - 1];
            var admitted := Evaluate(s, limit, window, c.now, c.member).1 == 0;
            && (admitted <==> Count(log, c.now - window, c.now) < limit)
            && (!admitted ==> ExactWait(s, limit, windowSeconds, c.now, c.member, seconds))
  {
    hide *;
    var window := windowSeconds * 1000;
    var init, c := calls[..|calls| - 1], calls[|calls| - 1];
    InitIsChronological(calls);
    RunIsCapped(init, limit, window);
    NextMemberIsNew(calls, limit, window);
    var (s, log) := After(init, limit, window);
    assert Agrees(s, log, c.now, window);
    DecidesLikeTheLog(s, log, c.now, limit, window, c.now, c.member);
    if Evaluate(s, limit, window, c.now, c.member).1 != 0 {
      RetryAfterIsExact(s, log, c.now, limit, windowSeconds, c.now, c.member, seconds);
    }
  }
}
