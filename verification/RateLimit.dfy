/** The per-tenant sliding-window limiter of the event gateway. */
module RateLimit {
  import opened Common

  const MINUTE := 60

  /** What is left when times at or before the cutoff have been popped from the front. */
  function DropOld(times: seq<Time>, cutoff: Time): seq<Time> {
    if times != [] && times[0] <= cutoff then DropOld(times[1..], cutoff) else times
  }

  class TenantEventRateLimiter {
    const limit: nat
    var events: map<string, seq<Time>>

    constructor (limit: nat)
      ensures this.limit == limit && events == map[]
    {
      this.limit := limit;
      events := map[];
    }

    function Events(tenantId: string): seq<Time>
      reads this
    {
      if tenantId in events then events[tenantId] else []
    }

    /** Accepts exactly when fewer than `limit` accepted times are left; a refusal still pops. */
    method Acquire(tenantId: string, now: Time) returns (accepted: bool)
      modifies this`events
      ensures var kept := DropOld(old(Events(tenantId)), now - MINUTE);
              && accepted == (|kept| < limit)
              && events == old(events)[tenantId := if accepted then kept + [now] else kept]
    {
      var cutoff, queue := now - MINUTE, Events(tenantId);
      while queue != [] && queue[0] <= cutoff
        invariant DropOld(queue, cutoff) == DropOld(old(Events(tenantId)), cutoff)
        decreases |queue|
      {
        queue := queue[1..];
      }
      if |queue| >= limit {
        events := events[tenantId := queue];
        return false;
      }
      events := events[tenantId := queue + [now]];
      accepted := true;
    }
  }

  // ---------------------------------------------------------------- one tenant's history

  predicate Nondecreasing(times: seq<Time>) {
    forall i, j | 0 <= i < j < |times| :: times[i] <= times[j]
  }

  /** The limiter's queue after calls at the given times. */
  function Queue(limit: nat, calls: seq<Time>): seq<Time> {
    if calls == [] then []
    else
      var now := calls[|calls| - 1];
      var kept := DropOld(Queue(limit, calls[..|calls| - 1]), now - MINUTE);
      if |kept| < limit then kept + [now] else kept
  }

  /** The times of the calls that were accepted. */
  function AcceptedTimes(limit: nat, calls: seq<Time>): seq<Time> {
    if calls == [] then []
    else
      var before, now := AcceptedTimes(limit, calls[..|calls| - 1]), calls[|calls| - 1];
      if |DropOld(Queue(limit, calls[..|calls| - 1]), now - MINUTE)| < limit then before + [now] else before
  }

  /** How many times lie in the window from `lo`, excluded, to `hi`, included. */
  function InWindow(times: seq<Time>, lo: Time, hi: Time): nat {
    if times == [] then 0
    else InWindow(times[..|times| - 1], lo, hi) + if lo < times[|times| - 1] <= hi then 1 else 0
  }

  /** The times after the cutoff: what the queue stands for. */
  function After(times: seq<Time>, cutoff: Time): seq<Time> {
    if times == [] then []
    else
      var before, last := After(times[..|times| - 1], cutoff), times[|times| - 1];
      if last > cutoff then before + [last] else before
  }

  lemma Snoc(times: seq<Time>, last: Time)
    ensures Nondecreasing(times + [last]) <==> Nondecreasing(times) && forall t <- times :: t <= last
  {
    if Nondecreasing(times + [last]) {
      forall t | t in times ensures t <= last {
        var i :| 0 <= i < |times| && times[i] == t;
        assert (times + [last])[i] <= (times + [last])[|times|];
      }
      forall i, j | 0 <= i < j < |times| ensures times[i] <= times[j] {
        assert (times + [last])[i] == times[i] && (times + [last])[j] == times[j];
      }
    }
    if forall t <- times :: t <= last {
      assert forall i | 0 <= i < |times| :: times[i] in times;
    }
  }

  lemma {:induction false} AfterSorted(times: seq<Time>, cutoff: Time)
    requires Nondecreasing(times)
    ensures Nondecreasing(After(times, cutoff)) && forall t <- After(times, cutoff) :: t > cutoff && t in times
  {
    hide Nondecreasing;
    if times != [] {
      var init, last := times[..|times| - 1], times[|times| - 1];
      assert init + [last] == times;
      Snoc(init, last);
      AfterSorted(init, cutoff);
      Snoc(After(init, cutoff), last);
      assert forall t :: t in times <==> t in init || t == last;
    }
  }

  lemma {:induction false} DropOldFrom(times: seq<Time>, cutoff: Time, last: Time)
    requires Nondecreasing(times + [last])
    ensures DropOld(times + [last], cutoff) == if last > cutoff then DropOld(times, cutoff) + [last] else []
  {
    if times != [] {
      assert (times + [last])[1..] == times[1..] + [last];
      DropOldFrom(times[1..], cutoff, last);
      assert last == (times + [last])[|times|] && times[0] == (times + [last])[0];
    } else {
      assert [last][1..] == [];
    }
  }

  /** Popping the front of a sorted queue keeps exactly what is after the cutoff. */
  lemma {:induction false} DropOldIsAfter(times: seq<Time>, early: Time, cutoff: Time)
    requires Nondecreasing(times) && early <= cutoff
    ensures DropOld(After(times, early), cutoff) == After(times, cutoff)
  {
    if times != [] {
      var init, last := times[..|times| - 1], times[|times| - 1];
      DropOldIsAfter(init, early, cutoff);
      AfterSorted(times, early);
      if last > early { DropOldFrom(After(init, early), cutoff, last); }
      if last <= cutoff { NoneAfter(times, cutoff); }
      if last <= early { NoneAfter(times, early); }
    }
  }

  lemma {:induction false} NoneAfter(times: seq<Time>, cutoff: Time)
    requires Nondecreasing(times) && times != [] && times[|times| - 1] <= cutoff
    ensures After(times, cutoff) == []
  {
    if |times| > 1 { NoneAfter(times[..|times| - 1], cutoff); }
  }

  lemma {:induction false} AfterCounts(times: seq<Time>, cutoff: Time, now: Time)
    requires forall t <- times :: t <= now
    ensures |After(times, cutoff)| == InWindow(times, cutoff, now)
  {
    if times != [] {
      var init := times[..|times| - 1];
      forall t | t in init ensures t <= now {
        var i :| 0 <= i < |init| && init[i] == t;
        assert times[i] in times;
      }
      assert times[|times| - 1] in times;
      AfterCounts(init, cutoff, now);
    }
  }

  lemma WindowFits(times: seq<Time>, lo: Time, hi: Time, lo': Time, hi': Time)
    requires lo' <= lo && hi <= hi'
    ensures InWindow(times, lo, hi) <= InWindow(times, lo', hi')
  {
  }

  /** Accepted times are calls: nondecreasing, and none after the last. */
  lemma {:induction false} AcceptedAreCalls(limit: nat, calls: seq<Time>)
    requires Nondecreasing(calls)
    ensures Nondecreasing(AcceptedTimes(limit, calls))
    ensures forall t <- AcceptedTimes(limit, calls) :: t in calls
  {
    hide Nondecreasing, Queue, DropOld;
    if calls != [] {
      var init, last := calls[..|calls| - 1], calls[|calls| - 1];
      assert init + [last] == calls;
      Snoc(init, last);
      AcceptedAreCalls(limit, init);
      Snoc(AcceptedTimes(limit, init), last);
      assert forall t :: t in calls <==> t in init || t == last;
    } else {
      assert AcceptedTimes(limit, calls) == calls;
    }
  }

  /** The queue holds exactly the accepted times of the last minute. */
  lemma {:induction false} QueueIsRecent(limit: nat, calls: seq<Time>)
    requires Nondecreasing(calls) && calls != []
    ensures Queue(limit, calls) == After(AcceptedTimes(limit, calls), calls[|calls| - 1] - MINUTE)
    decreases |calls|, 0
  {
    var init, now := calls[..|calls| - 1], calls[|calls| - 1];
    var before := AcceptedTimes(limit, init);
    Popped(limit, init, now);
    assert (before + [now])[..|before|] == before;
  }

  /** Before a call at `now` the limiter pops down to the accepted times of the minute up to it. */
  lemma {:induction false} Popped(limit: nat, calls: seq<Time>, now: Time)
    requires Nondecreasing(calls) && (calls != [] ==> calls[|calls| - 1] <= now)
    ensures DropOld(Queue(limit, calls), now - MINUTE) == After(AcceptedTimes(limit, calls), now - MINUTE)
    decreases |calls|, 1
  {
    if calls != [] {
      QueueIsRecent(limit, calls);
      AcceptedAreCalls(limit, calls);
      DropOldIsAfter(AcceptedTimes(limit, calls), calls[|calls| - 1] - MINUTE, now - MINUTE);
    }
  }

  /** A call is accepted exactly when fewer than `limit` events were accepted in the sixty seconds up to it. */
  lemma AcceptsIffBelowLimit(limit: nat, calls: seq<Time>, now: Time)
    requires Nondecreasing(calls + [now])
    ensures AcceptedTimes(limit, calls + [now])
            == AcceptedTimes(limit, calls) + if InWindow(AcceptedTimes(limit, calls), now - MINUTE, now) < limit then [now] else []
  {
    hide Nondecreasing, Queue, DropOld, After, InWindow;
    assert (calls + [now])[..|calls|] == calls;
    Snoc(calls, now);
    assert calls != [] ==> calls[|calls| - 1] in calls;
    Popped(limit, calls, now);
    AcceptedAreCalls(limit, calls);
    AfterCounts(AcceptedTimes(limit, calls), now - MINUTE, now);
  }

  /** No half-open window of sixty seconds ever holds more than `limit` accepted events. */
  lemma {:induction false} WindowsAreBounded(limit: nat, calls: seq<Time>, start: Time)
    requires Nondecreasing(calls)
    ensures InWindow(AcceptedTimes(limit, calls), start, start + MINUTE) <= limit
  {
    if calls != [] {
      var init, now := calls[..|calls| - 1], calls[|calls| - 1];
      var before := AcceptedTimes(limit, init);
      WindowsAreBounded(limit, init, start);
      assert init + [now] == calls;
      AcceptsIffBelowLimit(limit, init, now);
      assert (before + [now])[..|before|] == before;
      Snoc(init, now);
      if start < now <= start + MINUTE {
        AcceptedAreCalls(limit, init);
        UpToLast(before, start, start + MINUTE, now);
        WindowFits(before, start, now, now - MINUTE, now);
      }
    }
  }

  /** Beyond the last time a window counts nothing more. */
  lemma {:induction false} UpToLast(times: seq<Time>, lo: Time, hi: Time, last: Time)
    requires last <= hi && forall t <- times :: t <= last
    ensures InWindow(times, lo, hi) == InWindow(times, lo, last)
  {
    if times != [] {
      var init := times[..|times| - 1];
      forall t | t in init ensures t <= last {
        var i :| 0 <= i < |init| && init[i] == t;
        assert times[i] in times;
      }
      assert times[|times| - 1] in times;
      UpToLast(init, lo, hi, last);
    }
  }
}
