/** Lost wake-ups: the one step at which a call that returned can be forgotten, and what runs without such a
    step guarantee. */
module Wakeups {
  import opened Queue

  /** Some worker is between SREM and its read of the job's status. */
  predicate Between(s: Sys, j: Job)
  {
    exists w :: 0 <= w < |s.workers| && s.workers[w].Dequeued? && s.workers[w].job == j
  }

  /** A call that returned, that no handler has seen, and whose job nothing brings to a worker. */
  predicate Lost(s: Sys, c: nat)
  {
    && CallAt(s, c, Returned) && !s.calls[c].seen
    && s.calls[c].job !in s.dedup && !Between(s, s.calls[c].job)
  }

  ghost predicate NoneLost(s: Sys) { forall c :: 0 <= c < |s.calls| ==> !Lost(s, c) }

  /** The step rolls back the mark that a deduplicated call relied on. */
  predicate Loses(s: Sys, e: Event, c: nat)
  {
    && e.Rollback? && CallAt(s, e.c, Failed) && CallAt(s, c, Returned)
    && s.calls[e.c].job == s.calls[c].job && !s.calls[c].seen && !Between(s, s.calls[c].job)
  }

  // ----- one step -----

  lemma BetweenStep(s: Sys, e: Event, j: Job)
    requires Enabled(s, e) && !e.Crash?
    ensures !(e.ReadStatus? && s.workers[e.w].job == j) && Between(s, j) ==> Between(Do(s, e), j)
    ensures e.Srem? && s.workers[e.w].job == j ==> Between(Do(s, e), j)
    ensures !(e.Srem? && s.workers[e.w].job == j) && !Between(s, j) ==> !Between(Do(s, e), j)
  {
    var s' := Do(s, e);
    if Between(s, j) {
      var w :| 0 <= w < |s.workers| && s.workers[w].Dequeued? && s.workers[w].job == j;
      if !(e.ReadStatus? && s.workers[e.w].job == j) {
        assert s'.workers[w].Dequeued? && s'.workers[w].job == j;
      }
    } else if e.Srem? && s.workers[e.w].job == j {
      assert s'.workers[e.w].Dequeued? && s'.workers[e.w].job == j;
    } else if Between(s', j) {
      assert false;
    }
  }

  /** A call is lost at a step exactly when the step is such a rollback. */
  lemma LossStep(s: Sys, e: Event, c: nat)
    requires TokenInv(s) && Enabled(s, e) && !e.Crash? && !Lost(s, c)
    ensures Lost(Do(s, e), c) <==> Loses(s, e, c)
  {
    if c < |s.calls| {
      BetweenStep(s, e, s.calls[c].job);
      if e.Lpush? {
        PushedIsMarked(s, e.c);
      }
    }
  }

  // ----- whole runs -----

  /** No call is lost at any state of the run. */
  ghost predicate NeverLost(s: Sys, events: seq<Event>)
    decreases |events|
  {
    NoneLost(s) && (events != [] ==> Enabled(s, events[0]) && NeverLost(Do(s, events[0]), events[1..]))
  }

  ghost predicate NeverLoses(s: Sys, events: seq<Event>)
    decreases |events|
  {
    events != [] ==>
      && Enabled(s, events[0]) && (forall c :: 0 <= c < |s.calls| ==> !Loses(s, events[0], c))
      && NeverLoses(Do(s, events[0]), events[1..])
  }

  /** Some step of the run loses call c. */
  predicate LosesAlong(s: Sys, events: seq<Event>, c: nat)
    decreases |events|
  {
    && events != [] && Enabled(s, events[0])
    && (Loses(s, events[0], c) || LosesAlong(Do(s, events[0]), events[1..], c))
  }

  lemma NoneLostStep(s: Sys, e: Event)
    requires TokenInv(s) && NoneLost(s) && Enabled(s, e) && !e.Crash?
    ensures NoneLost(Do(s, e)) <==> forall c :: 0 <= c < |s.calls| ==> !Loses(s, e, c)
  {
    forall c | 0 <= c < |Do(s, e).calls|
      ensures Lost(Do(s, e), c) <==> Loses(s, e, c)
    {
      LossStep(s, e, c);
    }
  }

  /** A crash-free run is free of lost calls exactly when none of its steps is such a rollback. */
  lemma {:induction false} NeverLostIff(s: Sys, events: seq<Event>, last: Sys)
    requires TokenInv(s) && NoneLost(s) && NoCrash(events) && Execution(s, events, last)
    ensures NeverLost(s, events) <==> NeverLoses(s, events)
    decreases |events|
  {
    if events == [] {
    } else {
      TokenStep(s, events[0]);
      NoneLostStep(s, events[0]);
      if NoneLost(Do(s, events[0])) {
        NeverLostIff(Do(s, events[0]), events[1..], last);
      }
    }
  }

  lemma {:induction false} LossNeedsRollback(s: Sys, events: seq<Event>, last: Sys, c: nat)
    requires TokenInv(s) && NoCrash(events) && Execution(s, events, last) && !Lost(s, c)
    ensures Lost(last, c) ==> LosesAlong(s, events, c)
    decreases |events|
  {
    if events == [] {
    } else {
      TokenStep(s, events[0]);
      LossStep(s, events[0], c);
      if !Loses(s, events[0], c) {
        LossNeedsRollback(Do(s, events[0]), events[1..], last, c);
      }
    }
  }

  predicate NoPushFailure(events: seq<Event>) { forall k :: 0 <= k < |events| ==> !events[k].LpushFails? }

  lemma {:induction false} NothingLosesWithoutFailure(s: Sys, events: seq<Event>, c: nat)
    requires NoPushFailure(events)
    requires forall k :: 0 <= k < |s.calls| ==> s.calls[k].phase != Failed
    ensures !LosesAlong(s, events, c)
    decreases |events|
  {
    if events == [] || !Enabled(s, events[0]) {
    } else {
      NothingLosesWithoutFailure(Do(s, events[0]), events[1..], c);
    }
  }

  /** Once a call has returned, deduplicated or not, a handler has read the status since the call wrote it,
      or one token waits, or a worker is between SREM and its read, unless some step lost this very call;
      and none does when no LPUSH fails. */
  lemma NoLostWakeup(workers: nat, limit: nat, now: int, events: seq<Event>, last: Sys, c: nat)
    requires NoCrash(events) && Execution(Boot(workers, limit, now), events, last)
    requires CallAt(last, c, Returned)
    ensures var call := last.calls[c];
      || call.seen || Tokens(last, call.job) == 1 || Between(last, call.job)
      || LosesAlong(Boot(workers, limit, now), events, c)
    ensures NoPushFailure(events) ==> !LosesAlong(Boot(workers, limit, now), events, c)
  {
    BootOk(workers, limit, now);
    RunKeepsTokens(Boot(workers, limit, now), events, last);
    LossNeedsRollback(Boot(workers, limit, now), events, last, c);
    assert Tokens(last, last.calls[c].job) == Marked(last, last.calls[c].job);
    if NoPushFailure(events) {
      NothingLosesWithoutFailure(Boot(workers, limit, now), events, c);
    }
  }

  // ----- the race -----

  /** Two calls for one import: the second finds the first one's mark, then the first one's LPUSH fails. */
  function Race(j: Job): seq<Event>
  {
    [StartCall(j), StartCall(j)] + [WriteStatus(0), WriteStatus(1)] + [Sadd(0), Sadd(1)] + [LpushFails(0), Rollback(0)]
  }

  /** The start state with two calls for j at these phases. */
  function Racing(s: Sys, j: Job, a: CallPhase, b: CallPhase, marked: bool): Sys
  {
    s.(calls := [Call(j, a, false), Call(j, b, false)], dedup := if marked then {j} else {})
  }

  lemma TwoSteps(s: Sys, e: Event, f: Event, s': Sys)
    requires Enabled(s, e) && Enabled(Do(s, e), f) && s' == Do(Do(s, e), f)
    ensures Execution(s, [e, f], s')
  {
    assert [e, f][1..] == [f] && [f][1..] == [];
    assert Execution(Do(s, e), [f], s');
  }

  lemma {:induction false} Joined(s: Sys, a: seq<Event>, s': Sys, b: seq<Event>, last: Sys)
    requires Execution(s, a, s') && Execution(s', b, last)
    ensures Execution(s, a + b, last)
    decreases |a|
  {
    if a == [] {
      assert a + b == b;
    } else {
      assert (a + b)[1..] == a[1..] + b;
      Joined(Do(s, a[0]), a[1..], s', b, last);
    }
  }

  lemma RaceStarts(s: Sys, j: Job)
    requires s.calls == [] && s.dedup == {}
    ensures Execution(s, [StartCall(j), StartCall(j)], Racing(s, j, Writing, Writing, false))
  {
    TwoSteps(s, StartCall(j), StartCall(j), Racing(s, j, Writing, Writing, false));
  }

  lemma RaceWrites(s: Sys, j: Job)
    ensures Execution(Racing(s, j, Writing, Writing, false), [WriteStatus(0), WriteStatus(1)],
                      Racing(s, j, Wrote, Wrote, false))
  {
    var s' := Racing(s, j, Wrote, Writing, false);
    assert Do(Racing(s, j, Writing, Writing, false), WriteStatus(0)) == s';
    TwoSteps(Racing(s, j, Writing, Writing, false), WriteStatus(0), WriteStatus(1), Racing(s, j, Wrote, Wrote, false));
  }

  lemma RaceMarks(s: Sys, j: Job)
    ensures Execution(Racing(s, j, Wrote, Wrote, false), [Sadd(0), Sadd(1)], Racing(s, j, Added, Returned, true))
  {
    var s' := Racing(s, j, Added, Wrote, true);
    assert Do(Racing(s, j, Wrote, Wrote, false), Sadd(0)) == s';
    TwoSteps(Racing(s, j, Wrote, Wrote, false), Sadd(0), Sadd(1), Racing(s, j, Added, Returned, true));
  }

  lemma RaceFails(s: Sys, j: Job)
    ensures Execution(Racing(s, j, Added, Returned, true), [LpushFails(0), Rollback(0)],
                      Racing(s, j, Raised, Returned, false))
  {
    var s' := Racing(s, j, Failed, Returned, true);
    assert Do(Racing(s, j, Added, Returned, true), LpushFails(0)) == s';
    assert {j} - {j} == {};
    TwoSteps(Racing(s, j, Added, Returned, true), LpushFails(0), Rollback(0), Racing(s, j, Raised, Returned, false));
  }

  lemma RaceRuns(s: Sys, j: Job)
    requires s.calls == [] && s.dedup == {}
    ensures Execution(s, Race(j), Racing(s, j, Raised, Returned, false))
  {
    var s2, s4 := Racing(s, j, Writing, Writing, false), Racing(s, j, Wrote, Wrote, false);
    var s6, last := Racing(s, j, Added, Returned, true), Racing(s, j, Raised, Returned, false);
    RaceStarts(s, j);
    RaceWrites(s, j);
    RaceMarks(s, j);
    RaceFails(s, j);
    var e0, e2, e4 := [StartCall(j), StartCall(j)], [WriteStatus(0), WriteStatus(1)], [Sadd(0), Sadd(1)];
    Joined(s, e0, s2, e2, s4);
    Joined(s, e0 + e2, s4, e4, s6);
    Joined(s, e0 + e2 + e4, s6, [LpushFails(0), Rollback(0)], last);
  }

  /** The race can happen from boot on: it ends with the second call returned and lost. */
  lemma LostWakeup(workers: nat, limit: nat, now: int, j: Job)
    ensures var last := Racing(Boot(workers, limit, now), j, Raised, Returned, false);
      Execution(Boot(workers, limit, now), Race(j), last) && Lost(last, 1)
  {
    RaceRuns(Boot(workers, limit, now), j);
  }
}
