/** From wake-up to run: the status column, the handler's guard, and when a call's first reader runs the
    pipeline instead of skipping it. The queue protocol is a component of this one. */
module Handlers {
  import Q = Queue
  import Wakeups

  type Job = Q.Job

  datatype Status = Collected | Queued | Generating | Done | Error | Insufficient

  /** The guard of worker_handler: done, generating and insufficient imports are skipped. */
  predicate Executes(st: Status) { !st.Done? && !st.Generating? && !st.Insufficient? }

  /** `running`: workers inside a pipeline run; `past`: those of them that have made the run's final status
      write, with settlement still to come. `ran` and `skipped`: calls by what the first handler to read
      the status after the call's write did. `reported`: calls whose failure has been written. */
  datatype Sys = Sys(q: Q.Sys, status: map<Job, Status>, running: set<nat>, past: set<nat>, ran: set<nat>,
                     skipped: set<nat>, reported: set<nat>)

  datatype Event =
    | Step(e: Q.Event)
    | RunWrites(w: nat, st: Status)   // the pipeline, or the worker's exception handler
    | Refuse(j: Job)                  // a re-run request whose hold failed
    | Report(c: nat)                  // run_auto_pipeline after its enqueue raised

  function StatusOf(s: Sys, j: Job): Status { if j in s.status then s.status[j] else Collected }

  predicate Enabled(s: Sys, e: Event)
  {
    match e
    case Step(e) => Q.Enabled(s.q, e)
    case RunWrites(w, st) =>
      // after the final write only the worker's exception handler can write, and it writes "error"
      RunsNow(s, w) && (st.Error? || (w !in s.past && (st.Generating? || st.Done?)))
    case Refuse(_) => true
    case Report(c) => Q.CallAt(s.q, c, Q.Raised) && c !in s.reported
  }

  predicate RunsNow(s: Sys, w: nat) { w in s.running && w < |s.q.workers| && s.q.workers[w].Running? }

  /** The call has written its status and no handler has read it since. */
  predicate Pending(s: Sys, c: nat)
  {
    c < |s.q.calls| && s.q.calls[c].phase != Q.Writing && !s.q.calls[c].seen
  }

  function PendingFor(s: Sys, j: Job): set<nat>
  {
    set c: nat | c < |s.q.calls| && Pending(s, c) && s.q.calls[c].job == j
  }

  function Write(s: Sys, j: Job, st: Status): Sys { s.(status := s.status[j := st]) }

  /** A handler reads the status of its job: it goes on to run the pipeline, or skips. */
  function Read(s: Sys, w: nat): Sys
    requires w < |s.q.workers| && s.q.workers[w].Dequeued?
  {
    var j := s.q.workers[w].job;
    if Executes(StatusOf(s, j))
    then s.(running := s.running + {w}, past := s.past - {w}, ran := s.ran + PendingFor(s, j))
    else s.(skipped := s.skipped + PendingFor(s, j))
  }

  function Do(s: Sys, e: Event): Sys
    requires Enabled(s, e)
  {
    match e
    case Step(e) => AfterStep(s, e).(q := Q.Do(s.q, e))
    case RunWrites(w, st) =>
      Write(s, s.q.workers[w].job, st).(past := if st.Generating? then s.past else s.past + {w})
    case Refuse(j) => Write(s, j, Insufficient)
    case Report(c) => Write(s, s.q.calls[c].job, Error).(reported := s.reported + {c})
  }

  /** What a step of the protocol does beside the protocol's own state. */
  function AfterStep(s: Sys, e: Q.Event): Sys
    requires Q.Enabled(s.q, e)
  {
    match e
    case WriteStatus(c) => Write(s, s.q.calls[c].job, Queued)
    case ReadStatus(w) => Read(s, w)
    case Release(w) => s.(running := s.running - {w})
    case Crash(w) => s.(running := s.running - {w})
    case _ => s
  }

  ghost predicate Execution(s: Sys, events: seq<Event>, last: Sys)
    decreases |events|
  {
    if events == [] then last == s
    else Enabled(s, events[0]) && Execution(Do(s, events[0]), events[1..], last)
  }

  function Boot(workers: nat, limit: nat, now: int, status: map<Job, Status>): Sys
  {
    Sys(Q.Boot(workers, limit, now), status, {}, {}, {}, {}, {})
  }

  // ----- the protocol inside -----

  /** The steps of the queue protocol in a run. */
  function Steps(events: seq<Event>): seq<Q.Event>
  {
    if events == [] then []
    else (if events[0].Step? then [events[0].e] else []) + Steps(events[1..])
  }

  /** Without its status writes a run is a run of the queue protocol, whose theorems therefore hold. */
  lemma {:induction false} StepsExecute(s: Sys, events: seq<Event>, last: Sys)
    requires Execution(s, events, last)
    ensures Q.Execution(s.q, Steps(events), last.q)
    decreases |events|
  {
    if events == [] {
    } else {
      StepsExecute(Do(s, events[0]), events[1..], last);
      if events[0].Step? {
        assert Steps(events)[0] == events[0].e && Steps(events)[1..] == Steps(events[1..]);
      } else {
        assert Steps(events) == Steps(events[1..]);
      }
    }
  }

  // ----- one step -----

  /** What a step of the protocol does to an existing call. */
  lemma CallAfter(q: Q.Sys, e: Q.Event, c: nat)
    requires Q.Enabled(q, e) && c < |q.calls|
    ensures var q' := Q.Do(q, e);
      && c < |q'.calls| && q'.calls[c].job == q.calls[c].job
      && (q'.calls[c].phase == Q.Writing <==> q.calls[c].phase == Q.Writing && e != Q.WriteStatus(c))
      && (q'.calls[c].seen <==>
            q.calls[c].seen || (e.ReadStatus? && Q.Waiting(q.calls[c], q.workers[e.w].job)))
  {
  }

  /** A step of the protocol brings a call into being only unwritten and unseen. */
  lemma NewCall(q: Q.Sys, e: Q.Event, c: nat)
    requires Q.Enabled(q, e) && |q.calls| <= c < |Q.Do(q, e).calls|
    ensures Q.Do(q, e).calls[c].phase == Q.Writing && !Q.Do(q, e).calls[c].seen
  {
  }

  /** A worker inside its handler was so before, or has just read the status. */
  lemma WorkerAfter(q: Q.Sys, e: Q.Event, w: nat)
    requires Q.Enabled(q, e) && w < |Q.Do(q, e).workers| && Q.Do(q, e).workers[w].Running?
    ensures w < |q.workers| && (q.workers[w].Running? || (e == Q.ReadStatus(w) && q.workers[w].Dequeued?))
    ensures Q.Do(q, e).workers[w].job == q.workers[w].job
  {
  }

  /** The next handler to read would skip although the call asked for a run. */
  predicate Doomed(s: Sys, c: nat) { Pending(s, c) && !Executes(StatusOf(s, s.q.calls[c].job)) }

  /** The step overwrites the status that the call has written. */
  predicate Overrides(s: Sys, e: Event, c: nat)
  {
    Pending(s, c) &&
    match e
    case RunWrites(w, st) => Runs(s, w, s.q.calls[c].job) && !Executes(st)
    case Refuse(j) => j == s.q.calls[c].job
    case _ => false
  }

  /** A call becomes doomed at a step exactly when the step is a write of "generating" or "done" by a run of
      its import that is still active and not past its final write, or of "insufficient" by a refused request. */
  lemma DoomStep(s: Sys, e: Event, c: nat)
    requires Enabled(s, e) && !Doomed(s, c)
    ensures Doomed(Do(s, e), c) <==> Overrides(s, e, c)
  {
    if e.Step? {
      if c < |s.q.calls| {
        CallAfter(s.q, e.e, c);
      } else if c < |Do(s, e).q.calls| {
        NewCall(s.q, e.e, c);
      }
    }
  }

  /** A read decides the fate of the calls pending for its job, by their doom and for good. */
  lemma FateStep(s: Sys, e: Event, c: nat)
    requires Enabled(s, e) && c !in s.skipped && c !in s.ran
    ensures c in Do(s, e).skipped <==> ReadsFor(s, e, c) && Doomed(s, c)
    ensures c in Do(s, e).ran <==> ReadsFor(s, e, c) && !Doomed(s, c)
  {
  }

  /** The step is a handler's read of the status a pending call has written. */
  predicate ReadsFor(s: Sys, e: Event, c: nat)
    requires Enabled(s, e)
  {
    e.Step? && e.e.ReadStatus? && Pending(s, c) && s.q.workers[e.e.w].job == s.q.calls[c].job
  }

  /** A read skips on exactly the statuses done, generating and insufficient, and runs on every other. */
  lemma ReadByStatus(s: Sys, e: Event, c: nat)
    requires Enabled(s, e) && ReadsFor(s, e, c) && c !in s.skipped && c !in s.ran
    ensures var st := StatusOf(s, s.q.calls[c].job);
      && (c in Do(s, e).skipped <==> st == Done || st == Generating || st == Insufficient)
      && (c in Do(s, e).ran <==> st == Collected || st == Queued || st == Error)
  {
    FateStep(s, e, c);
  }

  /** What each status write leaves, and which workers are past their final write after it. */
  lemma StatusAfter(s: Sys, e: Event, j: Job)
    requires Enabled(s, e)
    ensures var s' := Do(s, e);
      && StatusOf(s', j) ==
           (match e
            case Step(e) => if e.WriteStatus? && s.q.calls[e.c].job == j then Queued else StatusOf(s, j)
            case RunWrites(w, st) => if s.q.workers[w].job == j then st else StatusOf(s, j)
            case Refuse(k) => if k == j then Insufficient else StatusOf(s, j)
            case Report(c) => if s.q.calls[c].job == j then Error else StatusOf(s, j))
      && (e.RunWrites? ==>
            && forall w :: w in s'.past <==> w in s.past || (w == e.w && e.st != Generating))
  {
  }

  /** A run may write generating, done or error until its final write, and after that error alone. */
  lemma MayWrite(s: Sys, w: nat, st: Status)
    requires RunsNow(s, w)
    ensures Enabled(s, RunWrites(w, st)) <==> st == Error || (w !in s.past && (st == Generating || st == Done))
  {
  }

  // ----- which calls are run -----

  /** The worker runs the job and has not made the final status write yet. */
  predicate Runs(s: Sys, w: nat, j: Job) { RunsNow(s, w) && w !in s.past && s.q.workers[w].job == j }

  /** Some pipeline run of the job is active and has not made its final status write yet. */
  predicate Active(s: Sys, j: Job) { exists w :: w in s.running && Runs(s, w, j) }

  predicate NoRefusal(events: seq<Event>, j: Job) { forall k :: 0 <= k < |events| ==> events[k] != Refuse(j) }

  /** A call has a fate exactly when it has been seen, and only one. */
  predicate FateOk(s: Sys, c: nat)
  {
    && ((c in s.ran || c in s.skipped) <==> (c < |s.q.calls| && s.q.calls[c].seen))
    && !(c in s.ran && c in s.skipped)
    && (c < |s.q.calls| && s.q.calls[c].phase == Q.Writing ==> !s.q.calls[c].seen)
  }

  ghost predicate FatesOk(s: Sys) { forall c: nat :: FateOk(s, c) }

  lemma FateOkStep(s: Sys, e: Event, c: nat)
    requires FateOk(s, c) && Enabled(s, e)
    ensures FateOk(Do(s, e), c)
  {
    if e.Step? {
      if c < |s.q.calls| {
        CallAfter(s.q, e.e, c);
      } else if c < |Do(s, e).q.calls| {
        NewCall(s.q, e.e, c);
      }
    }
  }

  lemma FatesStep(s: Sys, e: Event)
    requires FatesOk(s) && Enabled(s, e)
    ensures FatesOk(Do(s, e))
  {
    forall c: nat
      ensures FateOk(Do(s, e), c)
    {
      assert FateOk(s, c);
      FateOkStep(s, e, c);
    }
  }

  /** The call is on the way to being run: run already, or pending with nothing that could override it. */
  predicate Secure(s: Sys, c: nat)
  {
    c in s.ran || (Pending(s, c) && !Doomed(s, c) && !Active(s, s.q.calls[c].job))
  }

  /** A run becomes active only by a read. */
  lemma ActiveStep(s: Sys, e: Event, j: Job)
    requires Enabled(s, e) && !Active(s, j)
    requires !(e.Step? && e.e.ReadStatus? && s.q.workers[e.e.w].job == j)
    ensures !Active(Do(s, e), j)
  {
    var s' := Do(s, e);
    forall w | w in s'.running && Runs(s', w, j)
      ensures false
    {
      if e.Step? {
        WorkerAfter(s.q, e.e, w);
      }
      assert Runs(s, w, j);
    }
  }

  lemma SecureStep(s: Sys, e: Event, c: nat)
    requires FateOk(s, c) && Enabled(s, e) && Secure(s, c) && c < |s.q.calls|
    requires e != Refuse(s.q.calls[c].job)
    ensures Secure(Do(s, e), c) && c < |Do(s, e).q.calls| && Do(s, e).q.calls[c].job == s.q.calls[c].job
  {
    if e.Step? {
      CallAfter(s.q, e.e, c);
    }
    if c !in s.ran {
      DoomStep(s, e, c);
      FateStep(s, e, c);
      if !ReadsFor(s, e, c) {
        ActiveStep(s, e, s.q.calls[c].job);
      }
    }
  }

  lemma {:induction false} SecureRun(s: Sys, events: seq<Event>, last: Sys, c: nat)
    requires FatesOk(s) && Secure(s, c) && c < |s.q.calls| && Execution(s, events, last)
    requires NoRefusal(events, s.q.calls[c].job)
    ensures FateOk(last, c) && Secure(last, c) && c < |last.q.calls|
    decreases |events|
  {
    if events == [] {
      assert FateOk(s, c);
    } else {
      assert events[0] != Refuse(s.q.calls[c].job);
      FatesStep(s, events[0]);
      assert FateOk(s, c);
      SecureStep(s, events[0], c);
      SecureRun(Do(s, events[0]), events[1..], last, c);
    }
  }

  /** A call that writes its status when no run of its import has a skipping write before it is never skipped,
      refused requests aside: whatever happens next, crashes included, it is run, or still pending with a status
      that will be run. Without crashes, once it has returned in the latter case a token or a reader is on its
      way, unless it was lost. */
  lemma QuietCallRuns(s: Sys, c: nat, after: seq<Event>, last: Sys)
    requires FatesOk(s) && Enabled(s, Step(Q.WriteStatus(c))) && !Active(s, s.q.calls[c].job)
    requires Execution(Do(s, Step(Q.WriteStatus(c))), after, last) && NoRefusal(after, s.q.calls[c].job)
    ensures c !in last.skipped
    ensures c in last.ran || (Pending(last, c) && Executes(StatusOf(last, last.q.calls[c].job)))
    ensures Q.TokenInv(s.q) && Q.NoCrash(Steps(after)) && Q.CallAt(last.q, c, Q.Returned) ==>
      || c in last.ran || Q.Tokens(last.q, last.q.calls[c].job) == 1 || Wakeups.Between(last.q, last.q.calls[c].job)
      || Wakeups.LosesAlong(Do(s, Step(Q.WriteStatus(c))).q, Steps(after), c)
  {
    var write := Step(Q.WriteStatus(c));
    var s' := Do(s, write);
    FatesStep(s, write);
    assert FateOk(s, c);
    ActiveStep(s, write, s.q.calls[c].job);
    CallAfter(s.q, write.e, c);
    assert Secure(s', c);
    SecureRun(s', after, last, c);
    StepsExecute(s', after, last);
    if Q.TokenInv(s.q) && Q.NoCrash(Steps(after)) && Q.CallAt(last.q, c, Q.Returned) {
      Q.TokenStep(s.q, write.e);
      Wakeups.LossNeedsRollback(s'.q, Steps(after), last.q, c);
      Q.RunKeepsTokens(s'.q, Steps(after), last.q);
      assert Q.Tokens(last.q, last.q.calls[c].job) == Q.Marked(last.q, last.q.calls[c].job);
    }
  }

  // ----- what every run from boot on satisfies -----

  lemma {:induction false} FatesRun(s: Sys, events: seq<Event>, last: Sys)
    requires FatesOk(s) && Execution(s, events, last)
    ensures FatesOk(last)
    decreases |events|
  {
    if events == [] {
    } else {
      FatesStep(s, events[0]);
      FatesRun(Do(s, events[0]), events[1..], last);
    }
  }

  /** The invariants of fates, tokens and slots, with room for one job per user. */
  ghost predicate Base(s: Sys)
  {
    FatesOk(s) && Q.TokenInv(s.q) && Q.SlotInv(s.q) && s.q.limit >= 1
  }

  lemma BaseStep(s: Sys, e: Event)
    requires Base(s) && Enabled(s, e) && !IsCrash(e)
    ensures Base(Do(s, e))
  {
    FatesStep(s, e);
    if e.Step? {
      Q.TokenStep(s.q, e.e);
      Q.SlotStep(s.q, e.e);
    }
  }

  predicate IsCrash(e: Event) { e.Step? && e.e.Crash? }

  predicate NoCrash(events: seq<Event>) { forall k :: 0 <= k < |events| ==> !IsCrash(events[k]) }

  lemma {:induction false} BaseRun(s: Sys, events: seq<Event>, last: Sys)
    requires Base(s) && NoCrash(events) && Execution(s, events, last)
    ensures Base(last)
    decreases |events|
  {
    if events == [] {
    } else {
      BaseStep(s, events[0]);
      BaseRun(Do(s, events[0]), events[1..], last);
    }
  }

  /** Every run from boot keeps the fates; every crash-free one keeps tokens and slots too. */
  lemma FromBoot(workers: nat, limit: nat, now: int, status: map<Job, Status>, events: seq<Event>, last: Sys)
    requires Execution(Boot(workers, limit, now, status), events, last)
    ensures FatesOk(last)
    ensures limit >= 1 && NoCrash(events) ==> Base(last)
  {
    var s := Boot(workers, limit, now, status);
    FatesRun(s, events, last);
    if limit >= 1 && NoCrash(events) {
      Q.BootOk(workers, limit, now);
      BaseRun(s, events, last);
    }
  }
}
