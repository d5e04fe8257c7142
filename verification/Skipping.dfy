/** When a call's first reader can skip it: exactly while an earlier run of its import has its final status
    write before it. The proof lets that run finish and then empties the queue until the job is read. */
module Skipping {
  import opened Handlers
  import Q = Queue
  import Slots
  import Wakeups

  /** No refused request of the job, no crash, no failing push. */
  predicate Ordinary(e: Event, j: Job)
  {
    e != Refuse(j) && !IsCrash(e) && !(e.Step? && e.e.LpushFails?)
  }

  /** Some ordinary continuation ends with the call's first reader having skipped it. */
  ghost predicate CanBeSkipped(s: Sys, c: nat)
    requires c < |s.q.calls|
  {
    exists events, last :: SkippedBy(s, c, events, last)
  }

  ghost predicate SkippedBy(s: Sys, c: nat, events: seq<Event>, last: Sys)
    requires c < |s.q.calls|
  {
    && (forall k :: 0 <= k < |events| ==> Ordinary(events[k], s.q.calls[c].job))
    && Execution(s, events, last) && c in last.skipped
  }

  lemma After(s: Sys, e: Event, c: nat)
    requires Enabled(s, e) && c < |s.q.calls| && Ordinary(e, s.q.calls[c].job)
    requires c < |Do(s, e).q.calls| && Do(s, e).q.calls[c].job == s.q.calls[c].job && CanBeSkipped(Do(s, e), c)
    ensures CanBeSkipped(s, c)
  {
    var rest, last :| SkippedBy(Do(s, e), c, rest, last);
    var events := [e] + rest;
    assert events[1..] == rest;
    forall k | 0 <= k < |events|
      ensures Ordinary(events[k], s.q.calls[c].job)
    {
      if k > 0 {
        assert events[k] == rest[k - 1];
      }
    }
    assert SkippedBy(s, c, events, last);
  }

  // ----- emptying the queue -----

  function Weight(w: Q.Worker): nat
  {
    match w
    case Popped(_) => 4
    case Refused(_) => 6
    case Acquired(_, _) => 3
    case Dequeued(_, _) => 2
    case Running(_, _) => 1
    case _ => 0
  }

  function Load(ws: seq<Q.Worker>): nat
  {
    if ws == [] then 0 else Load(ws[..|ws| - 1]) + Weight(ws[|ws| - 1])
  }

  lemma {:induction false} LoadUpdate(ws: seq<Q.Worker>, k: nat, w: Q.Worker)
    requires k < |ws|
    ensures Load(ws[k := w]) == Load(ws) - Weight(ws[k]) + Weight(w)
    decreases |ws|
  {
    var last := |ws| - 1;
    if k < last {
      LoadUpdate(ws[..last], k, w);
      assert ws[k := w][..last] == ws[..last][k := w];
    } else {
      assert ws[k := w][..last] == ws[..last];
    }
  }

  /** Worker steps still to come before the queue is empty and every worker idle, at most. */
  function Work(q: Q.Sys): nat { 5 * |q.queue| + Load(q.workers) }

  /** The job's token is in the queue or with a worker, or a worker is about to read the status. */
  ghost predicate Coming(q: Q.Sys, j: Job)
  {
    (j in q.dedup && Q.CallTokens(q.calls, j) == 0) || Wakeups.Between(q, j)
  }

  predicate Live(q: Q.Sys) { exists w :: 0 <= w < |q.workers| && !q.workers[w].Dead? }

  ghost predicate Ready(s: Sys, c: nat)
  {
    Base(s) && Live(s.q) && Doomed(s, c) && Coming(s.q, s.q.calls[c].job)
  }

  /** Steps of workers that no status write accompanies. */
  predicate Serving(e: Q.Event)
  {
    e.Brpop? || e.Acquire? || e.PushBack? || e.Srem? || e.ReadStatus? || e.Release? || e.Tick?
  }

  lemma ComingStep(q: Q.Sys, e: Q.Event, j: Job)
    requires Q.Enabled(q, e) && Serving(e) && Coming(q, j)
    requires !(e.ReadStatus? && q.workers[e.w].job == j)
    ensures Coming(Q.Do(q, e), j)
  {
    Wakeups.BetweenStep(q, e, j);
    Q.CallTokensSame(q.calls, Q.Do(q, e).calls, j);
  }

  lemma LiveStep(q: Q.Sys, e: Q.Event)
    requires Q.Enabled(q, e) && Serving(e) && Live(q)
    ensures Live(Q.Do(q, e))
  {
    var w :| 0 <= w < |q.workers| && !q.workers[w].Dead?;
    assert !Q.Do(q, e).workers[w].Dead?;
  }

  lemma DoomedStep(s: Sys, e: Q.Event, c: nat)
    requires Enabled(s, Step(e)) && Serving(e) && Doomed(s, c) && !ReadsFor(s, Step(e), c)
    ensures Doomed(Do(s, Step(e)), c) && Do(s, Step(e)).q.calls[c].job == s.q.calls[c].job
  {
    CallAfter(s.q, e, c);
  }

  lemma ReadyStep(s: Sys, e: Q.Event, c: nat)
    requires Ready(s, c) && Enabled(s, Step(e)) && Serving(e) && !ReadsFor(s, Step(e), c)
    ensures Ready(Do(s, Step(e)), c) && Do(s, Step(e)).q.calls[c].job == s.q.calls[c].job
  {
    BaseStep(s, Step(e));
    LiveStep(s.q, e);
    DoomedStep(s, e, c);
    ComingStep(s.q, e, s.q.calls[c].job);
  }

  lemma ReadSkips(s: Sys, w: nat, c: nat)
    requires FatesOk(s) && Doomed(s, c) && Enabled(s, Step(Q.ReadStatus(w))) && ReadsFor(s, Step(Q.ReadStatus(w)), c)
    ensures CanBeSkipped(s, c)
  {
    var e := Step(Q.ReadStatus(w));
    assert FateOk(s, c);
    FateStep(s, e, c);
    assert [e][1..] == [] && Execution(s, [e], Do(s, e));
    assert SkippedBy(s, c, [e], Do(s, e));
  }

  lemma WorkOfWorker(q: Q.Sys, e: Q.Event)
    requires Q.Enabled(q, e) && (e.Srem? || e.ReadStatus? || e.Release? || e.PushBack? || e.Brpop?)
    ensures Work(Q.Do(q, e)) < Work(q)
  {
    LoadUpdate(q.workers, e.w, Q.Do(q, e).workers[e.w]);
  }

  /** The next step of a worker that holds a slot. */
  function Advance(q: Q.Sys, w: nat): Q.Event
    requires w < |q.workers| && Q.Holds(q.workers[w])
  {
    match q.workers[w]
    case Acquired(_, _) => Q.Srem(w)
    case Dequeued(_, _) => Q.ReadStatus(w)
    case _ => Q.Release(w)
  }

  /** When no worker holds a slot, every counter can expire. */
  lemma CountersExpire(q: Q.Sys)
    requires Q.SlotInv(q) && forall w :: 0 <= w < |q.workers| ==> !Q.Holds(q.workers[w])
    ensures var e := Q.Tick(Slots.ACTIVE_TTL_SECONDS); Q.Enabled(q, e) && Q.Do(q, e).slots == map[]
  {
    forall u | u in q.slots
      ensures q.slots[u].expires <= q.now + Slots.ACTIVE_TTL_SECONDS
    {
      assert Q.UserOk(q, u);
    }
  }

  lemma AcquireWork(q: Q.Sys, w: nat)
    requires w < |q.workers| && q.workers[w].Popped?
    requires Slots.Count(q.slots, q.workers[w].job.user) < q.limit
    ensures Q.Enabled(q, Q.Acquire(w)) && Work(Q.Do(q, Q.Acquire(w))) < Work(q)
  {
    LoadUpdate(q.workers, w, Q.Acquired(q.workers[w].job, q.now));
  }

  lemma {:induction false} NoTokens(ws: seq<Q.Worker>, j: Job)
    requires forall k :: 0 <= k < |ws| ==> ws[k].Idle? || ws[k].Dead?
    ensures Q.WorkerTokens(ws, j) == 0
    decreases |ws|
  {
    if ws == [] {
    } else {
      NoTokens(ws[..|ws| - 1], j);
    }
  }

  /** With every worker idle, the job is in the queue and someone can pop. */
  lemma IdlePops(s: Sys, c: nat) returns (w: nat)
    requires Ready(s, c) && forall k :: 0 <= k < |s.q.workers| ==> s.q.workers[k].Idle? || s.q.workers[k].Dead?
    ensures Q.Enabled(s.q, Q.Brpop(w))
  {
    var j := s.q.calls[c].job;
    w :| 0 <= w < |s.q.workers| && !s.q.workers[w].Dead?;
    NoTokens(s.q.workers, j);
    assert Q.Tokens(s.q, j) == Q.Marked(s.q, j);
    assert Q.Cells(s.q.queue, j) == 1;
    assert j in s.q.queue;
  }

  lemma {:induction false} Drain(s: Sys, c: nat)
    requires Ready(s, c)
    ensures CanBeSkipped(s, c)
    decreases Work(s.q), 1
  {
    var ws := s.q.workers;
    if w: nat :| w < |ws| && Q.Holds(ws[w]) {
      if ReadsFor(s, Step(Advance(s.q, w)), c) {
        ReadSkips(s, w, c);
      } else {
        DrainAfter(s, Advance(s.q, w), c);
      }
    } else if w: nat :| w < |ws| && ws[w].Refused? {
      DrainAfter(s, Q.PushBack(w), c);
    } else if w: nat :| w < |ws| && ws[w].Popped? {
      if Slots.Count(s.q.slots, ws[w].job.user) < s.q.limit {
        DrainAcquire(s, w, c);
      } else {
        // only crashed holders count: their counters expire
        var tick := Q.Tick(Slots.ACTIVE_TTL_SECONDS);
        CountersExpire(s.q);
        ReadyStep(s, tick, c);
        DrainAcquire(Do(s, Step(tick)), w, c);
        After(s, Step(tick), c);
      }
    } else {
      var w := IdlePops(s, c);
      DrainAfter(s, Q.Brpop(w), c);
    }
  }

  lemma {:induction false} DrainAfter(s: Sys, e: Q.Event, c: nat)
    requires Ready(s, c) && Enabled(s, Step(e)) && !ReadsFor(s, Step(e), c)
    requires e.Srem? || e.ReadStatus? || e.Release? || e.PushBack? || e.Brpop?
    ensures CanBeSkipped(s, c)
    decreases Work(s.q), 0
  {
    ReadyStep(s, e, c);
    WorkOfWorker(s.q, e);
    Drain(Do(s, Step(e)), c);
    After(s, Step(e), c);
  }

  lemma {:induction false} DrainAcquire(s: Sys, w: nat, c: nat)
    requires Ready(s, c) && w < |s.q.workers| && s.q.workers[w].Popped?
    requires Slots.Count(s.q.slots, s.q.workers[w].job.user) < s.q.limit
    ensures CanBeSkipped(s, c)
    decreases Work(s.q), 0
  {
    AcquireWork(s.q, w);
    ReadyStep(s, Q.Acquire(w), c);
    Drain(Do(s, Step(Q.Acquire(w))), c);
    After(s, Step(Q.Acquire(w)), c);
  }

  // ----- bringing the job to the queue -----

  /** The call is pending while worker w runs its import, the final write still to come. */
  ghost predicate Overlaps(s: Sys, c: nat, w: nat)
  {
    Base(s) && Pending(s, c) && Runs(s, w, s.q.calls[c].job)
  }

  lemma SkipsComing(s: Sys, c: nat, w: nat)
    requires Overlaps(s, c, w) && Coming(s.q, s.q.calls[c].job)
    ensures CanBeSkipped(s, c)
  {
    var e := RunWrites(w, Done);
    BaseStep(s, e);
    assert !s.q.workers[w].Dead?;
    assert Ready(Do(s, e), c);
    Drain(Do(s, e), c);
    After(s, e, c);
  }

  /** Steps of enqueuers keep the overlap. */
  lemma OverlapStep(s: Sys, e: Q.Event, c: nat, w: nat)
    requires Overlaps(s, c, w) && Enabled(s, Step(e))
    requires e.StartCall? || e.WriteStatus? || e.Sadd? || e.Lpush? || e.Rollback?
    ensures Overlaps(Do(s, Step(e)), c, w) && Do(s, Step(e)).q.calls[c].job == s.q.calls[c].job
  {
    BaseStep(s, Step(e));
    CallAfter(s.q, e, c);
  }

  lemma SkipsAdded(s: Sys, c: nat, w: nat, k: nat)
    requires Overlaps(s, c, w) && Q.CallAt(s.q, k, Q.Added) && s.q.calls[k].job == s.q.calls[c].job
    ensures CanBeSkipped(s, c)
  {
    var e, j := Q.Lpush(k), s.q.calls[c].job;
    var s1 := Do(s, Step(e));
    OverlapStep(s, e, c, w);
    assert Q.Tokens(s1.q, j) == Q.Marked(s1.q, j);
    assert s1.q.queue[0] == j;
    assert Q.Cells(s1.q.queue, j) > 0;
    SkipsComing(s1, c, w);
    After(s, Step(e), c);
  }

  /** Another call for the import brings a token. */
  lemma SkipsUnmarked(s: Sys, c: nat, w: nat)
    requires Overlaps(s, c, w) && s.q.calls[c].job !in s.q.dedup
    ensures CanBeSkipped(s, c)
  {
    var j, n := s.q.calls[c].job, |s.q.calls|;
    OverlapStep(s, Q.StartCall(j), c, w);
    var s1 := Do(s, Step(Q.StartCall(j)));
    OverlapStep(s1, Q.WriteStatus(n), c, w);
    var s2 := Do(s1, Step(Q.WriteStatus(n)));
    OverlapStep(s2, Q.Sadd(n), c, w);
    var s3 := Do(s2, Step(Q.Sadd(n)));
    SkipsAdded(s3, c, w, n);
    After(s2, Step(Q.Sadd(n)), c);
    After(s1, Step(Q.WriteStatus(n)), c);
    After(s, Step(Q.StartCall(j)), c);
  }

  lemma {:induction false} TokenCall(calls: seq<Q.Call>, j: Job) returns (k: nat)
    requires Q.CallTokens(calls, j) > 0
    ensures k < |calls| && calls[k].job == j && (calls[k].phase == Q.Added || calls[k].phase == Q.Failed)
    decreases |calls|
  {
    var last := |calls| - 1;
    if Q.CallToken(calls[last], j) > 0 {
      k := last;
    } else {
      k := TokenCall(calls[..last], j);
    }
  }

  lemma ActiveSkips(s: Sys, c: nat, w: nat)
    requires Overlaps(s, c, w)
    ensures CanBeSkipped(s, c)
  {
    var j := s.q.calls[c].job;
    if j !in s.q.dedup {
      SkipsUnmarked(s, c, w);
    } else if Q.CallTokens(s.q.calls, j) == 0 {
      SkipsComing(s, c, w);
    } else {
      var k := TokenCall(s.q.calls, j);
      if s.q.calls[k].phase == Q.Added {
        SkipsAdded(s, c, w, k);
      } else {
        OverlapStep(s, Q.Rollback(k), c, w);
        SkipsUnmarked(Do(s, Step(Q.Rollback(k))), c, w);
        After(s, Step(Q.Rollback(k)), c);
      }
    }
  }

  /** A pending call whose status would be run can still be skipped, by some ordinary continuation, exactly when
      an earlier run of its import is active and has its final status write before it. This holds at any limit
      from one job per user on, wherever the call and its token stand. */
  lemma SkippableIff(s: Sys, c: nat)
    requires Base(s) && Pending(s, c) && !Doomed(s, c)
    ensures CanBeSkipped(s, c) <==> Active(s, s.q.calls[c].job)
  {
    var j := s.q.calls[c].job;
    if Active(s, j) {
      var w :| w in s.running && Runs(s, w, j);
      ActiveSkips(s, c, w);
    } else {
      forall events, last | SkippedBy(s, c, events, last)
        ensures false
      {
        assert NoRefusal(events, j);
        SecureRun(s, events, last, c);
      }
    }
  }
}
