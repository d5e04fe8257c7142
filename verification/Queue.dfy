/** The work queue as a distributed protocol: enqueuers and workers interleave at single Redis commands over a
    dedup set, a list and the slot counters. */
module Queue {
  import Slots

  datatype Job = Job(user: int, imp: int)

  // ----- processes -----

  /** Where a run_auto_pipeline call stands. */
  datatype CallPhase =
    | Writing     // about to write status 'queued'
    | Wrote       // status written, about to SADD
    | Added       // SADD added the job, about to LPUSH
    | Failed      // LPUSH failed, about to roll back with SREM
    | Raised      // rolled back; the caller reports the error
    | Returned    // returned normally, pushed or deduplicated

  /** `seen`: some handler has read the import's status since this call wrote it. */
  datatype Call = Call(job: Job, phase: CallPhase, seen: bool)

  datatype Worker =
    | Idle
    | Popped(job: Job)                 // BRPOP returned, about to acquire
    | Refused(job: Job)                // at the limit, about to RPUSH back
    | Acquired(job: Job, beat: int)    // slot taken, about to SREM
    | Dequeued(job: Job, beat: int)    // about to read the import's status
    | Running(job: Job, beat: int)     // inside the handler
    | Dead                             // crashed without releasing

  datatype Sys = Sys(
    dedup: set<Job>,
    queue: seq<Job>,       // index 0 is the LPUSH end; BRPOP and RPUSH work on the last index
    slots: Slots.Slots,
    calls: seq<Call>,
    workers: seq<Worker>,
    now: int,
    limit: nat,
    crashed: bool)

  datatype Event =
    | StartCall(job: Job)
    | WriteStatus(c: nat)
    | Sadd(c: nat)
    | Lpush(c: nat)
    | LpushFails(c: nat)
    | Rollback(c: nat)
    | Brpop(w: nat)
    | Acquire(w: nat)
    | PushBack(w: nat)
    | Srem(w: nat)
    | ReadStatus(w: nat)
    | Release(w: nat)
    | Beat(w: nat)
    | LateBeat(user: int)
    | Crash(w: nat)
    | Tick(seconds: nat)

  predicate Holds(w: Worker) { w.Acquired? || w.Dequeued? || w.Running? }

  predicate CallAt(s: Sys, c: nat, p: CallPhase) { c < |s.calls| && s.calls[c].phase == p }

  predicate Enabled(s: Sys, e: Event)
  {
    match e
    case StartCall(_) => true
    case WriteStatus(c) => CallAt(s, c, Writing)
    case Sadd(c) => CallAt(s, c, Wrote)
    case Lpush(c) => CallAt(s, c, Added)
    case LpushFails(c) => CallAt(s, c, Added)
    case Rollback(c) => CallAt(s, c, Failed)
    case Brpop(w) => w < |s.workers| && s.workers[w].Idle? && s.queue != []
    case Acquire(w) => w < |s.workers| && s.workers[w].Popped?
    case PushBack(w) => w < |s.workers| && s.workers[w].Refused?
    case Srem(w) => w < |s.workers| && s.workers[w].Acquired?
    case ReadStatus(w) => w < |s.workers| && s.workers[w].Dequeued?
    case Release(w) => w < |s.workers| && s.workers[w].Running?
    case Beat(w) => w < |s.workers| && Holds(s.workers[w])
    case LateBeat(_) => true
    case Crash(w) => w < |s.workers| && !s.workers[w].Dead?
    // live holders renew in time: no 120 s pass without a beat
    case Tick(seconds) =>
      forall w :: 0 <= w < |s.workers| && Holds(s.workers[w]) ==>
        s.now + seconds <= s.workers[w].beat + Slots.HEARTBEAT_SECONDS
  }

  function SetCall(s: Sys, c: nat, p: CallPhase): Sys
    requires c < |s.calls|
  {
    s.(calls := s.calls[c := s.calls[c].(phase := p)])
  }

  function SetWorker(s: Sys, w: nat, next: Worker): Sys
    requires w < |s.workers|
  {
    s.(workers := s.workers[w := next])
  }

  predicate Waiting(c: Call, j: Job) { c.job == j && c.phase != Writing }

  function MarkSeen(calls: seq<Call>, j: Job): (r: seq<Call>)
    ensures |r| == |calls|
  {
    seq(|calls|, k requires 0 <= k < |calls| => if Waiting(calls[k], j) then calls[k].(seen := true) else calls[k])
  }

  function Do(s: Sys, e: Event): Sys
    requires Enabled(s, e)
  {
    match e
    case StartCall(j) => s.(calls := s.calls + [Call(j, Writing, false)])
    case WriteStatus(c) => SetCall(s, c, Wrote)
    case Sadd(c) =>
      var j := s.calls[c].job;
      if j in s.dedup then SetCall(s, c, Returned) else SetCall(s, c, Added).(dedup := s.dedup + {j})
    case Lpush(c) => SetCall(s, c, Returned).(queue := [s.calls[c].job] + s.queue)
    case LpushFails(c) => SetCall(s, c, Failed)
    case Rollback(c) => SetCall(s, c, Raised).(dedup := s.dedup - {s.calls[c].job})
    case Brpop(w) =>
      var last := |s.queue| - 1;
      SetWorker(s, w, Popped(s.queue[last])).(queue := s.queue[..last])
    case Acquire(w) =>
      var j := s.workers[w].job;
      var (slots, ok) := Slots.Acquire(s.slots, j.user, s.limit, s.now);
      SetWorker(s, w, if ok then Acquired(j, s.now) else Refused(j)).(slots := slots)
    case PushBack(w) => SetWorker(s, w, Idle).(queue := s.queue + [s.workers[w].job])
    case Srem(w) =>
      var j := s.workers[w].job;
      SetWorker(s, w, Dequeued(j, s.workers[w].beat)).(dedup := s.dedup - {j})
    case ReadStatus(w) =>
      var j := s.workers[w].job;
      SetWorker(s, w, Running(j, s.workers[w].beat)).(calls := MarkSeen(s.calls, j))
    case Release(w) => SetWorker(s, w, Idle).(slots := Slots.Release(s.slots, s.workers[w].job.user))
    case Beat(w) =>
      SetWorker(s, w, s.workers[w].(beat := s.now)).(slots := Slots.Renew(s.slots, s.workers[w].job.user, s.now))
    case LateBeat(u) => s.(slots := Slots.Renew(s.slots, u, s.now))
    case Crash(w) => SetWorker(s, w, Dead).(crashed := true)
    case Tick(seconds) =>
      s.(now := s.now + seconds, slots := Slots.Unexpired(s.slots, s.now + seconds))
  }

  ghost predicate Execution(s: Sys, events: seq<Event>, last: Sys)
    decreases |events|
  {
    if events == [] then last == s
    else Enabled(s, events[0]) && Execution(Do(s, events[0]), events[1..], last)
  }

  // ----- waiting tokens -----

  function CallToken(c: Call, j: Job): nat
  {
    if (c.phase == Added || c.phase == Failed) && c.job == j then 1 else 0
  }

  function CallTokens(calls: seq<Call>, j: Job): nat
  {
    if calls == [] then 0 else CallTokens(calls[..|calls| - 1], j) + CallToken(calls[|calls| - 1], j)
  }

  function WorkerToken(w: Worker, j: Job): nat
  {
    if (w.Popped? || w.Refused? || w.Acquired?) && w.job == j then 1 else 0
  }

  function WorkerTokens(workers: seq<Worker>, j: Job): nat
  {
    if workers == [] then 0
    else WorkerTokens(workers[..|workers| - 1], j) + WorkerToken(workers[|workers| - 1], j)
  }

  function Cells(queue: seq<Job>, j: Job): nat { multiset(queue)[j] }

  /** Everything that will still bring a job to a worker: an enqueuer between SADD and LPUSH (or rollback),
      a queue cell, a worker before SREM. */
  function Tokens(s: Sys, j: Job): nat
  {
    CallTokens(s.calls, j) + Cells(s.queue, j) + WorkerTokens(s.workers, j)
  }

  function Marked(s: Sys, j: Job): nat { if j in s.dedup then 1 else 0 }

  /** A job is in the dedup set exactly when it has one token; a job outside the set has none. */
  ghost predicate TokenInv(s: Sys) { forall j :: Tokens(s, j) == Marked(s, j) }

  lemma {:induction false} CallTokensUpdate(calls: seq<Call>, k: nat, c: Call, j: Job)
    requires k < |calls|
    ensures CallToken(calls[k], j) <= CallTokens(calls, j)
    ensures CallTokens(calls[k := c], j) == CallTokens(calls, j) - CallToken(calls[k], j) + CallToken(c, j)
    decreases |calls|
  {
    var last := |calls| - 1;
    if k < last {
      CallTokensUpdate(calls[..last], k, c, j);
      assert calls[k := c][..last] == calls[..last][k := c];
    } else {
      assert calls[k := c][..last] == calls[..last];
    }
  }

  lemma {:induction false} CallTokensSame(a: seq<Call>, b: seq<Call>, j: Job)
    requires |a| == |b| && forall k :: 0 <= k < |a| ==> a[k].job == b[k].job && a[k].phase == b[k].phase
    ensures CallTokens(a, j) == CallTokens(b, j)
    decreases |a|
  {
    if a == [] {
    } else {
      CallTokensSame(a[..|a| - 1], b[..|b| - 1], j);
    }
  }

  lemma {:induction false} WorkerTokensUpdate(ws: seq<Worker>, k: nat, w: Worker, j: Job)
    requires k < |ws|
    ensures WorkerToken(ws[k], j) <= WorkerTokens(ws, j)
    ensures WorkerTokens(ws[k := w], j) == WorkerTokens(ws, j) - WorkerToken(ws[k], j) + WorkerToken(w, j)
    decreases |ws|
  {
    var last := |ws| - 1;
    if k < last {
      WorkerTokensUpdate(ws[..last], k, w, j);
      assert ws[k := w][..last] == ws[..last][k := w];
    } else {
      assert ws[k := w][..last] == ws[..last];
    }
  }

  lemma CellsPush(queue: seq<Job>, x: Job, j: Job)
    ensures Cells([x] + queue, j) == Cells(queue, j) + (if x == j then 1 else 0)
    ensures Cells(queue + [x], j) == Cells(queue, j) + (if x == j then 1 else 0)
  {
    assert multiset([x] + queue) == multiset{x} + multiset(queue);
    assert multiset(queue + [x]) == multiset(queue) + multiset{x};
  }

  lemma CellsPop(queue: seq<Job>, j: Job)
    requires queue != []
    ensures Cells(queue, j) == Cells(queue[..|queue| - 1], j) + (if queue[|queue| - 1] == j then 1 else 0)
  {
    assert queue == queue[..|queue| - 1] + [queue[|queue| - 1]];
    CellsPush(queue[..|queue| - 1], queue[|queue| - 1], j);
  }

  /** A step that moves one call, and no token elsewhere. */
  lemma CallMoves(s: Sys, s': Sys, c: nat, p: CallPhase, j: Job)
    requires c < |s.calls| && s'.calls == s.calls[c := s.calls[c].(phase := p)]
    requires s'.queue == s.queue && s'.workers == s.workers
    ensures Tokens(s', j) == Tokens(s, j) - CallToken(s.calls[c], j) + CallToken(s.calls[c].(phase := p), j)
    ensures CallToken(s.calls[c], j) <= Tokens(s, j)
  {
    CallTokensUpdate(s.calls, c, s.calls[c].(phase := p), j);
  }

  /** A step that moves one worker, and no token elsewhere. */
  lemma WorkerMoves(s: Sys, s': Sys, w: nat, next: Worker, j: Job)
    requires w < |s.workers| && s'.workers == s.workers[w := next]
    requires s'.queue == s.queue && s'.calls == s.calls
    ensures Tokens(s', j) == Tokens(s, j) - WorkerToken(s.workers[w], j) + WorkerToken(next, j)
    ensures WorkerToken(s.workers[w], j) <= Tokens(s, j)
  {
    WorkerTokensUpdate(s.workers, w, next, j);
  }

  lemma SaddKeepsTokens(s: Sys, c: nat, j: Job)
    requires TokenInv(s) && Enabled(s, Sadd(c))
    ensures Tokens(Do(s, Sadd(c)), j) == Marked(Do(s, Sadd(c)), j)
  {
    assert Tokens(s, j) == Marked(s, j);
    CallMoves(s, Do(s, Sadd(c)), c, if s.calls[c].job in s.dedup then Returned else Added, j);
  }

  lemma RollbackKeepsTokens(s: Sys, c: nat, j: Job)
    requires TokenInv(s) && Enabled(s, Rollback(c))
    ensures Tokens(Do(s, Rollback(c)), j) == Marked(Do(s, Rollback(c)), j)
  {
    assert Tokens(s, j) == Marked(s, j);
    CallMoves(s, Do(s, Rollback(c)), c, Raised, j);
  }

  lemma CallEventKeepsTokens(s: Sys, e: Event, j: Job)
    requires TokenInv(s) && Enabled(s, e) && (e.WriteStatus? || e.LpushFails?)
    ensures Tokens(Do(s, e), j) == Marked(Do(s, e), j)
  {
    assert Tokens(s, j) == Marked(s, j);
    CallMoves(s, Do(s, e), e.c, if e.WriteStatus? then Wrote else Failed, j);
  }

  lemma PushKeepsTokens(s: Sys, c: nat, j: Job)
    requires TokenInv(s) && Enabled(s, Lpush(c))
    ensures Tokens(Do(s, Lpush(c)), j) == Marked(Do(s, Lpush(c)), j)
  {
    assert Tokens(s, j) == Marked(s, j);
    CallTokensUpdate(s.calls, c, s.calls[c].(phase := Returned), j);
    CellsPush(s.queue, s.calls[c].job, j);
  }

  lemma StartKeepsTokens(s: Sys, started: Job, j: Job)
    requires TokenInv(s)
    ensures Tokens(Do(s, StartCall(started)), j) == Marked(Do(s, StartCall(started)), j)
  {
    assert Tokens(s, j) == Marked(s, j);
    assert Do(s, StartCall(started)).calls[..|s.calls|] == s.calls;
  }

  lemma PopKeepsTokens(s: Sys, w: nat, j: Job)
    requires TokenInv(s) && Enabled(s, Brpop(w))
    ensures Tokens(Do(s, Brpop(w)), j) == Marked(Do(s, Brpop(w)), j)
  {
    assert Tokens(s, j) == Marked(s, j);
    WorkerTokensUpdate(s.workers, w, Popped(s.queue[|s.queue| - 1]), j);
    CellsPop(s.queue, j);
  }

  lemma PushBackKeepsTokens(s: Sys, w: nat, j: Job)
    requires TokenInv(s) && Enabled(s, PushBack(w))
    ensures Tokens(Do(s, PushBack(w)), j) == Marked(Do(s, PushBack(w)), j)
  {
    assert Tokens(s, j) == Marked(s, j);
    WorkerTokensUpdate(s.workers, w, Idle, j);
    CellsPush(s.queue, s.workers[w].job, j);
  }

  lemma ReadKeepsTokens(s: Sys, w: nat, j: Job)
    requires TokenInv(s) && Enabled(s, ReadStatus(w))
    ensures Tokens(Do(s, ReadStatus(w)), j) == Marked(Do(s, ReadStatus(w)), j)
  {
    assert Tokens(s, j) == Marked(s, j);
    WorkerTokensUpdate(s.workers, w, Running(s.workers[w].job, s.workers[w].beat), j);
    CallTokensSame(s.calls, MarkSeen(s.calls, s.workers[w].job), j);
  }

  lemma WorkerEventKeepsTokens(s: Sys, e: Event, j: Job)
    requires TokenInv(s) && Enabled(s, e)
    requires e.Acquire? || e.Srem? || e.Release? || e.Beat?
    ensures Tokens(Do(s, e), j) == Marked(Do(s, e), j)
  {
    assert Tokens(s, j) == Marked(s, j);
    WorkerMoves(s, Do(s, e), e.w, Do(s, e).workers[e.w], j);
  }

  lemma TokenStep(s: Sys, e: Event)
    requires TokenInv(s) && Enabled(s, e) && !e.Crash?
    ensures TokenInv(Do(s, e))
  {
    forall j
      ensures Tokens(Do(s, e), j) == Marked(Do(s, e), j)
    {
      assert Tokens(s, j) == Marked(s, j);
      match e
      case StartCall(started) => StartKeepsTokens(s, started, j);
      case Lpush(c) => PushKeepsTokens(s, c, j);
      case Brpop(w) => PopKeepsTokens(s, w, j);
      case PushBack(w) => PushBackKeepsTokens(s, w, j);
      case ReadStatus(w) => ReadKeepsTokens(s, w, j);
      case Sadd(c) => SaddKeepsTokens(s, c, j);
      case Rollback(c) => RollbackKeepsTokens(s, c, j);
      case WriteStatus(_) => CallEventKeepsTokens(s, e, j);
      case LpushFails(_) => CallEventKeepsTokens(s, e, j);
      case LateBeat(_) =>
      case Tick(_) =>
      case _ => WorkerEventKeepsTokens(s, e, j);
    }
  }

  lemma PushedIsMarked(s: Sys, c: nat)
    requires TokenInv(s) && CallAt(s, c, Added)
    ensures s.calls[c].job in s.dedup
  {
    var j := s.calls[c].job;
    assert Tokens(s, j) == Marked(s, j);
    CallTokensUpdate(s.calls, c, s.calls[c], j);
  }

  // ----- slot safety -----

  function Holders(ws: seq<Worker>, u: int): nat
  {
    if ws == [] then 0
    else
      var w := ws[|ws| - 1];
      Holders(ws[..|ws| - 1], u) + (if Holds(w) && w.job.user == u then 1 else 0)
  }

  lemma {:induction false} HoldersUpdate(ws: seq<Worker>, k: nat, w: Worker, u: int)
    requires k < |ws|
    ensures Holders(ws, u) >= if Holds(ws[k]) && ws[k].job.user == u then 1 else 0
    ensures Holders(ws[k := w], u) == Holders(ws, u)
      - (if Holds(ws[k]) && ws[k].job.user == u then 1 else 0) + (if Holds(w) && w.job.user == u then 1 else 0)
    decreases |ws|
  {
    var last := |ws| - 1;
    if k < last {
      HoldersUpdate(ws[..last], k, w, u);
      assert ws[k := w][..last] == ws[..last][k := w];
    } else {
      assert ws[k := w][..last] == ws[..last];
    }
  }

  lemma {:induction false} NoHolders(ws: seq<Worker>, u: int)
    requires forall k :: 0 <= k < |ws| ==> !(Holds(ws[k]) && ws[k].job.user == u)
    ensures Holders(ws, u) == 0
    decreases |ws|
  {
    if ws == [] {
    } else {
      NoHolders(ws[..|ws| - 1], u);
    }
  }

  predicate BeatOk(s: Sys, w: Worker)
  {
    Holds(w) ==>
      && w.beat <= s.now <= w.beat + Slots.HEARTBEAT_SECONDS
      && w.job.user in s.slots && s.slots[w.job.user].expires >= w.beat + Slots.ACTIVE_TTL_SECONDS
  }

  /** Live holders <= active <= limit, with equality on the left while nothing has crashed; the user's key, if
      there is one, counts someone and has not expired. */
  ghost predicate UserOk(s: Sys, u: int)
  {
    && Holders(s.workers, u) <= Slots.Count(s.slots, u) <= s.limit
    && (!s.crashed ==> Holders(s.workers, u) == Slots.Count(s.slots, u))
    && (u in s.slots ==>
          s.slots[u].count >= 1 && s.now < s.slots[u].expires <= s.now + Slots.ACTIVE_TTL_SECONDS)
  }

  /** So for every user; and a live holder's key is there, its expiry beyond reach. */
  ghost predicate SlotInv(s: Sys)
  {
    (forall u :: UserOk(s, u)) && (forall w :: 0 <= w < |s.workers| ==> BeatOk(s, s.workers[w]))
  }

  lemma TickKeepsUser(s: Sys, seconds: nat, u: int)
    requires SlotInv(s) && Enabled(s, Tick(seconds))
    ensures UserOk(Do(s, Tick(seconds)), u)
  {
    assert UserOk(s, u);
    if u !in Do(s, Tick(seconds)).slots {
      assert forall k :: 0 <= k < |s.workers| ==> BeatOk(s, s.workers[k]);
      NoHolders(s.workers, u);
    }
  }

  lemma SlotTick(s: Sys, seconds: nat)
    requires SlotInv(s) && Enabled(s, Tick(seconds))
    ensures SlotInv(Do(s, Tick(seconds)))
  {
    var s' := Do(s, Tick(seconds));
    forall u
      ensures UserOk(s', u)
    {
      TickKeepsUser(s, seconds, u);
    }
    forall w | 0 <= w < |s'.workers|
      ensures BeatOk(s', s'.workers[w])
    {
      assert BeatOk(s, s.workers[w]);
    }
  }

  /** Steps of enqueuers touch neither workers nor slots. */
  lemma SlotsUntouched(s: Sys, s': Sys)
    requires SlotInv(s) && s'.workers == s.workers && s'.slots == s.slots
    requires s'.now == s.now && s'.limit == s.limit && s'.crashed == s.crashed
    ensures SlotInv(s')
  {
    forall u
      ensures UserOk(s', u)
    {
      assert UserOk(s, u);
    }
    forall w | 0 <= w < |s'.workers|
      ensures BeatOk(s', s'.workers[w])
    {
      assert BeatOk(s, s.workers[w]);
    }
  }

  lemma SlotLateBeat(s: Sys, v: int)
    requires SlotInv(s)
    ensures SlotInv(Do(s, LateBeat(v)))
  {
    var s' := Do(s, LateBeat(v));
    forall u
      ensures UserOk(s', u)
    {
      assert UserOk(s, u);
    }
    forall w | 0 <= w < |s'.workers|
      ensures BeatOk(s', s'.workers[w])
    {
      assert BeatOk(s, s.workers[w]);
    }
  }

  lemma SlotStep(s: Sys, e: Event)
    requires SlotInv(s) && Enabled(s, e)
    ensures SlotInv(Do(s, e))
  {
    if e.Tick? {
      SlotTick(s, e.seconds);
    } else if e.LateBeat? {
      SlotLateBeat(s, e.user);
    } else if WorkerEvent(e) {
      SlotWorkerStep(s, e);
    } else {
      SlotsUntouched(s, Do(s, e));
    }
  }

  predicate WorkerEvent(e: Event)
  {
    e.Brpop? || e.Acquire? || e.PushBack? || e.Srem? || e.ReadStatus? || e.Release? || e.Beat? || e.Crash?
  }

  lemma SlotWorkerStep(s: Sys, e: Event)
    requires SlotInv(s) && Enabled(s, e) && WorkerEvent(e)
    ensures SlotInv(Do(s, e))
  {
    var s' := Do(s, e);
    forall u
      ensures UserOk(s', u)
    {
      CountStep(s, e, u);
    }
    forall w | 0 <= w < |s'.workers|
      ensures BeatOk(s', s'.workers[w])
    {
      BeatStep(s, e, w);
    }
  }

  lemma CountAcquire(s: Sys, w: nat, u: int)
    requires UserOk(s, u) && Enabled(s, Acquire(w))
    ensures UserOk(Do(s, Acquire(w)), u)
  {
    HoldersUpdate(s.workers, w, Do(s, Acquire(w)).workers[w], u);
    CountElsewhere(s, Acquire(w), u);
  }

  lemma CountRelease(s: Sys, w: nat, u: int)
    requires UserOk(s, u) && Enabled(s, Release(w))
    ensures UserOk(Do(s, Release(w)), u)
  {
    HoldersUpdate(s.workers, w, Idle, u);
    CountElsewhere(s, Release(w), u);
  }

  lemma CountOther(s: Sys, e: Event, u: int)
    requires UserOk(s, u) && Enabled(s, e) && WorkerEvent(e) && !e.Acquire? && !e.Release?
    ensures UserOk(Do(s, e), u)
  {
    HoldersUpdate(s.workers, e.w, Do(s, e).workers[e.w], u);
  }

  lemma CountStep(s: Sys, e: Event, u: int)
    requires SlotInv(s) && Enabled(s, e) && WorkerEvent(e)
    ensures UserOk(Do(s, e), u)
  {
    assert UserOk(s, u);
    if e.Acquire? {
      CountAcquire(s, e.w, u);
    } else if e.Release? {
      CountRelease(s, e.w, u);
    } else {
      CountOther(s, e, u);
    }
  }

  lemma CountElsewhere(s: Sys, e: Event, u: int)
    requires Enabled(s, e) && WorkerEvent(e)
    ensures var s' := Do(s, e);
      s'.slots != s.slots && s.workers[e.w].job.user != u ==>
        (u in s'.slots <==> u in s.slots) && (u in s.slots ==> s'.slots[u] == s.slots[u])
  {
  }

  lemma BeatStep(s: Sys, e: Event, w: nat)
    requires SlotInv(s) && Enabled(s, e) && WorkerEvent(e) && w < |s.workers|
    ensures BeatOk(Do(s, e), Do(s, e).workers[w])
  {
    var s' := Do(s, e);
    assert BeatOk(s, s.workers[w]);
    if w != e.w && Holds(s.workers[w]) {
      var u := s.workers[w].job.user;
      CountElsewhere(s, e, u);
      // another holder of the same user keeps the count at one or more
      HoldersUpdate(s'.workers, w, Idle, u);
      CountStep(s, e, u);
    }
  }

  // ----- theorems about whole runs -----

  /** The worker process just started on an empty Redis. */
  function Boot(workers: nat, limit: nat, now: int): Sys
  {
    Sys({}, [], map[], [], seq(workers, _ => Idle), now, limit, false)
  }

  predicate NoCrash(events: seq<Event>) { forall k :: 0 <= k < |events| ==> !events[k].Crash? }

  lemma {:induction false} RunKeepsTokens(s: Sys, events: seq<Event>, last: Sys)
    requires TokenInv(s) && NoCrash(events) && Execution(s, events, last)
    ensures TokenInv(last)
    decreases |events|
  {
    if events == [] {
    } else {
      TokenStep(s, events[0]);
      RunKeepsTokens(Do(s, events[0]), events[1..], last);
    }
  }

  lemma {:induction false} IdleTokens(ws: seq<Worker>, j: Job)
    requires forall k :: 0 <= k < |ws| ==> ws[k].Idle?
    ensures WorkerTokens(ws, j) == 0
    decreases |ws|
  {
    if ws == [] {
    } else {
      IdleTokens(ws[..|ws| - 1], j);
    }
  }

  lemma BootOk(workers: nat, limit: nat, now: int)
    ensures var s := Boot(workers, limit, now); TokenInv(s) && SlotInv(s)
  {
    var s := Boot(workers, limit, now);
    forall j
      ensures Tokens(s, j) == Marked(s, j)
    {
      IdleTokens(s.workers, j);
    }
    forall u
      ensures Holders(s.workers, u) == 0
    {
      NoHolders(s.workers, u);
    }
  }

  /** In every interleaving without crashes, a job is in the dedup set exactly when one token for it exists,
      and has none otherwise; LPUSH failures with their rollback included. */
  lemma OneTokenPerMark(workers: nat, limit: nat, now: int, events: seq<Event>, last: Sys, j: Job)
    requires NoCrash(events) && Execution(Boot(workers, limit, now), events, last)
    ensures j in last.dedup <==> Tokens(last, j) == 1
    ensures j !in last.dedup <==> Tokens(last, j) == 0
  {
    BootOk(workers, limit, now);
    RunKeepsTokens(Boot(workers, limit, now), events, last);
    assert Tokens(last, j) == Marked(last, j);
  }

  lemma {:induction false} RunKeepsSlots(s: Sys, events: seq<Event>, last: Sys)
    requires SlotInv(s) && Execution(s, events, last)
    ensures SlotInv(last) && last.limit == s.limit
    ensures NoCrash(events) ==> last.crashed == s.crashed
    decreases |events|
  {
    if events == [] {
    } else {
      SlotStep(s, events[0]);
      RunKeepsSlots(Do(s, events[0]), events[1..], last);
    }
  }

  /** With timely heartbeats, crashes or not: live holders <= active <= limit, equal while nothing has
      crashed, and no live holder's key is anywhere near its expiry. */
  lemma SlotSafety(workers: nat, limit: nat, now: int, events: seq<Event>, last: Sys, u: int)
    requires Execution(Boot(workers, limit, now), events, last)
    ensures Holders(last.workers, u) <= Slots.Count(last.slots, u) <= limit
    ensures NoCrash(events) ==> Holders(last.workers, u) == Slots.Count(last.slots, u)
    ensures Holders(last.workers, u) > 0 ==>
      u in last.slots
      && last.slots[u].expires >= last.now + Slots.ACTIVE_TTL_SECONDS - Slots.HEARTBEAT_SECONDS
  {
    BootOk(workers, limit, now);
    RunKeepsSlots(Boot(workers, limit, now), events, last);
    assert UserOk(last, u);
    if Holders(last.workers, u) > 0 {
      var k := SomeHolder(last.workers, u);
      assert BeatOk(last, last.workers[k]);
    }
  }

  lemma SomeHolder(ws: seq<Worker>, u: int) returns (k: nat)
    requires Holders(ws, u) > 0
    ensures k < |ws| && Holds(ws[k]) && ws[k].job.user == u
  {
    if !exists i :: 0 <= i < |ws| && Holds(ws[i]) && ws[i].job.user == u {
      NoHolders(ws, u);
    }
    k :| 0 <= k < |ws| && Holds(ws[k]) && ws[k].job.user == u;
  }

  // ----- where the guarantees stop -----

  /** A crash can come at any time, and one of a holder leaves the counter one above the live holders. */
  lemma CrashLeavesSlot(s: Sys, w: nat)
    requires SlotInv(s) && w < |s.workers| && Holds(s.workers[w])
    ensures Enabled(s, Crash(w))
    ensures var u, s' := s.workers[w].job.user, Do(s, Crash(w));
      Holders(s'.workers, u) == Holders(s.workers, u) - 1 && Slots.Count(s'.slots, u) == Slots.Count(s.slots, u)
  {
    HoldersUpdate(s.workers, w, Dead, s.workers[w].job.user);
  }

  /** The admin console's retry: SREM, then LPUSH, without SADD. */
  function AdminRetry(s: Sys, j: Job): Sys
  {
    s.(dedup := s.dedup - {j}, queue := [j] + s.queue)
  }

  /** It breaks the token invariant wherever it is used: the job gets a token without a mark, a second one
      if it was waiting. */
  lemma AdminRetryBreaksTokens(s: Sys, j: Job)
    requires TokenInv(s)
    ensures var s' := AdminRetry(s, j);
      j !in s'.dedup && Tokens(s', j) == 1 + Marked(s, j) && !TokenInv(s')
  {
    assert Tokens(s, j) == Marked(s, j);
    CellsPush(s.queue, j, j);
    assert Tokens(AdminRetry(s, j), j) != Marked(AdminRetry(s, j), j);
  }
}
