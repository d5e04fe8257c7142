/** A literal run from boot, with one worker and one job per user: a re-run requested while the first run is active
    is skipped. */
module SkippedRerun {
  import opened Handlers
  import Q = Queue
  import Slots

  /** The queue with job j alone: its calls, the worker, and whether j is marked, queued and counted. */
  function Desk(now: int, j: Job, calls: seq<Q.Call>, worker: Q.Worker, waiting: bool, busy: bool): Q.Sys
  {
    Q.Sys(if waiting then {j} else {}, if waiting then [j] else [],
          if busy then map[j.user := Slots.Slot(1, now + Slots.ACTIVE_TTL_SECONDS)] else map[],
          calls, [worker], now, 1, false)
  }

  /** The events are enabled in turn and end with call 1 skipped. */
  predicate EndsSkipped(s: Sys, events: seq<Event>)
    decreases |events|
  {
    if events == [] then 1 in s.skipped else Enabled(s, events[0]) && EndsSkipped(Do(s, events[0]), events[1..])
  }

  lemma Then(s: Sys, e: Event, s': Sys, rest: seq<Event>)
    requires Enabled(s, e) && s' == Do(s, e) && EndsSkipped(s', rest)
    ensures EndsSkipped(s, [e] + rest)
  {
    assert ([e] + rest)[1..] == rest;
  }

  // ----- the stages -----

  /** A call from start to return, with the queue empty. */
  function Enqueue(j: Job, n: nat, rest: seq<Event>): seq<Event>
  {
    [Step(Q.StartCall(j))] + ([Step(Q.WriteStatus(n))] + ([Step(Q.Sadd(n))] + ([Step(Q.Lpush(n))] + rest)))
  }

  lemma Calls(s: Sys, now: int, j: Job, calls: seq<Q.Call>, worker: Q.Worker, busy: bool, rest: seq<Event>)
    requires s.q == Desk(now, j, calls, worker, false, busy)
    requires EndsSkipped(s.(q := Desk(now, j, calls + [Q.Call(j, Q.Returned, false)], worker, true, busy),
                            status := s.status[j := Queued]), rest)
    ensures EndsSkipped(s, Enqueue(j, |calls|, rest))
  {
    var n := |calls|;
    var s1 := s.(q := s.q.(calls := calls + [Q.Call(j, Q.Writing, false)]));
    var s2 := s.(q := s.q.(calls := calls + [Q.Call(j, Q.Wrote, false)]), status := s.status[j := Queued]);
    var s3 := s2.(q := s.q.(calls := calls + [Q.Call(j, Q.Added, false)], dedup := {j}));
    var s4 := s2.(q := Desk(now, j, calls + [Q.Call(j, Q.Returned, false)], worker, true, busy));
    Then(s3, Step(Q.Lpush(n)), s4, rest);
    Then(s2, Step(Q.Sadd(n)), s3, [Step(Q.Lpush(n))] + rest);
    Then(s1, Step(Q.WriteStatus(n)), s2, [Step(Q.Sadd(n))] + ([Step(Q.Lpush(n))] + rest));
    Then(s, Step(Q.StartCall(j)), s1, [Step(Q.WriteStatus(n))] + ([Step(Q.Sadd(n))] + ([Step(Q.Lpush(n))] + rest)));
  }

  /** From the pop to the brink of the status read. */
  function PickUp(rest: seq<Event>): seq<Event>
  {
    [Step(Q.Brpop(0))] + ([Step(Q.Acquire(0))] + ([Step(Q.Srem(0))] + rest))
  }

  lemma PicksUp(s: Sys, now: int, j: Job, calls: seq<Q.Call>, rest: seq<Event>)
    requires s.q == Desk(now, j, calls, Q.Idle, true, false)
    requires EndsSkipped(s.(q := Desk(now, j, calls, Q.Dequeued(j, now), false, true)), rest)
    ensures EndsSkipped(s, PickUp(rest))
  {
    var s1 := s.(q := s.q.(queue := [], workers := [Q.Popped(j)]));
    var s2 := s.(q := Desk(now, j, calls, Q.Acquired(j, now), false, true).(dedup := {j}));
    var s3 := s.(q := Desk(now, j, calls, Q.Dequeued(j, now), false, true));
    assert {j} - {j} == {};
    Then(s2, Step(Q.Srem(0)), s3, rest);
    Then(s1, Step(Q.Acquire(0)), s2, [Step(Q.Srem(0))] + rest);
    Then(s, Step(Q.Brpop(0)), s1, [Step(Q.Acquire(0))] + ([Step(Q.Srem(0))] + rest));
  }

  /** The first read runs the pipeline for call 0. */
  lemma FirstRead(s: Sys, now: int, j: Job, rest: seq<Event>)
    requires s.q == Desk(now, j, [Q.Call(j, Q.Returned, false)], Q.Dequeued(j, now), false, true)
    requires s.status == map[j := Queued] && s.running == {} && s.past == {} && s.ran == {}
    requires EndsSkipped(s.(q := Desk(now, j, [Q.Call(j, Q.Returned, true)], Q.Running(j, now), false, true),
                            running := {0}, ran := {0}), rest)
    ensures EndsSkipped(s, [Step(Q.ReadStatus(0))] + rest)
  {
    var s' := s.(q := Desk(now, j, [Q.Call(j, Q.Returned, true)], Q.Running(j, now), false, true),
                 running := {0}, ran := {0});
    assert PendingFor(s, j) == {0};
    assert Q.MarkSeen(s.q.calls, j) == [Q.Call(j, Q.Returned, true)];
    Then(s, Step(Q.ReadStatus(0)), s', rest);
  }

  /** The first run writes "done" and gives its slot back. */
  function Done0(rest: seq<Event>): seq<Event> { [RunWrites(0, Done)] + ([Step(Q.Release(0))] + rest) }

  lemma Finishes(s: Sys, now: int, j: Job, calls: seq<Q.Call>, rest: seq<Event>)
    requires s.q == Desk(now, j, calls, Q.Running(j, now), true, true) && s.running == {0} && s.past == {}
    requires EndsSkipped(s.(q := Desk(now, j, calls, Q.Idle, true, false), status := s.status[j := Done],
                            running := {}, past := {0}), rest)
    ensures EndsSkipped(s, Done0(rest))
  {
    var s1 := s.(status := s.status[j := Done], past := {0});
    var s2 := s1.(q := Desk(now, j, calls, Q.Idle, true, false), running := {});
    assert {0 as nat} - {0} == {};
    Then(s1, Step(Q.Release(0)), s2, rest);
    Then(s, RunWrites(0, Done), s1, [Step(Q.Release(0))] + rest);
  }

  /** The second read finds "done" and skips call 1. */
  lemma SecondRead(s: Sys, now: int, j: Job)
    requires s.q == Desk(now, j, [Q.Call(j, Q.Returned, true), Q.Call(j, Q.Returned, false)], Q.Dequeued(j, now),
                         false, true)
    requires StatusOf(s, j) == Done
    ensures EndsSkipped(s, [Step(Q.ReadStatus(0))])
  {
    assert 1 in PendingFor(s, j);
    assert [Step(Q.ReadStatus(0))][1..] == [];
  }

  // ----- the whole run -----

  function Rerun(j: Job): seq<Event>
  {
    Enqueue(j, 0, PickUp([Step(Q.ReadStatus(0))] + Overlap(j)))
  }

  /** The second call comes while the first run is active; that run finishes; the worker takes the job again. */
  function Overlap(j: Job): seq<Event> { Enqueue(j, 1, Done0(PickUp([Step(Q.ReadStatus(0))]))) }

  lemma OverlapSkips(s: Sys, now: int, j: Job)
    requires s.q == Desk(now, j, [Q.Call(j, Q.Returned, true)], Q.Running(j, now), false, true)
    requires s.running == {0} && s.past == {}
    ensures EndsSkipped(s, Overlap(j))
  {
    var calls := [Q.Call(j, Q.Returned, true)];
    var both := calls + [Q.Call(j, Q.Returned, false)];
    var s1 := s.(q := Desk(now, j, both, Q.Running(j, now), true, true), status := s.status[j := Queued]);
    var s2 := s1.(q := Desk(now, j, both, Q.Idle, true, false), status := s1.status[j := Done], running := {},
                  past := {0});
    SecondRead(s2.(q := Desk(now, j, both, Q.Dequeued(j, now), false, true)), now, j);
    PicksUp(s2, now, j, both, [Step(Q.ReadStatus(0))]);
    Finishes(s1, now, j, both, PickUp([Step(Q.ReadStatus(0))]));
    Calls(s, now, j, calls, Q.Running(j, now), true, Done0(PickUp([Step(Q.ReadStatus(0))])));
  }

  lemma RerunSkips(now: int, j: Job)
    ensures EndsSkipped(Boot(1, 1, now, map[]), Rerun(j))
  {
    var s := Boot(1, 1, now, map[]);
    var one := [Q.Call(j, Q.Returned, false)];
    var s1 := s.(q := Desk(now, j, one, Q.Idle, true, false), status := map[j := Queued]);
    var s2 := s1.(q := Desk(now, j, one, Q.Dequeued(j, now), false, true));
    var s3 := s2.(q := Desk(now, j, [Q.Call(j, Q.Returned, true)], Q.Running(j, now), false, true),
                  running := {0}, ran := {0});
    OverlapSkips(s3, now, j);
    FirstRead(s2, now, j, Overlap(j));
    PicksUp(s1, now, j, one, [Step(Q.ReadStatus(0))] + Overlap(j));
    assert [] + one == one && s.q == Desk(now, j, [], Q.Idle, false, false);
    Calls(s, now, j, [], Q.Idle, false, PickUp([Step(Q.ReadStatus(0))] + Overlap(j)));
  }

  lemma {:induction false} EndsSomewhere(s: Sys, events: seq<Event>) returns (last: Sys)
    requires EndsSkipped(s, events)
    ensures Execution(s, events, last) && 1 in last.skipped
    decreases |events|
  {
    if events == [] {
      last := s;
    } else {
      last := EndsSomewhere(Do(s, events[0]), events[1..]);
    }
  }

  /** With one worker and one job per user there is a crash-free run from boot in which a call made during the first
      run returns normally, its job is popped once that run is done, and the handler skips it. */
  lemma RerunIsSkipped(now: int, j: Job) returns (last: Sys)
    ensures Execution(Boot(1, 1, now, map[]), Rerun(j), last) && 1 in last.skipped
  {
    RerunSkips(now, j);
    last := EndsSomewhere(Boot(1, 1, now, map[]), Rerun(j));
  }
}
