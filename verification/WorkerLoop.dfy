/** The worker loop and run_auto_pipeline over the Redis object: each, running undisturbed, issues the commands
    of the queue protocol in its order and leaves Redis as the protocol says. */
module WorkerLoop {
  import opened Common
  import opened Queue
  import opened Recovery
  import Slots

  /** Redis holds what the protocol's state says. */
  ghost predicate Mirrors(redis: Redis, s: Sys)
    reads redis
  {
    redis.queue == s.queue && redis.dedup == s.dedup && redis.slots == s.slots
  }

  lemma OneEvent(s: Sys, e: Event)
    requires Enabled(s, e)
    ensures Execution(s, [e], Do(s, e))
  {
    assert [e][1..] == [];
  }

  lemma {:induction false} Then(s: Sys, events: seq<Event>, mid: Sys, e: Event)
    requires Execution(s, events, mid) && Enabled(mid, e)
    ensures Execution(s, events + [e], Do(mid, e))
    decreases |events|
  {
    if events == [] {
      OneEvent(s, e);
      assert events + [e] == [e];
    } else {
      assert (events + [e])[1..] == events[1..] + [e];
      Then(Do(s, events[0]), events[1..], mid, e);
    }
  }

  /** One pass of the loop up to the handler: pop, acquire, then push back or drop the mark. The job to handle,
      if there is one, is the one at the pop end, and its user is below the limit. */
  method TakeJob(redis: Redis, limit: nat, now: int, ghost s: Sys, ghost w: nat)
    returns (job: Option<Job>, ghost s': Sys)
    requires Mirrors(redis, s) && limit == s.limit && now == s.now
    requires w < |s.workers| && s.workers[w].Idle?
    modifies redis
    ensures Mirrors(redis, s')
    ensures var q := old(redis.queue);
      var taken := q != [] && Slots.Count(old(redis.slots), q[|q| - 1].user) < limit;
      && job == (if taken then Some(q[|q| - 1]) else None)
      && Execution(s, if q == [] then [] else [Brpop(w), Acquire(w)] + [if taken then Srem(w) else PushBack(w)], s')
      && (taken ==> w < |s'.workers| && s'.workers[w] == Dequeued(job.value, now))
      && (!taken ==> w < |s'.workers| && s'.workers[w].Idle? && redis.queue == q && redis.dedup == old(redis.dedup))
  {
    if redis.queue == [] {
      return None, s;
    }
    var j := redis.Pop();
    ghost var s1 := Do(s, Brpop(w));
    OneEvent(s, Brpop(w));
    var ok := redis.AcquireSlot(j.user, limit, now);
    ghost var s2 := Do(s1, Acquire(w));
    Then(s, [Brpop(w)], s1, Acquire(w));
    assert [Brpop(w)] + [Acquire(w)] == [Brpop(w), Acquire(w)];
    if !ok {
      redis.PushBack(j);
      Then(s, [Brpop(w), Acquire(w)], s2, PushBack(w));
      return None, Do(s2, PushBack(w));
    }
    redis.MarkDequeued(j);
    Then(s, [Brpop(w), Acquire(w)], s2, Srem(w));
    return Some(j), Do(s2, Srem(w));
  }

  /** A pulse of the heartbeat. */
  method Pulse(redis: Redis, user: int, now: int, ghost s: Sys, ghost w: nat)
    requires Mirrors(redis, s) && now == s.now
    requires w < |s.workers| && Holds(s.workers[w]) && s.workers[w].job.user == user
    modifies redis`slots
    ensures Enabled(s, Beat(w)) && Mirrors(redis, Do(s, Beat(w)))
  {
    redis.RenewSlot(user, now);
  }

  /** The end of the handler: the slot is given back. */
  method FinishJob(redis: Redis, j: Job, ghost s: Sys, ghost w: nat)
    requires Mirrors(redis, s) && w < |s.workers| && s.workers[w].Running? && s.workers[w].job == j
    modifies redis`slots
    ensures Enabled(s, Release(w)) && Mirrors(redis, Do(s, Release(w)))
  {
    redis.ReleaseSlot(j.user);
  }

  /** The Redis part of run_auto_pipeline, after its status write: mark and push, or deduplicated, or rolled
      back and raised. */
  method Enqueue(redis: Redis, j: Job, pushed: bool, ghost s: Sys, ghost c: nat) returns (ok: bool, ghost s': Sys)
    requires Mirrors(redis, s) && CallAt(s, c, Wrote) && s.calls[c].job == j
    modifies redis`queue, redis`dedup
    ensures Mirrors(redis, s') && ok == (j in old(redis.dedup) || pushed)
    ensures Execution(s, if j in old(redis.dedup) then [Sadd(c)] else if pushed then [Sadd(c), Lpush(c)]
                         else [Sadd(c), LpushFails(c)] + [Rollback(c)], s')
    ensures CallAt(s', c, if ok then Returned else Raised)
  {
    ghost var s1 := Do(s, Sadd(c));
    OneEvent(s, Sadd(c));
    var marked := j in redis.dedup;
    ok := redis.EnqueuePipeline(j, pushed);
    if marked {
      return ok, s1;
    }
    if pushed {
      Then(s, [Sadd(c)], s1, Lpush(c));
      assert [Sadd(c)] + [Lpush(c)] == [Sadd(c), Lpush(c)];
      return ok, Do(s1, Lpush(c));
    }
    Then(s, [Sadd(c)], s1, LpushFails(c));
    assert [Sadd(c)] + [LpushFails(c)] == [Sadd(c), LpushFails(c)];
    ghost var s2 := Do(s1, LpushFails(c));
    Then(s, [Sadd(c), LpushFails(c)], s2, Rollback(c));
    s' := Do(s2, Rollback(c));
    assert redis.dedup == s'.dedup;
  }
}
