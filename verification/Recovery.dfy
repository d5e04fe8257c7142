/** The Redis keys of the queue as a mutable object, and the worker's crash recovery over them. */
module Recovery {
  import opened Common
  import opened Queue
  import Wakeups
  import Slots

  class Redis {
    var queue: seq<Job>
    var dedup: set<Job>
    var slots: Slots.Slots

    /** Idempotent enqueue; `pushed` is whether LPUSH succeeds. Returns false when it raises. */
    method EnqueuePipeline(j: Job, pushed: bool) returns (ok: bool)
      modifies this`queue, this`dedup
      ensures ok <==> j in old(dedup) || pushed
      ensures j in old(dedup) ==> queue == old(queue) && dedup == old(dedup)
      ensures j !in old(dedup) && pushed ==> queue == [j] + old(queue) && dedup == old(dedup) + {j}
      ensures j !in old(dedup) && !pushed ==> queue == old(queue) && dedup == old(dedup)
    {
      var added := j !in dedup;
      dedup := dedup + {j};
      if !added {
        return true;
      }
      if pushed {
        queue := [j] + queue;
        return true;
      }
      dedup := dedup - {j};
      return false;
    }

    /** BRPOP on a queue that is not empty. */
    method Pop() returns (j: Job)
      requires queue != []
      modifies this`queue
      ensures old(queue) == queue + [j]
    {
      j := queue[|queue| - 1];
      queue := queue[..|queue| - 1];
    }

    /** RPUSH, onto the end that BRPOP reads. */
    method PushBack(j: Job)
      modifies this`queue
      ensures queue == old(queue) + [j]
    {
      queue := queue + [j];
    }

    method MarkDequeued(j: Job)
      modifies this`dedup
      ensures dedup == old(dedup) - {j}
    {
      dedup := dedup - {j};
    }

    /** The acquire script: GET, compare, INCR, EXPIRE. */
    method AcquireSlot(u: int, limit: nat, now: int) returns (ok: bool)
      modifies this`slots
      ensures (slots, ok) == Slots.Acquire(old(slots), u, limit, now)
    {
      var cur := if u in slots then slots[u].count else 0;
      if cur >= limit {
        return false;
      }
      slots := slots[u := Slots.Slot(cur + 1, if u in slots then slots[u].expires else now)];
      slots := slots[u := slots[u].(expires := now + Slots.ACTIVE_TTL_SECONDS)];
      assert slots == old(slots)[u := Slots.Slot(cur + 1, now + Slots.ACTIVE_TTL_SECONDS)];
      return true;
    }

    /** The release script: DEL at one or below, DECR above. */
    method ReleaseSlot(u: int)
      modifies this`slots
      ensures slots == Slots.Release(old(slots), u)
    {
      var cur := if u in slots then slots[u].count else 0;
      if cur <= 1 {
        slots := slots - {u};
      } else {
        slots := slots[u := slots[u].(count := cur - 1)];
      }
    }

    method RenewSlot(u: int, now: int)
      modifies this`slots
      ensures slots == Slots.Renew(old(slots), u, now)
    {
      if u in slots {
        slots := slots[u := slots[u].(expires := now + Slots.ACTIVE_TTL_SECONDS)];
      }
    }

    /** DEL queue, then every counter key, then DEL dedup set. */
    method ResetQueueAndActive()
      modifies this
      ensures queue == [] && dedup == {} && slots == map[]
    {
      queue := [];
      var keys := slots.Keys;
      while keys != {}
        invariant slots.Keys == keys
        invariant queue == []
        decreases keys
      {
        Inhabited(keys);
        var k :| k in keys;
        slots := slots - {k};
        keys := keys - {k};
      }
      dedup := {};
    }
  }

  // ----- the imports table -----

  datatype ImportRow = ImportRow(user: int, status: string)

  /** UPDATE imports SET status = 'error' WHERE status = 'generating'. */
  function Interrupted(r: ImportRow): ImportRow
  {
    if r.status == "generating" then r.(status := "error") else r
  }

  lemma {:induction false} HasLeast(ids: set<int>)
    requires ids != {}
    ensures exists m :: m in ids && forall k :: k in ids ==> m <= k
    decreases |ids|
  {
    Inhabited(ids);
    var x :| x in ids;
    var rest := ids - {x};
    if rest == {} {
      assert ids == {x};
    } else {
      HasLeast(rest);
      var m :| m in rest && forall k :: k in rest ==> m <= k;
      var least := if m <= x then m else x;
      assert forall k :: k in ids ==> k == x || k in rest;
      assert least in ids && forall k :: k in ids ==> least <= k;
    }
  }

  function Least(ids: set<int>): (m: int)
    requires ids != {}
    ensures m in ids && forall k :: k in ids ==> m <= k
  {
    HasLeast(ids);
    var m :| m in ids && forall k :: k in ids ==> m <= k;
    m
  }

  /** ORDER BY id. */
  function Ascending(ids: set<int>): (r: seq<int>)
    ensures forall i, j :: 0 <= i < j < |r| ==> r[i] < r[j]
    ensures forall k :: k in r <==> k in ids
    decreases |ids|
  {
    if ids == {} then []
    else
      var m := Least(ids);
      [m] + Ascending(ids - {m})
  }

  class Imports {
    var rows: map<int, ImportRow>

    method CleanupStaleImports()
      modifies this
      ensures rows == map i | i in old(rows) :: Interrupted(old(rows)[i])
    {
      rows := map i | i in rows :: Interrupted(rows[i]);
    }

    method ListResumableImports() returns (found: seq<Job>)
      ensures found == Resumable(rows)
    {
      var ids := Ascending(Unfinished(rows));
      UnfinishedExist(rows);
      found := [];
      for k := 0 to |ids|
        invariant found == JobsOf(rows, ids[..k])
      {
        JobsNext(rows, ids, k);
        found := found + [Job(rows[ids[k]].user, ids[k])];
      }
      assert ids[..|ids|] == ids;
    }
  }

  lemma UnfinishedExist(rows: map<int, ImportRow>)
    ensures forall k :: 0 <= k < |Ascending(Unfinished(rows))| ==> Ascending(Unfinished(rows))[k] in rows
  {
    var ids := Ascending(Unfinished(rows));
    assert forall k :: 0 <= k < |ids| ==> ids[k] in Unfinished(rows);
  }

  lemma JobsNext(rows: map<int, ImportRow>, ids: seq<int>, k: nat)
    requires k < |ids| && forall m :: 0 <= m < |ids| ==> ids[m] in rows
    ensures JobsOf(rows, ids[..k + 1]) == JobsOf(rows, ids[..k]) + [Job(rows[ids[k]].user, ids[k])]
  {
    assert ids[..k + 1][..k] == ids[..k];
  }

  function Unfinished(rows: map<int, ImportRow>): set<int>
  {
    set i | i in rows && rows[i].status in {"queued", "generating"}
  }

  function JobsOf(rows: map<int, ImportRow>, ids: seq<int>): (jobs: seq<Job>)
    requires forall k :: 0 <= k < |ids| ==> ids[k] in rows
    ensures |jobs| == |ids|
    ensures forall k :: 0 <= k < |ids| ==> jobs[k] == Job(rows[ids[k]].user, ids[k])
  {
    if ids == [] then []
    else
      var last := ids[|ids| - 1];
      JobsOf(rows, ids[..|ids| - 1]) + [Job(rows[last].user, last)]
  }

  /** Imports to resume, by ascending id. */
  function Resumable(rows: map<int, ImportRow>): (found: seq<Job>)
  {
    var ids := Ascending(Unfinished(rows));
    UnfinishedExist(rows);
    JobsOf(rows, ids)
  }

  lemma ResumableMembers(rows: map<int, ImportRow>)
    ensures forall i, j :: 0 <= i < j < |Resumable(rows)| ==> Resumable(rows)[i].imp < Resumable(rows)[j].imp
    ensures forall j: Job :: j in Resumable(rows) <==>
      j.imp in rows && rows[j.imp].status in {"queued", "generating"} && rows[j.imp].user == j.user
  {
    var ids := Ascending(Unfinished(rows));
    var found := Resumable(rows);
    forall k | 0 <= k < |found|
      ensures found[k].imp == ids[k] && ids[k] in Unfinished(rows)
    {
    }
    forall i | i in Unfinished(rows)
      ensures Job(rows[i].user, i) in found
    {
      assert i in ids;
      var k :| 0 <= k < |ids| && ids[k] == i;
      assert found[k] == Job(rows[i].user, i);
    }
    forall j: Job | j.imp in rows && rows[j.imp].status in {"queued", "generating"} && rows[j.imp].user == j.user
      ensures j in found
    {
      assert j.imp in Unfinished(rows);
      assert j == Job(rows[j.imp].user, j.imp);
    }
  }

  /** The jobs in the order in which successive BRPOPs return them. */
  function PopOrder(queue: seq<Job>): (r: seq<Job>)
    ensures |r| == |queue|
  {
    if queue == [] then [] else [queue[|queue| - 1]] + PopOrder(queue[..|queue| - 1])
  }

  lemma {:induction false} PopOrderPush(queue: seq<Job>, j: Job)
    ensures PopOrder([j] + queue) == PopOrder(queue) + [j]
    decreases |queue|
  {
    if queue == [] {
      assert [j] + queue == [j];
      assert PopOrder([j]) == [j] + PopOrder([]);
    } else {
      var front, x := queue[..|queue| - 1], queue[|queue| - 1];
      assert ([j] + queue)[..|queue|] == [j] + front;
      PopOrderPush(front, j);
    }
  }

  lemma {:induction false} PopOrderCells(queue: seq<Job>)
    ensures multiset(PopOrder(queue)) == multiset(queue)
    decreases |queue|
  {
    if queue == [] {
    } else {
      var front, x := queue[..|queue| - 1], queue[|queue| - 1];
      PopOrderCells(front);
      assert queue == front + [x];
    }
  }

  // ----- recovery -----

  /** The protocol's state when the workers start on this Redis, with no enqueue call in flight. */
  function Started(queue: seq<Job>, dedup: set<Job>, slots: Slots.Slots, workers: nat, limit: nat, now: int): Sys
  {
    Boot(workers, limit, now).(queue := queue, dedup := dedup, slots := slots)
  }

  lemma DistinctCount(xs: seq<Job>, x: Job)
    requires forall i, j :: 0 <= i < j < |xs| ==> xs[i] != xs[j]
    ensures multiset(xs)[x] == if x in xs then 1 else 0
    decreases |xs|
  {
    if xs == [] {
    } else {
      var front, last := xs[..|xs| - 1], xs[|xs| - 1];
      assert xs == front + [last];
      DistinctCount(front, x);
    }
  }

  /** A queue of distinct jobs whose mark set is exactly those jobs satisfies every invariant. */
  lemma StartedOk(jobs: seq<Job>, queue: seq<Job>, dedup: set<Job>, workers: nat, limit: nat, now: int)
    requires PopOrder(queue) == jobs && dedup == (set j | j in jobs)
    requires forall i, j :: 0 <= i < j < |jobs| ==> jobs[i].imp < jobs[j].imp
    ensures var s := Started(queue, dedup, map[], workers, limit, now);
      TokenInv(s) && Wakeups.NoneLost(s) && SlotInv(s)
  {
    var s := Started(queue, dedup, map[], workers, limit, now);
    BootOk(workers, limit, now);
    SlotsUntouched(Boot(workers, limit, now), s);
    PopOrderCells(queue);
    forall j
      ensures Tokens(s, j) == Marked(s, j)
    {
      DistinctCount(jobs, j);
      IdleTokens(s.workers, j);
    }
  }

  /** Whatever comes next on this Redis starts from the protocol's invariants. */
  ghost predicate CleanStart(queue: seq<Job>, dedup: set<Job>, slots: Slots.Slots)
  {
    forall workers: nat, limit: nat, now: int {:trigger Boot(workers, limit, now)} ::
      var s := Started(queue, dedup, slots, workers, limit, now);
      TokenInv(s) && Wakeups.NoneLost(s) && SlotInv(s)
  }

  lemma StartsClean(jobs: seq<Job>, queue: seq<Job>, dedup: set<Job>)
    requires PopOrder(queue) == jobs && dedup == (set j | j in jobs)
    requires forall i, j :: 0 <= i < j < |jobs| ==> jobs[i].imp < jobs[j].imp
    ensures CleanStart(queue, dedup, map[])
  {
    forall workers: nat, limit: nat, now: int
      ensures var s := Started(queue, dedup, map[], workers, limit, now);
        TokenInv(s) && Wakeups.NoneLost(s) && SlotInv(s)
    {
      StartedOk(jobs, queue, dedup, workers, limit, now);
    }
  }

  method EnqueueAll(redis: Redis, jobs: seq<Job>)
    requires redis.queue == [] && redis.dedup == {}
    requires forall i, j :: 0 <= i < j < |jobs| ==> jobs[i].imp < jobs[j].imp
    modifies redis`queue, redis`dedup
    ensures PopOrder(redis.queue) == jobs && redis.dedup == (set j | j in jobs)
  {
    for k := 0 to |jobs|
      invariant PopOrder(redis.queue) == jobs[..k]
      invariant redis.dedup == set j | j in jobs[..k]
    {
      var j := jobs[k];
      assert j !in jobs[..k];
      PopOrderPush(redis.queue, j);
      var ok := redis.EnqueuePipeline(j, true);
      assert jobs[..k + 1] == jobs[..k] + [j];
    }
    assert jobs[..|jobs|] == jobs;
  }

  /** The start-up sequence of the worker process, whatever the previous process left behind. */
  method Recover(redis: Redis, imports: Imports) returns (resumed: nat)
    modifies redis, imports
    ensures imports.rows == map i | i in old(imports.rows) :: Interrupted(old(imports.rows)[i])
    ensures forall i :: i in old(imports.rows) ==>
      && imports.rows[i].user == old(imports.rows)[i].user
      && imports.rows[i].status ==
           (if old(imports.rows)[i].status == "generating" then "error" else old(imports.rows)[i].status)
    ensures forall i :: i in imports.rows ==> imports.rows[i].status != "generating"
    ensures PopOrder(redis.queue) == Resumable(imports.rows) && resumed == |redis.queue|
    ensures forall j: Job :: j in redis.queue <==>
      j.imp in old(imports.rows) && old(imports.rows)[j.imp] == ImportRow(j.user, "queued")
    ensures redis.slots == map[] && CleanStart(redis.queue, redis.dedup, redis.slots)
  {
    redis.ResetQueueAndActive();
    imports.CleanupStaleImports();
    imports.CleanupStaleImports();
    var found := imports.ListResumableImports();
    ResumableMembers(imports.rows);
    EnqueueAll(redis, found);
    resumed := |found|;
    QueueMembers(redis.queue);
    StartsClean(found, redis.queue, redis.dedup);
  }

  lemma QueueMembers(queue: seq<Job>)
    ensures forall j :: j in queue <==> j in PopOrder(queue)
  {
    PopOrderCells(queue);
    forall j
      ensures j in queue <==> j in PopOrder(queue)
    {
      assert j in queue <==> j in multiset(queue);
      assert j in PopOrder(queue) <==> j in multiset(PopOrder(queue));
    }
  }
}
