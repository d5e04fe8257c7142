/** Transactions come to an end: alone each has the effect of its ledger operation, and together, however far
    they have got, they can all return. */
module Progress {
  import opened Common
  import opened Ledger
  import opened LedgerRuns
  import opened Transactions

  /** Statements still to come, at most. */
  function Rank(p: Phase): nat
  {
    match p
    case Begun => 5
    case Probed => 4
    case HoldSeen => 3
    case Locked(_) => 2
    case Updated(_) => 1
    case Ready(_, _) => 0
  }

  /** The database after a transaction in this phase has run to its end with the row to itself. */
  function Rest(db: Db, op: Op, phase: Phase): Db
    decreases Rank(phase)
  {
    match Decide(db, true, op, phase)
    case Wait => db
    case Goto(p) => if Rank(p) < Rank(phase) then Rest(db, op, p) else db
    case Lock(p) => if Rank(p) < Rank(phase) then Rest(db, op, p) else db
    case Finish => db
    case Commit(a, w) => Install(db, op.user, a, w)
  }

  /** Only another's lock makes a transaction wait; otherwise its next statement brings it nearer to its end. */
  lemma DecideMoves(db: Db, free: bool, op: Op, phase: Phase)
    requires !op.SetFeatures? && PhaseFits(op, phase) && (free || HoldsLock(phase))
    ensures var act := Decide(db, free, op, phase);
      !act.Wait? && (act.Goto? || act.Lock? ==> Rank(act.phase) < Rank(phase))
  {
  }

  /** Left alone on a free row, a transaction in any phase it can have reached ends with the effect that its
      operation has now; from its beginning, that is the ledger's operation. */
  lemma {:induction false} RestIsApply(db: Db, op: Op, phase: Phase)
    requires !op.SetFeatures? && PhaseOk(db, Txn(op, phase))
    ensures Rest(db, op, phase) == Apply(db, op)
    decreases Rank(phase)
  {
    var t := Txn(op, phase);
    DecideMoves(db, true, op, phase);
    OwnStep(db, true, t);
    OwnReturn(db, true, t);
    match Decide(db, true, op, phase)
    case Goto(p) => RestIsApply(db, op, p);
    case Lock(p) => RestIsApply(db, op, p);
    case Finish =>
    case Commit(_, _) =>
  }

  lemma AloneIsApply(db: Db, op: Op)
    requires !op.SetFeatures?
    ensures Rest(db, op, Begun) == Apply(db, op)
  {
    RestIsApply(db, op, Begun);
  }

  // ----- all together -----

  ghost function Ranks(txns: map<int, Txn>): map<int, int> { map id | id in txns :: Rank(txns[id].phase) + 1 }

  /** Statements still to come in all transactions, at most. */
  ghost function Work(s: Sys): int { SumMap(Ranks(s.txns)) }

  lemma WorkNonNegative(s: Sys)
    ensures Work(s) >= 0
  {
    SumNonNegative(Ranks(s.txns));
  }

  lemma WorkAfterMove(s: Sys, id: int, p: Phase)
    requires id in s.txns && Rank(p) < Rank(s.txns[id].phase)
    ensures SumMap(Ranks(s.txns[id := Txn(s.txns[id].op, p)])) < Work(s)
  {
    assert Ranks(s.txns[id := Txn(s.txns[id].op, p)]) == Ranks(s.txns)[id := Rank(p) + 1];
    SumUpdate(Ranks(s.txns), id, Rank(p) + 1);
  }

  lemma WorkAfterReturn(s: Sys, id: int)
    requires id in s.txns
    ensures SumMap(Ranks(s.txns - {id})) < Work(s)
  {
    assert Ranks(s.txns - {id}) == Ranks(s.txns) - {id};
    SumRemove(Ranks(s.txns), id);
  }

  lemma LockHeld(owner: int -> int, db0: Db, s: Sys, u: int)
    requires Inv(owner, db0, s) && u in s.locks
    ensures exists k :: k in s.txns && HoldsLock(s.txns[k].phase)
  {
    var k := s.locks[u];
    assert k in s.txns && HoldsLock(s.txns[k].phase);
  }

  lemma Unlocked(owner: int -> int, db0: Db, s: Sys)
    requires Inv(owner, db0, s) && forall k :: k in s.txns ==> !HoldsLock(s.txns[k].phase)
    ensures forall u :: u !in s.locks
  {
    forall u
      ensures u !in s.locks
    {
      if u in s.locks {
        LockHeld(owner, db0, s, u);
      }
    }
  }

  /** Some transaction can go on: the holder of a lock, or any when nobody holds one. */
  lemma SomeoneMoves(owner: int -> int, db0: Db, s: Sys) returns (id: int)
    requires Inv(owner, db0, s) && s.txns != map[]
    ensures Enabled(owner, s, Advance(id))
  {
    if exists k :: k in s.txns && HoldsLock(s.txns[k].phase) {
      id :| id in s.txns && HoldsLock(s.txns[id].phase);
    } else {
      assert s.txns.Keys != {};
      id := AnyOf(s.txns.Keys);
      Unlocked(owner, db0, s);
    }
    var t := s.txns[id];
    assert PhaseOk(s.db, t);
    DecideMoves(s.db, Free(s, t.op), t.op, t.phase);
  }

  lemma AnyOf(ids: set<int>) returns (id: int)
    requires ids != {}
    ensures id in ids
  {
    Inhabited(ids);
    id :| id in ids;
  }

  lemma AdvanceWork(owner: int -> int, db0: Db, s: Sys, id: int)
    requires Inv(owner, db0, s) && Enabled(owner, s, Advance(id))
    ensures Work(Do(owner, s, Advance(id))) < Work(s)
    ensures Do(owner, s, Advance(id)).begun == s.begun
  {
    var t := s.txns[id];
    assert PhaseOk(s.db, t);
    if Free(s, t.op) || HoldsLock(t.phase) {
      DecideMoves(s.db, Free(s, t.op), t.op, t.phase);
    } else {
      BlockedMoves(s.db, t.op, t.phase);
    }
    match Decide(s.db, Free(s, t.op), t.op, t.phase)
    case Goto(p) => WorkAfterMove(s, id, p);
    case Lock(p) => WorkAfterMove(s, id, p);
    case Finish => WorkAfterReturn(s, id);
    case Commit(_, _) => WorkAfterReturn(s, id);
  }

  /** A statement before the lock goes on whether or not the row is free. */
  lemma BlockedMoves(db: Db, op: Op, phase: Phase)
    requires !op.SetFeatures? && PhaseFits(op, phase)
    ensures var act := Decide(db, false, op, phase);
      act.Goto? || act.Lock? ==> Rank(act.phase) < Rank(phase)
  {
  }

  ghost predicate AllReturn(owner: int -> int, s: Sys, events: seq<Event>, last: Sys)
  {
    Execution(owner, s, events, last) && last.txns == map[] && last.begun == s.begun
  }

  /** From every state that an execution reaches, the open calls can all return without a new one beginning. */
  lemma {:induction false} CanReturn(owner: int -> int, db0: Db, s: Sys)
    requires Inv(owner, db0, s)
    ensures exists events, last :: AllReturn(owner, s, events, last)
    decreases Work(s)
  {
    WorkNonNegative(s);
    if s.txns == map[] {
      assert AllReturn(owner, s, [], s);
    } else {
      var id := SomeoneMoves(owner, db0, s);
      var s' := Do(owner, s, Advance(id));
      AdvanceWork(owner, db0, s, id);
      AdvanceKeeps(owner, db0, s, id);
      WorkNonNegative(s');
      CanReturn(owner, db0, s');
      var events, last :| AllReturn(owner, s', events, last);
      assert ([Advance(id)] + events)[1..] == events;
      assert AllReturn(owner, s, [Advance(id)] + events, last);
    }
  }

  /** Any owned call with a new number can begin when no open call is on its import. */
  lemma CanBegin(owner: int -> int, s: Sys, id: int, op: Op)
    requires id !in s.begun && !op.SetFeatures? && Owned(owner, op)
    requires ImportOf(op).Some? ==> forall t :: t in s.txns ==> ImportOf(s.txns[t].op) != ImportOf(op)
    ensures Enabled(owner, s, Begin(id, op))
  {
  }

  // ----- two settles racing -----

  /** Both begin, and both probe before either goes on. */
  function Race(a: Op, b: Op): seq<Event> { [Begin(0, a), Begin(1, b), Advance(0), Advance(1)] }

  function Racing(db0: Db, a: Op, b: Op): Sys
  {
    Sys(db0, map[0 := Txn(a, Probed), 1 := Txn(b, Probed)], map[], map[0 := a, 1 := b], [])
  }

  lemma RaceStarts(owner: int -> int, db0: Db, i: int, a: Op, b: Op)
    requires a.Settle? && b.Settle? && a.imp == b.imp == i && Owned(owner, a) && Owned(owner, b)
    requires CostOf(a) > 0 && CostOf(b) > 0 && !HasCharge(db0.log, i)
    ensures Execution(owner, Start(db0), Race(a, b), Racing(db0, a, b))
  {
    var s0 := Start(db0);
    var s1 := s0.(txns := map[0 := Txn(a, Begun)], begun := map[0 := a]);
    var s2 := s0.(txns := map[0 := Txn(a, Begun), 1 := Txn(b, Begun)], begun := map[0 := a, 1 := b]);
    var s3 := s2.(txns := map[0 := Txn(a, Probed), 1 := Txn(b, Begun)]);
    var s4 := Racing(db0, a, b);
    assert Do(owner, s0, Begin(0, a)) == s1;
    assert Do(owner, s1, Begin(1, b)) == s2;
    assert Do(owner, s2, Advance(0)) == s3;
    assert Do(owner, s3, Advance(1)) == s4;
    var e := Race(a, b);
    assert e[1..] == [Begin(1, b), Advance(0), Advance(1)] && e[1..][1..] == [Advance(0), Advance(1)];
    assert e[1..][1..][1..] == [Advance(1)] && e[1..][1..][1..][1..] == [];
    assert Execution(owner, s4, [], s4);
    assert Execution(owner, s3, [Advance(1)], s4);
    assert Execution(owner, s2, [Advance(0), Advance(1)], s4);
    assert Execution(owner, s1, [Begin(1, b), Advance(0), Advance(1)], s4);
  }

  lemma {:induction false} Followed(owner: int -> int, s: Sys, a: seq<Event>, mid: Sys, b: seq<Event>, last: Sys)
    requires Execution(owner, s, a, mid) && Execution(owner, mid, b, last)
    ensures Execution(owner, s, a + b, last)
    decreases |a|
  {
    if a == [] {
      assert a + b == b;
    } else {
      assert (a + b)[1..] == a[1..] + b;
      Followed(owner, Do(owner, s, a[0]), a[1..], mid, b, last);
    }
  }

  ghost predicate RaceEnds(owner: int -> int, db0: Db, a: Op, b: Op, rest: seq<Event>, last: Sys)
    requires a.Settle?
  {
    && Execution(owner, Start(db0), Race(a, b) + rest, last) && last.txns == map[]
    && last.begun == map[0 := a, 1 := b] && ChargeCount(last.db.log, a.imp) == 1
  }

  /** Two settles of a held, uncharged import that have both passed their probes can both return, and when they
      have, one charge row is there. */
  lemma RacingSettlesReturn(owner: int -> int, db0: Db, i: int, a: Op, b: Op)
    requires a.Settle? && b.Settle? && a.imp == b.imp == i && Owned(owner, a) && Owned(owner, b)
    requires CostOf(a) > 0 && CostOf(b) > 0
    requires HasHold(db0.log, i) && !HasCharge(db0.log, i) && owner(i) in db0.users
    ensures exists rest, last :: RaceEnds(owner, db0, a, b, rest, last)
  {
    var s := Racing(db0, a, b);
    RaceStarts(owner, db0, i, a, b);
    StartOk(owner, db0);
    Serializable(owner, db0, Start(db0), Race(a, b), s);
    CanReturn(owner, db0, s);
    var rest, last :| AllReturn(owner, s, rest, last);
    Followed(owner, Start(db0), Race(a, b), s, rest, last);
    assert ImportOf(last.begun[0]) == Some(i);
    RacingSettlesChargeOnce(owner, db0, Race(a, b) + rest, last, i);
    assert RaceEnds(owner, db0, a, b, rest, last);
  }
}
