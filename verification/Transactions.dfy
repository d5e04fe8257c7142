/** The billing operations as database transactions: READ COMMITTED statements, the row lock of the user,
    the unique charge index with rollback, and commit. Any number of transactions interleave statement by
    statement. Their effect is that of the ledger operations run one after the other. */
module Transactions {
  import opened Common
  import opened Ledger
  import opened LedgerRuns

  datatype LogWrite = AddRow(row: Row) | DeleteRows(imp: int)

  /** How far a transaction has got; pending values are invisible to the others until the commit. */
  datatype Phase =
    | Begun
    | Probed                               // the first probe found nothing that ends the call
    | HoldSeen                             // the hold row exists
    | Locked(read: Account)                // SELECT ... FOR UPDATE returned
    | Updated(pending: Account)            // UPDATE users done, the row is locked
    | Ready(after: Account, write: LogWrite) // every statement done, commit is next

  datatype Txn = Txn(op: Op, phase: Phase)

  datatype Act =
    | Wait
    | Goto(phase: Phase)
    | Lock(phase: Phase)
    | Finish                               // return or roll back without effect
    | Commit(account: Account, write: LogWrite)

  predicate HoldsLock(p: Phase) { p.Locked? || p.Updated? || p.Ready? }

  function CostOf(op: Op): nat
    requires op.Settle?
  {
    Cost(op.multimodalOk, op.images, op.titleOk)
  }

  // ----- the next statement of each kind of transaction -----

  /** `free` says that no other transaction holds the lock of the user's row. */
  function Decide(db: Db, free: bool, op: Op, phase: Phase): Act
  {
    match op
    case Hold(user, amount, i) => DecideHold(db, free, user, amount, i, phase)
    case Settle(user, i, held, _, _, _) => DecideSettle(db, free, user, i, held, CostOf(op), phase)
    case Release(user, i, held) => DecideRelease(db, free, user, i, held, phase)
    case Reset(user, i) => DecideReset(db, free, user, i, phase)
    case Recharge(user, beans, reason) => DecideRecharge(db, free, user, beans, reason, phase)
    case AdminRecharge(user, beans, note) => DecideRecharge(db, free, user, beans, AdminReason(note), phase)
    case SetFeatures(_, _) => Finish
  }

  function DecideHold(db: Db, free: bool, user: int, amount: int, i: int, phase: Phase): Act
  {
    match phase
    case Begun => if amount <= 0 || HasHold(db.log, i) then Finish else Goto(Probed)
    case Probed =>
      // the conditional UPDATE waits for the row, then tests the row as committed
      if user !in db.users then Finish
      else if !free then Wait
      else
        var a := db.users[user];
        if a.beans - a.frozen - amount >= BEANS_FLOOR then Lock(Updated(a.(frozen := a.frozen + amount))) else Finish
    case Updated(a) => Goto(Ready(a, AddRow(Row(user, 0, a.beans, "hold", Some(i)))))
    case Ready(a, w) => Commit(a, w)
    case _ => Wait
  }

  function DecideSettle(db: Db, free: bool, user: int, i: int, held: int, cost: nat, phase: Phase): Act
  {
    match phase
    case Begun => if HasCharge(db.log, i) then Finish else Goto(Probed)
    case Probed => if HasHold(db.log, i) then Goto(HoldSeen) else Finish
    case HoldSeen =>
      if user !in db.users then Finish else if free then Lock(Locked(db.users[user])) else Wait
    case Locked(a) => Goto(Updated(Account(a.beans - cost, a.frozen - Min(held, a.frozen))))
    case Updated(a) =>
      // the unique index on (import_id) WHERE amount < 0 rejects a second charge: roll back
      if cost > 0 && HasCharge(db.log, i) then Finish
      else Goto(Ready(a, AddRow(Row(user, 0 - cost, a.beans, "TEMU采集", Some(i)))))
    case Ready(a, w) => Commit(a, w)
  }

  function DecideRelease(db: Db, free: bool, user: int, i: int, held: int, phase: Phase): Act
  {
    match phase
    case Begun => if HasNonZero(db.log, i) then Finish else Goto(Probed)
    case Probed => if HasHold(db.log, i) then Goto(HoldSeen) else Finish
    case HoldSeen =>
      if user !in db.users then Finish else if free then Lock(Locked(db.users[user])) else Wait
    case Locked(a) => Goto(Updated(a.(frozen := a.frozen - Min(held, a.frozen))))
    case Updated(a) => Goto(Ready(a, AddRow(Row(user, 0, a.beans, "release", Some(i)))))
    case Ready(a, w) => Commit(a, w)
  }

  function DecideReset(db: Db, free: bool, user: int, i: int, phase: Phase): Act
  {
    match phase
    case Begun =>
      if user !in db.users then Finish else if free then Lock(Locked(db.users[user])) else Wait
    case Locked(a) =>
      var frozen := if HasHold(db.log, i) then Max(0, a.frozen - HoldAmountFor(FeaturesOf(db, i))) else a.frozen;
      Goto(Updated(Account(a.beans - ChargeSum(db.log, i), frozen)))
    case Updated(a) => Goto(Ready(a, DeleteRows(i)))
    case Ready(a, w) => Commit(a, w)
    case _ => Wait
  }

  function DecideRecharge(db: Db, free: bool, user: int, beans: int, reason: string, phase: Phase): Act
  {
    match phase
    case Begun =>
      if beans <= 0 || user !in db.users then Finish
      else if free then Lock(Updated(db.users[user].(beans := db.users[user].beans + beans)))
      else Wait
    case Updated(a) => Goto(Ready(a, AddRow(Row(user, beans, a.beans, reason, None))))
    case Ready(a, w) => Commit(a, w)
    case _ => Wait
  }

  // ----- the system -----

  /** `locks` maps a user to the transaction holding that row; `begun` and `history` record the calls
      started and, in order, the calls that have returned. */
  datatype Sys = Sys(db: Db, txns: map<int, Txn>, locks: map<int, int>, begun: map<int, Op>, history: seq<int>)

  datatype Event = Begin(id: int, op: Op) | Advance(id: int)

  /** Calls on the same import overlap only when both settle something (the pipeline settles only a
      positive cost). */
  predicate MayOverlap(a: Op, b: Op)
  {
    ImportOf(a) == None || ImportOf(a) != ImportOf(b) ||
    (a.Settle? && b.Settle? && CostOf(a) > 0 && CostOf(b) > 0)
  }

  predicate Free(s: Sys, op: Op)
    requires !op.SetFeatures?
  {
    op.user !in s.locks
  }

  predicate Enabled(owner: int -> int, s: Sys, e: Event)
  {
    match e
    case Begin(id, op) =>
      && id !in s.begun && !op.SetFeatures? && Owned(owner, op)
      && forall t :: t in s.txns ==> MayOverlap(op, s.txns[t].op)
    case Advance(id) =>
      && id in s.txns && !s.txns[id].op.SetFeatures?
      && !Decide(s.db, Free(s, s.txns[id].op), s.txns[id].op, s.txns[id].phase).Wait?
  }

  function Install(db: Db, user: int, a: Account, w: LogWrite): Db
  {
    db.(users := db.users[user := a],
        log := match w case AddRow(r) => db.log + [r] case DeleteRows(i) => Without(db.log, i))
  }

  function Retire(s: Sys, id: int): Sys
  {
    s.(txns := s.txns - {id},
       locks := map u | u in s.locks && s.locks[u] != id :: s.locks[u],
       history := s.history + [id])
  }

  function Do(owner: int -> int, s: Sys, e: Event): Sys
    requires Enabled(owner, s, e)
  {
    match e
    case Begin(id, op) => s.(txns := s.txns[id := Txn(op, Begun)], begun := s.begun[id := op])
    case Advance(id) =>
      var t := s.txns[id];
      match Decide(s.db, Free(s, t.op), t.op, t.phase)
      case Goto(p) => s.(txns := s.txns[id := Txn(t.op, p)])
      case Lock(p) => s.(txns := s.txns[id := Txn(t.op, p)], locks := s.locks[t.op.user := id])
      case Finish => Retire(s, id)
      case Commit(a, w) => Retire(s, id).(db := Install(s.db, t.op.user, a, w))
  }

  ghost predicate Execution(owner: int -> int, s: Sys, events: seq<Event>, last: Sys)
    decreases |events|
  {
    if events == [] then last == s
    else Enabled(owner, s, events[0]) && Execution(owner, Do(owner, s, events[0]), events[1..], last)
  }

  function Start(db: Db): Sys { Sys(db, map[], map[], map[], []) }

  /** The operations in the order in which their transactions returned. */
  function Serial(begun: map<int, Op>, history: seq<int>): seq<Op>
    requires forall k :: 0 <= k < |history| ==> history[k] in begun
  {
    seq(|history|, k requires 0 <= k < |history| => begun[history[k]])
  }

  // ----- invariant -----

  /** The account an effective operation leaves. */
  function NewAccount(db: Db, op: Op): Account
    requires !op.SetFeatures? && op.user in db.users
  {
    var a := db.users[op.user];
    match op
    case Hold(_, amount, _) => a.(frozen := a.frozen + amount)
    case Settle(_, _, held, _, _, _) => Account(a.beans - CostOf(op), a.frozen - Min(held, a.frozen))
    case Release(_, _, held) => a.(frozen := a.frozen - Min(held, a.frozen))
    case Reset(user, i) => ResetAccount(db, user, i)
    case Recharge(_, beans, _) => a.(beans := a.beans + beans)
    case AdminRecharge(_, beans, _) => a.(beans := a.beans + beans)
  }

  /** The guard under which an operation changes the ledger. */
  predicate Effective(db: Db, op: Op)
  {
    match op
    case Hold(user, amount, i) => CanHold(db, user, amount, i)
    case Settle(user, i, _, _, _, _) => CanSettle(db, user, i)
    case Release(user, i, _) => CanRelease(db, user, i)
    case Reset(user, _) => user in db.users
    case Recharge(user, beans, _) => CanRecharge(db, user, beans)
    case AdminRecharge(user, beans, _) => CanRecharge(db, user, beans)
    case SetFeatures(_, _) => false
  }

  function WriteOf(db: Db, op: Op): LogWrite
    requires Effective(db, op)
  {
    if op.Reset? then DeleteRows(op.imp) else AddRow(Appended(db, op).value)
  }

  lemma EffectIsApply(db: Db, op: Op)
    requires !op.SetFeatures?
    ensures Effective(db, op) ==> Install(db, op.user, NewAccount(db, op), WriteOf(db, op)) == Apply(db, op)
    ensures !Effective(db, op) ==> Apply(db, op) == db
  {
  }

  /** What the statements executed so far have established, restated about the committed state of now. */
  predicate Checked(db: Db, t: Txn)
  {
    match t.op
    case Hold(_, amount, i) => t.phase != Begun ==> amount > 0 && !HasHold(db.log, i)
    case Settle(_, i, _, _, _, _) =>
      && (t.phase != Begun && CostOf(t.op) == 0 ==> !HasCharge(db.log, i))
      && (t.phase != Begun && t.phase != Probed ==> HasHold(db.log, i))
      && (t.phase.Ready? ==> !HasCharge(db.log, i))
    case Release(_, i, _) =>
      && (t.phase != Begun ==> !HasNonZero(db.log, i))
      && (t.phase != Begun && t.phase != Probed ==> HasHold(db.log, i))
    case Reset(_, _) => true
    case Recharge(_, beans, _) => t.phase != Begun ==> beans > 0
    case AdminRecharge(_, beans, _) => t.phase != Begun ==> beans > 0
    case SetFeatures(_, _) => false
  }

  /** The phases that each kind of call goes through. */
  predicate PhaseFits(op: Op, phase: Phase)
  {
    match phase
    case Begun => true
    case Probed => op.Hold? || op.Settle? || op.Release?
    case HoldSeen => op.Settle? || op.Release?
    case Locked(_) => op.Settle? || op.Release? || op.Reset?
    case Updated(_) => true
    case Ready(_, _) => true
  }

  predicate PhaseOk(db: Db, t: Txn)
  {
    && Checked(db, t) && PhaseFits(t.op, t.phase)
    && (HoldsLock(t.phase) ==> t.op.user in db.users)
    && (t.phase.Locked? ==> t.phase.read == db.users[t.op.user])
    && (t.phase.Updated? ==>
          && t.phase.pending == NewAccount(db, t.op)
          && (t.op.Hold? ==> CanHold(db, t.op.user, t.op.amount, t.op.imp)))
    && (t.phase.Ready? ==>
          && Effective(db, t.op)
          && t.phase.after == NewAccount(db, t.op) && t.phase.write == WriteOf(db, t.op))
  }

  ghost predicate Inv(owner: int -> int, db0: Db, s: Sys)
  {
    && (forall id :: id in s.txns ==>
          && id in s.begun && s.begun[id] == s.txns[id].op && id !in s.history
          && PhaseOk(s.db, s.txns[id])
          && (HoldsLock(s.txns[id].phase) ==>
                s.txns[id].op.user in s.locks && s.locks[s.txns[id].op.user] == id))
    && (forall id, other :: id in s.txns && other in s.txns && id != other ==>
          MayOverlap(s.txns[id].op, s.txns[other].op))
    && (forall u :: u in s.locks ==>
          s.locks[u] in s.txns && HoldsLock(s.txns[s.locks[u]].phase) && s.txns[s.locks[u]].op.user == u)
    && (forall id :: id in s.begun ==> Owned(owner, s.begun[id]) && (id in s.txns || id in s.history))
    && (forall k :: 0 <= k < |s.history| ==> s.history[k] in s.begun)
    && (forall j, k :: 0 <= j < k < |s.history| ==> s.history[j] != s.history[k])
    && s.db == Run(db0, Serial(s.begun, s.history))
  }

  // ----- one transaction's step -----

  /** A statement other than a commit keeps the transaction's own claims. */
  lemma OwnStep(db: Db, free: bool, t: Txn)
    requires PhaseOk(db, t)
    ensures var act := Decide(db, free, t.op, t.phase);
      && (act.Goto? || act.Lock? ==> PhaseOk(db, Txn(t.op, act.phase)))
      && (act.Goto? ==> (HoldsLock(act.phase) <==> HoldsLock(t.phase)))
      && (act.Lock? ==> free && HoldsLock(act.phase))
  {
  }

  /** A call that ends without effect would change nothing now; a commit has the effect of its operation. */
  lemma OwnReturn(db: Db, free: bool, t: Txn)
    requires PhaseOk(db, t)
    ensures var act := Decide(db, free, t.op, t.phase);
      && (act.Finish? ==> Apply(db, t.op) == db)
      && (act.Commit? ==> HoldsLock(t.phase) && Install(db, t.op.user, act.account, act.write) == Apply(db, t.op))
  {
    EffectIsApply(db, t.op);
  }

  lemma CheckedUndisturbed(owner: int -> int, db: Db, t: Txn, op: Op)
    requires Checked(db, t) && Owned(owner, t.op) && Owned(owner, op) && !op.SetFeatures?
    requires MayOverlap(t.op, op)
    requires HoldsLock(t.phase) ==> t.op.user != op.user
    ensures Checked(Apply(db, op), t)
  {
    if ImportOf(t.op).Some? {
      ProbesStep(db, op, t.op.imp);
    }
  }

  lemma RowUndisturbed(db: Db, u: int, op: Op)
    requires u in db.users && !op.SetFeatures? && u != op.user
    ensures u in Apply(db, op).users && Apply(db, op).users[u] == db.users[u]
    ensures Apply(db, op).features == db.features
  {
  }

  /** What a transaction holding its lock has computed is not changed by another user's commit. */
  lemma PlanUndisturbed(owner: int -> int, db: Db, t: Op, op: Op)
    requires Owned(owner, t) && Owned(owner, op) && !op.SetFeatures? && !t.SetFeatures?
    requires t.user != op.user && t.user in db.users
    ensures var db' := Apply(db, op);
      && t.user in db'.users && db'.users[t.user] == db.users[t.user]
      && NewAccount(db', t) == NewAccount(db, t)
      && (Effective(db, t) ==> Effective(db', t) && WriteOf(db', t) == WriteOf(db, t))
  {
    RowUndisturbed(db, t.user, op);
    if ImportOf(t).Some? {
      assert ImportOf(op) != ImportOf(t);
      OtherImport(db, op, t.imp);
    }
    SamePlan(db, Apply(db, op), t);
  }

  /** An operation's plan depends on its user's row, its import's rows and its import's features. */
  lemma SamePlan(db: Db, db': Db, t: Op)
    requires !t.SetFeatures? && t.user in db.users && t.user in db'.users && db'.users[t.user] == db.users[t.user]
    requires db'.features == db.features
    requires ImportOf(t).Some? ==>
      && HasHold(db'.log, t.imp) == HasHold(db.log, t.imp) && HasCharge(db'.log, t.imp) == HasCharge(db.log, t.imp)
      && HasNonZero(db'.log, t.imp) == HasNonZero(db.log, t.imp)
      && ChargeSum(db'.log, t.imp) == ChargeSum(db.log, t.imp)
    ensures NewAccount(db', t) == NewAccount(db, t)
    ensures Effective(db, t) ==> Effective(db', t) && WriteOf(db', t) == WriteOf(db, t)
  {
  }

  /** A commit of another transaction keeps a transaction's claims: it writes another user's row when the
      transaction holds its lock, and touches the same import only as a racing settle. */
  lemma Undisturbed(owner: int -> int, db: Db, t: Txn, op: Op)
    requires PhaseOk(db, t) && Owned(owner, t.op) && Owned(owner, op) && !op.SetFeatures?
    requires MayOverlap(t.op, op)
    requires HoldsLock(t.phase) ==> t.op.user != op.user
    ensures PhaseOk(Apply(db, op), t)
  {
    CheckedUndisturbed(owner, db, t, op);
    if HoldsLock(t.phase) {
      PlanUndisturbed(owner, db, t.op, op);
    }
  }

  // ----- the whole system -----

  lemma SerialAfterReturn(db0: Db, begun: map<int, Op>, history: seq<int>, id: int)
    requires forall k :: 0 <= k < |history| ==> history[k] in begun
    requires id in begun
    ensures Run(db0, Serial(begun, history + [id])) == Apply(Run(db0, Serial(begun, history)), begun[id])
  {
    assert Serial(begun, history + [id]) == Serial(begun, history) + [begun[id]];
    RunSnoc(db0, Serial(begun, history), begun[id]);
  }

  lemma BeginKeeps(owner: int -> int, db0: Db, s: Sys, id: int, op: Op)
    requires Inv(owner, db0, s) && Enabled(owner, s, Begin(id, op))
    ensures Inv(owner, db0, Do(owner, s, Begin(id, op)))
  {
    var s' := Do(owner, s, Begin(id, op));
    assert Serial(s'.begun, s'.history) == Serial(s.begun, s.history);
  }

  lemma ReturnKeeps(owner: int -> int, db0: Db, s: Sys, id: int, db': Db)
    requires Inv(owner, db0, s) && id in s.txns
    requires db' == Apply(s.db, s.txns[id].op)
    requires db' == s.db || HoldsLock(s.txns[id].phase)
    ensures Inv(owner, db0, Retire(s, id).(db := db'))
  {
    var s', op := Retire(s, id).(db := db'), s.txns[id].op;
    SerialAfterReturn(db0, s.begun, s.history, id);
    forall other | other in s'.txns
      ensures PhaseOk(s'.db, s'.txns[other])
    {
      if db' != s.db {
        Undisturbed(owner, s.db, s.txns[other], op);
      }
    }
  }

  /** A transaction moves on, with or without taking the free lock of its user's row. */
  lemma MoveKeeps(owner: int -> int, db0: Db, s: Sys, id: int, p: Phase, locks: map<int, int>)
    requires Inv(owner, db0, s) && id in s.txns && PhaseOk(s.db, Txn(s.txns[id].op, p))
    requires !s.txns[id].op.SetFeatures?
    requires (locks == s.locks && (HoldsLock(p) <==> HoldsLock(s.txns[id].phase))) ||
             (locks == s.locks[s.txns[id].op.user := id] && s.txns[id].op.user !in s.locks && HoldsLock(p))
    ensures Inv(owner, db0, s.(txns := s.txns[id := Txn(s.txns[id].op, p)], locks := locks))
  {
  }

  lemma AdvanceKeeps(owner: int -> int, db0: Db, s: Sys, id: int)
    requires Inv(owner, db0, s) && Enabled(owner, s, Advance(id))
    ensures Inv(owner, db0, Do(owner, s, Advance(id)))
  {
    var t := s.txns[id];
    var free := Free(s, t.op);
    OwnStep(s.db, free, t);
    OwnReturn(s.db, free, t);
    match Decide(s.db, free, t.op, t.phase)
    case Goto(p) => MoveKeeps(owner, db0, s, id, p, s.locks);
    case Lock(p) => MoveKeeps(owner, db0, s, id, p, s.locks[t.op.user := id]);
    case Finish =>
      ReturnKeeps(owner, db0, s, id, s.db);
      assert Retire(s, id).(db := s.db) == Retire(s, id);
    case Commit(a, w) => ReturnKeeps(owner, db0, s, id, Install(s.db, t.op.user, a, w));
  }

  /** In every interleaving, the committed state is the result of running the returned calls one after the
      other in the order of their return; each call returns at most once. */
  lemma {:induction false} Serializable(owner: int -> int, db0: Db, s: Sys, events: seq<Event>, last: Sys)
    requires Inv(owner, db0, s) && Execution(owner, s, events, last)
    ensures Inv(owner, db0, last)
    ensures last.db == Run(db0, Serial(last.begun, last.history))
    decreases |events|
  {
    if events == [] {
    } else {
      match events[0] {
        case Begin(id, op) => BeginKeeps(owner, db0, s, id, op);
        case Advance(id) => AdvanceKeeps(owner, db0, s, id);
      }
      Serializable(owner, db0, Do(owner, s, events[0]), events[1..], last);
    }
  }

  lemma StartOk(owner: int -> int, db0: Db)
    ensures Inv(owner, db0, Start(db0))
  {
    assert Serial(map[], []) == [];
  }

  // ----- racing settles -----

  function ChargeCount(log: seq<Row>, i: int): nat
  {
    if log == [] then 0
    else ChargeCount(log[..|log| - 1], i) + (if IsCharge(log[|log| - 1], i) then 1 else 0)
  }

  lemma {:induction false} ChargeCountProbe(log: seq<Row>, i: int)
    ensures ChargeCount(log, i) > 0 <==> HasCharge(log, i)
    decreases |log|
  {
    if log == [] {
    } else {
      ChargeCountProbe(log[..|log| - 1], i);
    }
  }

  lemma {:induction false} ChargeCountAfterDelete(log: seq<Row>, d: int, i: int)
    ensures ChargeCount(Without(log, d), i) == if i == d then 0 else ChargeCount(log, i)
    decreases |log|
  {
    if log == [] {
    } else {
      var front, r := log[..|log| - 1], log[|log| - 1];
      ChargeCountAfterDelete(front, d, i);
      if r.imp != Some(d) {
        assert (Without(front, d) + [r])[..|Without(front, d)|] == Without(front, d);
      } else {
        assert Without(log, d) == Without(front, d);
      }
    }
  }

  lemma ChargeCountAfter(db: Db, op: Op, i: int)
    ensures ChargeCount(Apply(db, op).log, i) ==
      if op.Reset? && op.user in db.users then (if op.imp == i then 0 else ChargeCount(db.log, i))
      else ChargeCount(db.log, i) + (if Appended(db, op).Some? && IsCharge(Appended(db, op).value, i) then 1 else 0)
  {
    LogAfter(db, op);
    if op.Reset? && op.user in db.users {
      ChargeCountAfterDelete(db.log, op.imp, i);
    } else if Appended(db, op).Some? {
      assert (db.log + [Appended(db, op).value])[..|db.log|] == db.log;
    }
  }

  lemma SettleStep(db: Db, op: Op, i: int, u: int)
    requires ImportOf(op) == Some(i) ==> op.Settle? && CostOf(op) > 0 && op.user == u
    requires HasHold(db.log, i) && u in db.users && ChargeCount(db.log, i) <= 1
    ensures var db' := Apply(db, op);
      && HasHold(db'.log, i) && u in db'.users && ChargeCount(db'.log, i) <= 1
      && (ChargeCount(db.log, i) == 1 || ImportOf(op) == Some(i) ==> ChargeCount(db'.log, i) == 1)
  {
    ChargeCountAfter(db, op, i);
    if ImportOf(op) == Some(i) {
      ProbesStep(db, op, i);
      ChargeCountProbe(db.log, i);
    } else {
      OtherImport(db, op, i);
    }
  }

  /** One after the other, settles of a held, uncharged import of an existing user charge it once. */
  lemma {:induction false} SettlesChargeOnce(db: Db, ops: seq<Op>, i: int, u: int)
    requires forall k :: 0 <= k < |ops| && ImportOf(ops[k]) == Some(i) ==>
      ops[k].Settle? && CostOf(ops[k]) > 0 && ops[k].user == u
    requires HasHold(db.log, i) && u in db.users && ChargeCount(db.log, i) <= 1
    ensures HasHold(Run(db, ops).log, i) && ChargeCount(Run(db, ops).log, i) <= 1
    ensures (ChargeCount(db.log, i) == 1 || exists k :: 0 <= k < |ops| && ImportOf(ops[k]) == Some(i)) ==>
      ChargeCount(Run(db, ops).log, i) == 1
    decreases |ops|
  {
    if ops == [] {
    } else {
      SettleStep(db, ops[0], i, u);
      SettlesChargeOnce(Apply(db, ops[0]), ops[1..], i, u);
    }
  }

  /** However many settles of one held import race (amid any calls on other imports), once they have all
      returned exactly one charge row of that import is committed. */
  lemma RacingSettlesChargeOnce(owner: int -> int, db0: Db, events: seq<Event>, last: Sys, i: int)
    requires Execution(owner, Start(db0), events, last) && last.txns == map[]
    requires HasHold(db0.log, i) && !HasCharge(db0.log, i) && owner(i) in db0.users
    requires forall id :: id in last.begun && ImportOf(last.begun[id]) == Some(i) ==>
      last.begun[id].Settle? && CostOf(last.begun[id]) > 0
    requires exists id :: id in last.begun && ImportOf(last.begun[id]) == Some(i)
    ensures ChargeCount(last.db.log, i) == 1
  {
    StartOk(owner, db0);
    Serializable(owner, db0, Start(db0), events, last);
    ChargeCountProbe(db0.log, i);
    SettlesReturned(owner, db0, last, i);
    SettlesChargeOnce(db0, Serial(last.begun, last.history), i, owner(i));
  }

  /** Once every call has returned, the calls on an import that have begun are those in the serial order. */
  lemma SettlesReturned(owner: int -> int, db0: Db, last: Sys, i: int)
    requires Inv(owner, db0, last) && last.txns == map[]
    requires forall id :: id in last.begun && ImportOf(last.begun[id]) == Some(i) ==>
      last.begun[id].Settle? && CostOf(last.begun[id]) > 0
    requires exists id :: id in last.begun && ImportOf(last.begun[id]) == Some(i)
    ensures var ops := Serial(last.begun, last.history);
      && (forall k :: 0 <= k < |ops| && ImportOf(ops[k]) == Some(i) ==>
            ops[k].Settle? && CostOf(ops[k]) > 0 && ops[k].user == owner(i))
      && exists k :: 0 <= k < |ops| && ImportOf(ops[k]) == Some(i)
  {
    var ops := Serial(last.begun, last.history);
    var id :| id in last.begun && ImportOf(last.begun[id]) == Some(i);
    assert id in last.history;
    var k :| 0 <= k < |last.history| && last.history[k] == id;
    assert ImportOf(ops[k]) == Some(i);
    forall m | 0 <= m < |ops| && ImportOf(ops[m]) == Some(i)
      ensures ops[m].Settle? && CostOf(ops[m]) > 0 && ops[m].user == owner(i)
    {
      assert last.history[m] in last.begun && Owned(owner, ops[m]);
    }
  }
}
