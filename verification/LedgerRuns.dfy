/** Whole runs of the ledger: conservation, and the books of open holds beside it. */
module LedgerRuns {
  import opened Common
  import opened Ledger

  // ===== Ownership: every billing call names the user who owns the import =====

  predicate Owned(owner: int -> int, op: Op)
  {
    match op
    case Hold(user, _, i) => owner(i) == user
    case Settle(user, i, _, _, _, _) => owner(i) == user
    case Release(user, i, _) => owner(i) == user
    case Reset(user, i) => owner(i) == user
    case Recharge(_, _, _) => true
    case AdminRecharge(_, _, _) => true
    case SetFeatures(_, _) => true
  }

  /** Rows of an import are charges or zero rows of its owner. */
  ghost predicate LogOk(owner: int -> int, log: seq<Row>)
  {
    forall k :: 0 <= k < |log| && log[k].imp.Some? ==>
      log[k].amount <= 0 && log[k].user == owner(log[k].imp.value)
  }

  lemma LogOkStep(owner: int -> int, db: Db, op: Op)
    requires LogOk(owner, db.log) && Owned(owner, op)
    ensures LogOk(owner, Apply(db, op).log)
  {
  }

  // ===== Conservation =====

  function UserSum(log: seq<Row>, u: int): int
  {
    if log == [] then 0
    else
      var r := log[|log| - 1];
      UserSum(log[..|log| - 1], u) + (if r.user == u then r.amount else 0)
  }

  /** SUM(amount) FILTER (WHERE amount > 0). */
  function RechargeSum(log: seq<Row>): int
  {
    if log == [] then 0
    else
      var r := log[|log| - 1];
      RechargeSum(log[..|log| - 1]) + (if r.amount > 0 then r.amount else 0)
  }

  /** SUM(amount) FILTER (WHERE amount < 0). */
  function ConsumeSum(log: seq<Row>): int
  {
    if log == [] then 0
    else
      var r := log[|log| - 1];
      ConsumeSum(log[..|log| - 1]) + (if r.amount < 0 then r.amount else 0)
  }

  /** The admin summary's net_beans. */
  function NetBeans(log: seq<Row>): int { RechargeSum(log) + ConsumeSum(log) }

  ghost function TotalBeans(db: Db): int { SumMap(map u | u in db.users :: db.users[u].beans) }

  lemma SumsAfterAppend(log: seq<Row>, r: Row, u: int)
    ensures UserSum(log + [r], u) == UserSum(log, u) + (if r.user == u then r.amount else 0)
    ensures NetBeans(log + [r]) == NetBeans(log) + r.amount
  {
    assert (log + [r])[..|log|] == log;
  }

  lemma {:induction false} SumsAfterDelete(owner: int -> int, log: seq<Row>, d: int, u: int)
    requires LogOk(owner, log)
    ensures UserSum(Without(log, d), u) == UserSum(log, u) - (if u == owner(d) then ChargeSum(log, d) else 0)
    ensures NetBeans(Without(log, d)) == NetBeans(log) - ChargeSum(log, d)
    decreases |log|
  {
    if log == [] {
    } else {
      var front, r := log[..|log| - 1], log[|log| - 1];
      SumsAfterDelete(owner, front, d, u);
      if r.imp != Some(d) {
        SumsAfterAppend(Without(front, d), r, u);
      } else {
        assert Without(log, d) == Without(front, d);
      }
    }
  }

  lemma TotalAfterUpdate(db: Db, u: int, a: Account, db': Db)
    requires u in db.users && db'.users == db.users[u := a]
    ensures TotalBeans(db') == TotalBeans(db) + a.beans - db.users[u].beans
  {
    var m := map v | v in db.users :: db.users[v].beans;
    assert (map v | v in db'.users :: db'.users[v].beans) == m[u := a.beans];
    SumUpdate(m, u, a.beans);
  }

  /** One operation moves a user's beans by exactly what it moves that user's log sum. */
  lemma UserStep(owner: int -> int, db: Db, op: Op, u: int)
    requires LogOk(owner, db.log) && Owned(owner, op) && u in db.users
    ensures Apply(db, op).users.Keys == db.users.Keys
    ensures Apply(db, op).users[u].beans - UserSum(Apply(db, op).log, u) == db.users[u].beans - UserSum(db.log, u)
  {
    LogAfter(db, op);
    if Appended(db, op).Some? {
      SumsAfterAppend(db.log, Appended(db, op).value, u);
    } else if op.Reset? && op.user in db.users {
      SumsAfterDelete(owner, db.log, op.imp, u);
    }
  }

  /** It moves the total of all balances by what it moves the admin summary. */
  lemma TotalStep(owner: int -> int, db: Db, op: Op)
    requires LogOk(owner, db.log) && Owned(owner, op)
    ensures Apply(db, op).users.Keys == db.users.Keys
    ensures TotalBeans(Apply(db, op)) - NetBeans(Apply(db, op).log) == TotalBeans(db) - NetBeans(db.log)
  {
    var db' := Apply(db, op);
    LogAfter(db, op);
    match Appended(db, op)
    case Some(r) =>
      SumsAfterAppend(db.log, r, 0);
      TotalAfterUpdate(db, r.user, db'.users[r.user], db');
    case None =>
      if op.Reset? && op.user in db.users {
        SumsAfterDelete(owner, db.log, op.imp, 0);
        TotalAfterUpdate(db, op.user, db'.users[op.user], db');
      } else {
        assert db'.users == db.users && db'.log == db.log;
      }
  }

  predicate AllOwned(owner: int -> int, ops: seq<Op>)
  {
    forall k :: 0 <= k < |ops| ==> Owned(owner, ops[k])
  }

  /** Every user's beans are the initial beans plus the sum of that user's remaining rows,
      and the total moves with the admin summary. */
  lemma {:induction false} Conservation(owner: int -> int, db: Db, ops: seq<Op>)
    requires LogOk(owner, db.log) && AllOwned(owner, ops)
    ensures Run(db, ops).users.Keys == db.users.Keys
    ensures forall u :: u in db.users ==>
      Run(db, ops).users[u].beans - UserSum(Run(db, ops).log, u) == db.users[u].beans - UserSum(db.log, u)
    ensures TotalBeans(Run(db, ops)) - NetBeans(Run(db, ops).log) == TotalBeans(db) - NetBeans(db.log)
    decreases |ops|
  {
    if ops == [] {
    } else {
      var db' := Apply(db, ops[0]);
      TotalStep(owner, db, ops[0]);
      forall u | u in db.users
        ensures db'.users[u].beans - UserSum(db'.log, u) == db.users[u].beans - UserSum(db.log, u)
      {
        UserStep(owner, db, ops[0], u);
      }
      LogOkStep(owner, db, ops[0]);
      Conservation(owner, db', ops[1..]);
    }
  }

  // ===== Open holds =====

  datatype OpenHold = OpenHold(user: int, amount: int)

  /** The ledger together with the holds that no settle, release or reset has ended yet. */
  datatype Books = Books(db: Db, open: map<int, OpenHold>)

  /** The operation ends a hold: it finds the hold row and unfreezes. */
  predicate Closes(db: Db, op: Op)
  {
    match op
    case Settle(user, i, _, _, _, _) => CanSettle(db, user, i)
    case Release(user, i, _) => CanRelease(db, user, i)
    case Reset(user, i) => user in db.users && HasHold(db.log, i)
    case _ => false
  }

  /** The amount a closing operation asks to unfreeze. */
  function Asked(db: Db, op: Op): int
    requires Closes(db, op)
  {
    match op
    case Settle(_, _, held, _, _, _) => held
    case Release(_, _, held) => held
    case Reset(_, i) => HoldAmountFor(FeaturesOf(db, i))
  }

  function NextBooks(b: Books, op: Op): Books
  {
    Books(Apply(b.db, op),
          if op.Hold? && CanHold(b.db, op.user, op.amount, op.imp) then
            b.open[op.imp := OpenHold(op.user, op.amount)]
          else if Closes(b.db, op) then b.open - {op.imp}
          else b.open)
  }

  function RunBooks(b: Books, ops: seq<Op>): Books
    decreases |ops|
  {
    if ops == [] then b else RunBooks(NextBooks(b, ops[0]), ops[1..])
  }

  lemma {:induction false} RunBooksIsRun(b: Books, ops: seq<Op>)
    ensures RunBooks(b, ops).db == Run(b.db, ops)
    decreases |ops|
  {
    if ops == [] {
    } else {
      RunBooksIsRun(NextBooks(b, ops[0]), ops[1..]);
    }
  }

  ghost function OpenOf(open: map<int, OpenHold>, u: int): map<int, int>
  {
    map i | i in open && open[i].user == u :: open[i].amount
  }

  ghost function SumOpen(open: map<int, OpenHold>, u: int): int { SumMap(OpenOf(open, u)) }

  lemma SumOpenAdd(open: map<int, OpenHold>, i: int, h: OpenHold, u: int)
    requires i !in open
    ensures SumOpen(open[i := h], u) == SumOpen(open, u) + (if h.user == u then h.amount else 0)
  {
    if h.user == u {
      assert OpenOf(open[i := h], u) == OpenOf(open, u)[i := h.amount];
      SumUpdate(OpenOf(open, u), i, h.amount);
    } else {
      assert OpenOf(open[i := h], u) == OpenOf(open, u);
    }
  }

  lemma SumOpenRemove(open: map<int, OpenHold>, i: int, u: int)
    ensures SumOpen(open - {i}, u) ==
            SumOpen(open, u) - (if i in open && open[i].user == u then open[i].amount else 0)
  {
    if i in open && open[i].user == u {
      assert OpenOf(open - {i}, u) == OpenOf(open, u) - {i};
      SumRemove(OpenOf(open, u), i);
    } else {
      assert OpenOf(open - {i}, u) == OpenOf(open, u);
    }
  }

  /** What the open holds say about the log; frozen is never negative. */
  ghost predicate BooksOk(owner: int -> int, b: Books)
  {
    && (forall i :: HasCharge(b.db.log, i) ==> HasHold(b.db.log, i))
    && (forall i :: i in b.open ==>
          && HasHold(b.db.log, i) && !HasCharge(b.db.log, i)
          && b.open[i].user == owner(i) && b.open[i].amount > 0)
    && (forall u :: u in b.db.users ==> 0 <= b.db.users[u].frozen)
  }

  /** The call names the owner, and an amount that is not negative, as hold_amount_for never is. */
  predicate Proper(owner: int -> int, op: Op)
  {
    Owned(owner, op) && (op.Settle? || op.Release? ==> op.held >= 0)
  }

  predicate AllProper(owner: int -> int, ops: seq<Op>)
  {
    forall k :: 0 <= k < |ops| ==> Proper(owner, ops[k])
  }

  /** What a close really takes out of the frozen column. */
  function Taken(b: Books, op: Op): int
    requires Closes(b.db, op)
  {
    Min(Asked(b.db, op), b.db.users[op.user].frozen)
  }

  /** The open hold that a close ends; 0 when the hold row it finds is left over from an ended hold. */
  function OwnHold(b: Books, op: Op): int
    requires Closes(b.db, op)
  {
    if op.imp in b.open then b.open[op.imp].amount else 0
  }

  /** What one operation does to the frozen column and to the open holds of each user. */
  lemma FrozenStep(owner: int -> int, b: Books, op: Op, u: int)
    requires BooksOk(owner, b) && Proper(owner, op) && u in b.db.users
    ensures var b' := NextBooks(b, op);
      && u in b'.db.users
      && (Closes(b.db, op) && op.user == u ==>
            && b'.db.users[u].frozen == b.db.users[u].frozen - Taken(b, op)
            && SumOpen(b'.open, u) == SumOpen(b.open, u) - OwnHold(b, op))
      && (!(Closes(b.db, op) && op.user == u) ==>
            SumOpen(b'.open, u) - b'.db.users[u].frozen == SumOpen(b.open, u) - b.db.users[u].frozen
            && b'.db.users[u].frozen >= b.db.users[u].frozen)
  {
    if op.Hold? && CanHold(b.db, op.user, op.amount, op.imp) {
      SumOpenAdd(b.open, op.imp, OpenHold(op.user, op.amount), u);
    } else if Closes(b.db, op) {
      SumOpenRemove(b.open, op.imp, u);
    }
  }

  lemma BooksOkStep(owner: int -> int, b: Books, op: Op)
    requires BooksOk(owner, b) && Proper(owner, op)
    ensures BooksOk(owner, NextBooks(b, op))
  {
    var b' := NextBooks(b, op);
    forall i | HasCharge(b'.db.log, i)
      ensures HasHold(b'.db.log, i)
    {
      ProbesStep(b.db, op, i);
    }
    forall i | i in b'.open
      ensures HasHold(b'.db.log, i) && !HasCharge(b'.db.log, i)
      ensures b'.open[i].user == owner(i) && b'.open[i].amount > 0
    {
      OpenHoldStep(owner, b, op, i);
    }
    ApplyKeepsUsers(b.db, op);
    forall u | u in b'.db.users
      ensures 0 <= b'.db.users[u].frozen
    {
      FrozenStep(owner, b, op, u);
    }
  }

  lemma OpenAmounts(owner: int -> int, b: Books, u: int)
    requires BooksOk(owner, b)
    ensures SumOpen(b.open, u) >= 0
    ensures forall i :: i in b.open && b.open[i].user == u ==> b.open[i].amount <= SumOpen(b.open, u)
  {
    SumNonNegative(OpenOf(b.open, u));
    assert forall i :: i in b.open && b.open[i].user == u ==> OpenOf(b.open, u)[i] == b.open[i].amount;
  }

  lemma OpenHoldStep(owner: int -> int, b: Books, op: Op, i: int)
    requires BooksOk(owner, b) && Owned(owner, op)
    requires i in NextBooks(b, op).open
    ensures var b' := NextBooks(b, op);
      && HasHold(b'.db.log, i) && !HasCharge(b'.db.log, i)
      && b'.open[i].user == owner(i) && b'.open[i].amount > 0
  {
    ProbesStep(b.db, op, i);
  }
}
