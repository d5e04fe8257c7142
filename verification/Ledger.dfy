/** The bean ledger: users.beans, users.frozen_beans and bean_transactions, as values.
    One function per billing operation gives the state that the operation commits. */
module Ledger {
  import opened Common

  const BEANS_FLOOR: int := -10
  const COST_TITLE: int := 1
  const HOLD_IMAGES: int := 10
  const HOLD_MULTIMODAL: int := 1
  const HOLD_PER_IMAGE: int := 1

  datatype Account = Account(beans: int, frozen: int)
  {
    function Available(): int { beans - frozen }
  }

  datatype Row = Row(user: int, amount: int, balanceAfter: int, reason: string, imp: Option<int>)

  /** `features` is imports.ai_features; its keys are the imports that exist. */
  datatype Db = Db(users: map<int, Account>, log: seq<Row>, features: map<int, seq<string>>)

  datatype Op =
    | Hold(user: int, amount: int, imp: int)
    | Settle(user: int, imp: int, held: int, multimodalOk: bool, images: int, titleOk: bool)
    | Release(user: int, imp: int, held: int)
    | Reset(user: int, imp: int)
    | Recharge(user: int, beans: int, reason: string)
    | AdminRecharge(user: int, beans: int, note: string)
    | SetFeatures(imp: int, chosen: seq<string>)

  function HoldAmountFor(features: seq<string>): (amount: nat)
    ensures amount == 0 <==> "llm" !in features && "image_gen" !in features
    ensures amount <= COST_TITLE + HOLD_IMAGES
  {
    (if "llm" in features then COST_TITLE else 0) +
    (if "image_gen" in features then HOLD_IMAGES else 0)
  }

  function Cost(multimodalOk: bool, images: int, titleOk: bool): (cost: nat)
    ensures cost == 0 <==> !multimodalOk && !titleOk && images <= 0
  {
    (if titleOk then COST_TITLE else 0) +
    (if multimodalOk then HOLD_MULTIMODAL else 0) +
    HOLD_PER_IMAGE * Max(0, images)
  }

  /** What a run can deliver under the features it was started with. */
  predicate Possible(features: seq<string>, titleOk: bool, analysed: bool, images: nat)
  {
    && (titleOk ==> "llm" in features)
    && (analysed ==> "image_gen" in features)
    && (images > 0 ==> analysed)
  }

  // ----- the SELECT ... LIMIT 1 probes -----

  predicate IsHold(r: Row, i: int) { r.imp == Some(i) && r.reason == "hold" }

  predicate IsCharge(r: Row, i: int) { r.imp == Some(i) && r.amount < 0 }

  predicate IsNonZero(r: Row, i: int) { r.imp == Some(i) && r.amount != 0 }

  predicate HasHold(log: seq<Row>, i: int)
  {
    log != [] && (IsHold(log[|log| - 1], i) || HasHold(log[..|log| - 1], i))
  }

  predicate HasCharge(log: seq<Row>, i: int)
  {
    log != [] && (IsCharge(log[|log| - 1], i) || HasCharge(log[..|log| - 1], i))
  }

  predicate HasNonZero(log: seq<Row>, i: int)
  {
    log != [] && (IsNonZero(log[|log| - 1], i) || HasNonZero(log[..|log| - 1], i))
  }

  /** SUM(amount) of the charges of an import. */
  function ChargeSum(log: seq<Row>, i: int): int
  {
    if log == [] then 0
    else
      var r := log[|log| - 1];
      ChargeSum(log[..|log| - 1], i) + (if IsCharge(r, i) then r.amount else 0)
  }

  /** DELETE FROM bean_transactions WHERE import_id = i. */
  function Without(log: seq<Row>, i: int): (rest: seq<Row>)
    ensures forall k :: 0 <= k < |rest| ==> rest[k] in log && rest[k].imp != Some(i)
    ensures forall k :: 0 <= k < |log| && log[k].imp != Some(i) ==> log[k] in rest
  {
    if log == [] then []
    else
      var r := log[|log| - 1];
      Without(log[..|log| - 1], i) + (if r.imp == Some(i) then [] else [r])
  }

  function FeaturesOf(db: Db, i: int): seq<string>
  {
    if i in db.features then db.features[i] else []
  }

  // ----- guards: when an operation changes the ledger -----

  predicate CanHold(db: Db, user: int, amount: int, i: int)
  {
    && amount > 0
    && !HasHold(db.log, i)
    && user in db.users
    && db.users[user].Available() - amount >= BEANS_FLOOR
  }

  predicate CanSettle(db: Db, user: int, i: int)
  {
    !HasCharge(db.log, i) && HasHold(db.log, i) && user in db.users
  }

  predicate CanRelease(db: Db, user: int, i: int)
  {
    !HasNonZero(db.log, i) && HasHold(db.log, i) && user in db.users
  }

  predicate CanRecharge(db: Db, user: int, beans: int) { beans > 0 && user in db.users }

  // ----- the operations -----

  function Unfrozen(a: Account, held: int): Account
  {
    a.(frozen := a.frozen - Min(held, a.frozen))
  }

  function ApplyHold(db: Db, user: int, amount: int, i: int): Db
  {
    if CanHold(db, user, amount, i) then
      var a := db.users[user];
      db.(users := db.users[user := a.(frozen := a.frozen + amount)],
          log := db.log + [Row(user, 0, a.beans, "hold", Some(i))])
    else db
  }

  function ApplySettle(db: Db, user: int, i: int, held: int, cost: nat): Db
  {
    if CanSettle(db, user, i) then
      var a := Unfrozen(db.users[user], held);
      db.(users := db.users[user := a.(beans := a.beans - cost)],
          log := db.log + [Row(user, 0 - cost, a.beans - cost, "TEMU采集", Some(i))])
    else db
  }

  function ApplyRelease(db: Db, user: int, i: int, held: int): Db
  {
    if CanRelease(db, user, i) then
      var a := db.users[user];
      db.(users := db.users[user := Unfrozen(a, held)],
          log := db.log + [Row(user, 0, a.beans, "release", Some(i))])
    else db
  }

  function ResetAccount(db: Db, user: int, i: int): Account
    requires user in db.users
  {
    var a := db.users[user];
    var frozen := if HasHold(db.log, i) then Max(0, a.frozen - HoldAmountFor(FeaturesOf(db, i))) else a.frozen;
    Account(a.beans - ChargeSum(db.log, i), frozen)
  }

  function ApplyReset(db: Db, user: int, i: int): Db
  {
    if user in db.users then
      db.(users := db.users[user := ResetAccount(db, user, i)], log := Without(db.log, i))
    else db
  }

  function ApplyRecharge(db: Db, user: int, beans: int, reason: string): Db
  {
    if CanRecharge(db, user, beans) then
      var a := db.users[user];
      db.(users := db.users[user := a.(beans := a.beans + beans)],
          log := db.log + [Row(user, beans, a.beans + beans, reason, None)])
    else db
  }

  function AdminReason(note: string): string
  {
    if note != "" then "超管充值: " + note else "超管充值"
  }

  function ApplyFeatures(db: Db, i: int, chosen: seq<string>): Db
  {
    if i in db.features then db.(features := db.features[i := chosen]) else db
  }

  function Apply(db: Db, op: Op): Db
  {
    match op
    case Hold(user, amount, i) => ApplyHold(db, user, amount, i)
    case Settle(user, i, held, mm, images, title) => ApplySettle(db, user, i, held, Cost(mm, images, title))
    case Release(user, i, held) => ApplyRelease(db, user, i, held)
    case Reset(user, i) => ApplyReset(db, user, i)
    case Recharge(user, beans, reason) => ApplyRecharge(db, user, beans, reason)
    case AdminRecharge(user, beans, note) => ApplyRecharge(db, user, beans, AdminReason(note))
    case SetFeatures(i, chosen) => ApplyFeatures(db, i, chosen)
  }

  function Run(db: Db, ops: seq<Op>): Db
    decreases |ops|
  {
    if ops == [] then db else Run(Apply(db, ops[0]), ops[1..])
  }

  lemma {:induction false} RunSnoc(db: Db, ops: seq<Op>, op: Op)
    ensures Run(db, ops + [op]) == Apply(Run(db, ops), op)
    decreases |ops|
  {
    if ops == [] {
      assert ops + [op] == [op];
      assert Run(Apply(db, op), [op][1..]) == Apply(db, op);
    } else {
      assert (ops + [op])[1..] == ops[1..] + [op];
      RunSnoc(Apply(db, ops[0]), ops[1..], op);
    }
  }

  lemma {:induction false} ChargeIsNonZero(log: seq<Row>, i: int)
    ensures HasCharge(log, i) ==> HasNonZero(log, i)
    decreases |log|
  {
    if log == [] {
    } else {
      ChargeIsNonZero(log[..|log| - 1], i);
    }
  }

  // ----- probes after an append or a delete -----

  lemma ProbesAfterAppend(log: seq<Row>, r: Row, i: int)
    ensures HasHold(log + [r], i) == (HasHold(log, i) || IsHold(r, i))
    ensures HasCharge(log + [r], i) == (HasCharge(log, i) || IsCharge(r, i))
    ensures HasNonZero(log + [r], i) == (HasNonZero(log, i) || IsNonZero(r, i))
    ensures ChargeSum(log + [r], i) == ChargeSum(log, i) + (if IsCharge(r, i) then r.amount else 0)
  {
    assert (log + [r])[..|log|] == log;
  }

  lemma {:induction false} ProbesAfterDelete(log: seq<Row>, d: int, i: int)
    ensures HasHold(Without(log, d), i) == (i != d && HasHold(log, i))
    ensures HasCharge(Without(log, d), i) == (i != d && HasCharge(log, i))
    ensures HasNonZero(Without(log, d), i) == (i != d && HasNonZero(log, i))
    ensures ChargeSum(Without(log, d), i) == if i == d then 0 else ChargeSum(log, i)
    decreases |log|
  {
    if log == [] {
    } else {
      var front, r := log[..|log| - 1], log[|log| - 1];
      ProbesAfterDelete(front, d, i);
      if r.imp != Some(d) {
        ProbesAfterAppend(Without(front, d), r, i);
      } else {
        assert Without(log, d) == Without(front, d);
      }
    }
  }

  /** The row an operation appends, if any. */
  function Appended(db: Db, op: Op): Option<Row>
  {
    match op
    case Hold(user, amount, i) =>
      if CanHold(db, user, amount, i) then Some(Row(user, 0, db.users[user].beans, "hold", Some(i))) else None
    case Settle(user, i, _, mm, images, title) =>
      var cost := Cost(mm, images, title);
      if CanSettle(db, user, i)
      then Some(Row(user, 0 - cost, db.users[user].beans - cost, "TEMU采集", Some(i))) else None
    case Release(user, i, _) =>
      if CanRelease(db, user, i) then Some(Row(user, 0, db.users[user].beans, "release", Some(i))) else None
    case Recharge(user, beans, reason) =>
      if CanRecharge(db, user, beans) then Some(Row(user, beans, db.users[user].beans + beans, reason, None)) else None
    case AdminRecharge(user, beans, note) =>
      if CanRecharge(db, user, beans)
      then Some(Row(user, beans, db.users[user].beans + beans, AdminReason(note), None)) else None
    case _ => None
  }

  lemma LogAfter(db: Db, op: Op)
    ensures Apply(db, op).log ==
      if op.Reset? && op.user in db.users then Without(db.log, op.imp)
      else if Appended(db, op).Some? then db.log + [Appended(db, op).value]
      else db.log
  {
  }

  /** What an operation on any import does to the probes of import i. */
  lemma ProbesStep(db: Db, op: Op, i: int)
    ensures var log := Apply(db, op).log;
      if op.Reset? && op.user in db.users then
        && HasHold(log, i) == (i != op.imp && HasHold(db.log, i))
        && HasCharge(log, i) == (i != op.imp && HasCharge(db.log, i))
        && HasNonZero(log, i) == (i != op.imp && HasNonZero(db.log, i))
        && ChargeSum(log, i) == (if i == op.imp then 0 else ChargeSum(db.log, i))
      else
        var r := Appended(db, op);
        && HasHold(log, i) == (HasHold(db.log, i) || (r.Some? && IsHold(r.value, i)))
        && HasCharge(log, i) == (HasCharge(db.log, i) || (r.Some? && IsCharge(r.value, i)))
        && HasNonZero(log, i) == (HasNonZero(db.log, i) || (r.Some? && IsNonZero(r.value, i)))
        && ChargeSum(log, i) == ChargeSum(db.log, i) + (if r.Some? && IsCharge(r.value, i) then r.value.amount else 0)
  {
    LogAfter(db, op);
    if op.Reset? && op.user in db.users {
      ProbesAfterDelete(db.log, op.imp, i);
    } else if Appended(db, op).Some? {
      ProbesAfterAppend(db.log, Appended(db, op).value, i);
    }
  }

  /** The import an operation is about. */
  function ImportOf(op: Op): Option<int>
  {
    match op
    case Hold(_, _, i) => Some(i)
    case Settle(_, i, _, _, _, _) => Some(i)
    case Release(_, i, _) => Some(i)
    case Reset(_, i) => Some(i)
    case _ => None
  }

  /** An operation on another import leaves the probes of import i alone. */
  lemma OtherImport(db: Db, op: Op, i: int)
    requires ImportOf(op) != Some(i)
    ensures var log := Apply(db, op).log;
      && HasHold(log, i) == HasHold(db.log, i) && HasCharge(log, i) == HasCharge(db.log, i)
      && HasNonZero(log, i) == HasNonZero(db.log, i) && ChargeSum(log, i) == ChargeSum(db.log, i)
  {
    ProbesStep(db, op, i);
  }

  /** Repeated calls and calls without a hold change nothing: a hold once there is a hold row, a settle after a
      charge, a release after a charge or a recharge row of the import, either without a hold row; and no
      call changes anything for an unknown user. */
  lemma NoEffect(db: Db, op: Op)
    requires !op.SetFeatures?
    ensures op.Hold? && (op.amount <= 0 || HasHold(db.log, op.imp)) ==> Apply(db, op) == db
    ensures op.Settle? && (HasCharge(db.log, op.imp) || !HasHold(db.log, op.imp)) ==> Apply(db, op) == db
    ensures op.Release? && (HasNonZero(db.log, op.imp) || !HasHold(db.log, op.imp)) ==> Apply(db, op) == db
    ensures (op.Recharge? || op.AdminRecharge?) && op.beans <= 0 ==> Apply(db, op) == db
    ensures op.user !in db.users ==> Apply(db, op) == db
  {
  }

  /** An appended row carries the balance that the operation leaves. */
  lemma RowBalance(db: Db, op: Op)
    requires Appended(db, op).Some?
    ensures var r := Appended(db, op).value;
      && Apply(db, op).log == db.log + [r]
      && r.user in Apply(db, op).users && r.balanceAfter == Apply(db, op).users[r.user].beans
      && r.amount == r.balanceAfter - db.users[r.user].beans
  {
  }

  lemma ApplyKeepsUsers(db: Db, op: Op)
    ensures Apply(db, op).users.Keys == db.users.Keys
  {
  }
}
