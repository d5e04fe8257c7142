/** Repeated runs of one import: each request resets the import, holds, and runs. Other imports go on between
    any two of these steps. */
module Reruns {
  import opened Common
  import opened Ledger
  import opened Pipeline

  /** What came out of a run that reached settlement; None for a run that returned early. */
  datatype Delivery = Delivery(titleOk: bool, analysed: bool, images: nat)

  /** One request to run an import, with the billing operations of other imports before it, between its reset
      and its hold, and between its hold and its settlement. */
  datatype Cycle = Cycle(before: seq<Op>, between: seq<Op>, during: seq<Op>, features: seq<string>,
                         delivery: Option<Delivery>)

  function CostOf(d: Delivery): nat { One(d.titleOk) + One(d.analysed) + d.images }

  function SettlementOf(user: int, i: int, features: seq<string>, d: Delivery): Op
  {
    Settlement(user, i, features, d.titleOk, d.analysed, d.images)
  }

  /** The ledger when the hold is asked for. */
  function Requested(db: Db, user: int, i: int, c: Cycle): Db
  {
    Run(Apply(Run(db, c.before), Reset(user, i)), c.between)
  }

  predicate Granted(db: Db, user: int, i: int, c: Cycle)
  {
    CanHold(Requested(db, user, i, c), user, HoldAmountFor(c.features), i)
  }

  /** The ledger once the features are set and the job can be enqueued. */
  function Started(db: Db, user: int, i: int, c: Cycle): Db
  {
    Apply(Apply(Requested(db, user, i, c), Hold(user, HoldAmountFor(c.features), i)), SetFeatures(i, c.features))
  }

  /** Reset, hold (or refusal), set the features, run. */
  function RunCycle(db: Db, user: int, i: int, c: Cycle): Db
  {
    if !Granted(db, user, i, c) then Requested(db, user, i, c)
    else
      var started := Started(db, user, i, c);
      var ready := Run(started, c.during);
      match c.delivery
      case None => ready
      case Some(d) => Apply(ready, SettlementOf(user, i, FeaturesOf(started, i), d))
  }

  function RunCycles(db: Db, user: int, i: int, cycles: seq<Cycle>): Db
  {
    if cycles == [] then db
    else RunCycle(RunCycles(db, user, i, cycles[..|cycles| - 1]), user, i, cycles[|cycles| - 1])
  }

  function ChargeOf(db: Db, user: int, i: int, c: Cycle): nat
  {
    if Granted(db, user, i, c) && c.delivery.Some? then CostOf(c.delivery.value) else 0
  }

  // ----- other imports -----

  predicate AllElsewhere(ops: seq<Op>, i: int) { forall k :: 0 <= k < |ops| ==> ImportOf(ops[k]) != Some(i) }

  predicate OthersElsewhere(c: Cycle, i: int)
  {
    AllElsewhere(c.before, i) && AllElsewhere(c.between, i) && AllElsewhere(c.during, i)
  }

  /** The rows of an import look the same in both logs. */
  predicate SameProbes(a: seq<Row>, b: seq<Row>, i: int)
  {
    && HasHold(a, i) == HasHold(b, i) && HasCharge(a, i) == HasCharge(b, i)
    && HasNonZero(a, i) == HasNonZero(b, i) && ChargeSum(a, i) == ChargeSum(b, i)
  }

  lemma {:induction false} ElsewhereKeeps(db: Db, ops: seq<Op>, i: int)
    requires AllElsewhere(ops, i)
    ensures Run(db, ops).users.Keys == db.users.Keys
    ensures SameProbes(Run(db, ops).log, db.log, i)
    decreases |ops|
  {
    if ops == [] {
    } else {
      ApplyKeepsUsers(db, ops[0]);
      OtherImport(db, ops[0], i);
      ElsewhereKeeps(Apply(db, ops[0]), ops[1..], i);
    }
  }

  // ----- one cycle -----

  /** After a reset the import has no rows, and its charges are back in the balance. */
  lemma ResetClears(db: Db, user: int, i: int)
    requires user in db.users
    ensures var db' := Apply(db, Reset(user, i));
      && db'.users.Keys == db.users.Keys && SameProbes(db'.log, [], i)
      && db'.users[user].beans == db.users[user].beans - ChargeSum(db.log, i)
  {
    ProbesStep(db, Reset(user, i), i);
  }

  lemma RequestedClean(db: Db, user: int, i: int, c: Cycle)
    requires user in db.users && OthersElsewhere(c, i)
    ensures var requested := Requested(db, user, i, c);
      requested.users.Keys == db.users.Keys && SameProbes(requested.log, [], i)
  {
    ElsewhereKeeps(db, c.before, i);
    ResetClears(Run(db, c.before), user, i);
    ElsewhereKeeps(Apply(Run(db, c.before), Reset(user, i)), c.between, i);
  }

  /** From hold to settlement there is one open hold and no charge. */
  lemma ReadyOpen(db: Db, user: int, i: int, c: Cycle)
    requires user in db.users && OthersElsewhere(c, i) && Granted(db, user, i, c)
    ensures var ready := Run(Started(db, user, i, c), c.during);
      && ready.users.Keys == db.users.Keys
      && OpenUncharged(ready, user, i) && ChargeSum(ready.log, i) == 0
  {
    RequestedClean(db, user, i, c);
    ProbesStep(Requested(db, user, i, c), Hold(user, HoldAmountFor(c.features), i), i);
    ElsewhereKeeps(Started(db, user, i, c), c.during, i);
  }

  /** A cycle leaves exactly its own charge on the import. */
  lemma OneCycle(db: Db, user: int, i: int, c: Cycle)
    requires user in db.users && OthersElsewhere(c, i)
    ensures RunCycle(db, user, i, c).users.Keys == db.users.Keys
    ensures ChargeSum(RunCycle(db, user, i, c).log, i) == 0 - ChargeOf(db, user, i, c)
  {
    RequestedClean(db, user, i, c);
    if Granted(db, user, i, c) {
      ReadyOpen(db, user, i, c);
      match c.delivery {
        case None =>
        case Some(d) =>
          var started := Started(db, user, i, c);
          var ready, fs := Run(started, c.during), FeaturesOf(started, i);
          ChargeEqualsDelivery(ready, user, i, fs, d.titleOk, d.analysed, d.images);
          ApplyKeepsUsers(ready, SettlementOf(user, i, fs, d));
      }
    }
  }

  /** A granted request sets the features it asked for, so that the run reads them and closes the hold by its
      amount: alone, a run that reaches settlement leaves the frozen column as the reset had left it. */
  lemma SettlesByRequest(db: Db, user: int, i: int, c: Cycle)
    requires user in db.users && i in db.features && Alone(c) && Granted(db, user, i, c) && c.delivery.Some?
    requires Apply(db, Reset(user, i)).users[user].frozen >= 0
    ensures FeaturesOf(Started(db, user, i, c), i) == c.features
    ensures RunCycle(db, user, i, c).users[user].frozen == Apply(db, Reset(user, i)).users[user].frozen
  {
    var d, started := c.delivery.value, Started(db, user, i, c);
    ResetClears(db, user, i);
    ReadyOpen(db, user, i, c);
    ChargeEqualsDelivery(started, user, i, FeaturesOf(started, i), d.titleOk, d.analysed, d.images);
  }

  // ----- any number of cycles -----

  lemma {:induction false} CyclesKeepUsers(db: Db, user: int, i: int, cycles: seq<Cycle>)
    requires user in db.users
    requires forall k :: 0 <= k < |cycles| ==> OthersElsewhere(cycles[k], i)
    ensures RunCycles(db, user, i, cycles).users.Keys == db.users.Keys
    decreases |cycles|
  {
    if cycles == [] {
    } else {
      var earlier, last := cycles[..|cycles| - 1], cycles[|cycles| - 1];
      CyclesKeepUsers(db, user, i, earlier);
      OneCycle(RunCycles(db, user, i, earlier), user, i, last);
    }
  }

  /** After any number of cycles on one import, whatever other imports did at any moment, its net charge is
      what the last cycle delivered. */
  lemma LastCycleOnly(db: Db, user: int, i: int, earlier: seq<Cycle>, last: Cycle)
    requires user in db.users
    requires forall k :: 0 <= k < |earlier| ==> OthersElsewhere(earlier[k], i)
    requires OthersElsewhere(last, i)
    ensures ChargeSum(RunCycles(db, user, i, earlier + [last]).log, i) ==
            0 - ChargeOf(RunCycles(db, user, i, earlier), user, i, last)
  {
    assert (earlier + [last])[..|earlier|] == earlier;
    CyclesKeepUsers(db, user, i, earlier);
    OneCycle(RunCycles(db, user, i, earlier), user, i, last);
  }

  // ----- the balance, with nothing in between -----

  predicate Alone(c: Cycle) { c.before == [] && c.between == [] && c.during == [] }

  lemma AloneBalance(db: Db, user: int, i: int, c: Cycle)
    requires user in db.users && Alone(c)
    ensures var db' := RunCycle(db, user, i, c);
      && user in db'.users
      && db'.users[user].beans - ChargeSum(db'.log, i) == db.users[user].beans - ChargeSum(db.log, i)
  {
    ResetClears(db, user, i);
    OneCycle(db, user, i, c);
    if Granted(db, user, i, c) && c.delivery.Some? {
      var d, started := c.delivery.value, Started(db, user, i, c);
      ReadyOpen(db, user, i, c);
      ChargeEqualsDelivery(started, user, i, FeaturesOf(started, i), d.titleOk, d.analysed, d.images);
    }
  }

  /** With nothing in between, the balance is the first one with the old charges refunded and the last
      cycle's charge taken. */
  lemma {:induction false} BalanceAfterCycles(db: Db, user: int, i: int, cycles: seq<Cycle>)
    requires user in db.users
    requires forall k :: 0 <= k < |cycles| ==> Alone(cycles[k])
    ensures var db' := RunCycles(db, user, i, cycles);
      && user in db'.users
      && db'.users[user].beans - ChargeSum(db'.log, i) == db.users[user].beans - ChargeSum(db.log, i)
    decreases |cycles|
  {
    if cycles == [] {
    } else {
      var earlier := cycles[..|cycles| - 1];
      BalanceAfterCycles(db, user, i, earlier);
      AloneBalance(RunCycles(db, user, i, earlier), user, i, cycles[|cycles| - 1]);
    }
  }

  // ----- a request while the previous run is still active -----

  lemma SettlesOnce(db: Db, user: int, i: int, features: seq<string>, d: Delivery)
    requires HasCharge(db.log, i) && HasNonZero(db.log, i)
    ensures Apply(db, SettlementOf(user, i, features, d)) == db
  {
  }

  /** A re-run is granted while an earlier run of the import has not settled. If that run then delivers
      anything, it settles the new hold, and no later settlement of the import changes the ledger: the re-run
      itself is free. It unfreezes what its own features cost; with other beans frozen, that is the new hold
      exactly when both runs' features cost the same. */
  lemma EarlierRunTakesHold(db: Db, user: int, i: int, c: Cycle, first: Delivery, firstFeatures: seq<string>,
                            later: Delivery, features: seq<string>)
    requires user in db.users && OthersElsewhere(c, i) && Granted(db, user, i, c) && CostOf(first) > 0
    ensures var ready := Run(Started(db, user, i, c), c.during);
      var taken := Apply(ready, SettlementOf(user, i, firstFeatures, first));
      && ChargeSum(taken.log, i) == 0 - CostOf(first)
      && Apply(taken, SettlementOf(user, i, features, later)) == taken
      && user in ready.users && user in taken.users
      && var frozen := ready.users[user].frozen;
      && frozen - taken.users[user].frozen == Min(HoldAmountFor(firstFeatures), frozen)
      && (frozen > HoldAmountFor(c.features) ==>
            (frozen - taken.users[user].frozen == HoldAmountFor(c.features) <==>
             HoldAmountFor(firstFeatures) == HoldAmountFor(c.features)))
  {
    var ready := Run(Started(db, user, i, c), c.during);
    var op := SettlementOf(user, i, firstFeatures, first);
    ReadyOpen(db, user, i, c);
    ChargeEqualsDelivery(ready, user, i, firstFeatures, first.titleOk, first.analysed, first.images);
    ChargeIsNonZero(ready.log, i);
    ProbesStep(ready, op, i);
    ChargeIsNonZero(Apply(ready, op).log, i);
    SettlesOnce(Apply(ready, op), user, i, features, later);
  }
}
