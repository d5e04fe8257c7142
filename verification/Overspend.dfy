/** How far beans - frozen can fall, and when the frozen column really is the sum of open holds. */
module Overspend {
  import opened Common
  import opened Ledger
  import opened LedgerRuns

  /** The close takes more out of the frozen column than its own open hold put there: beans that other holds
      count on. */
  predicate TakesOthers(b: Books, op: Op) { Closes(b.db, op) && Taken(b, op) > OwnHold(b, op) }

  /** The close takes exactly its own open hold, nothing if it has none. */
  predicate TakesOwn(b: Books, op: Op) { Closes(b.db, op) ==> Taken(b, op) == OwnHold(b, op) }

  /** The close ends an open hold and names its amount. */
  predicate EndsOwn(b: Books, op: Op)
  {
    Closes(b.db, op) ==> op.imp in b.open && Asked(b.db, op) == b.open[op.imp].amount
  }

  /** A close that takes effect although its hold is already ended, and finds something to unfreeze. */
  predicate Unbacked(b: Books, op: Op)
  {
    && Closes(b.db, op) && op.imp !in b.open
    && Asked(b.db, op) > 0 && b.db.users[op.user].frozen > 0
  }

  function OverTaken(b: Books, op: Op): nat
  {
    if Closes(b.db, op) then Max(0, Taken(b, op) - OwnHold(b, op)) else 0
  }

  /** The part of a settled cost beyond the import's own open hold or beyond the amount the settle names. */
  function UncoveredOf(b: Books, op: Op): nat
  {
    if op.Settle? && Closes(b.db, op) then
      Max(0, Cost(op.multimodalOk, op.images, op.titleOk) - Min(OwnHold(b, op), Asked(b.db, op)))
    else 0
  }

  function OverTakenTotal(b: Books, ops: seq<Op>, u: int): nat
    decreases |ops|
  {
    if ops == [] then 0
    else (if Closes(b.db, ops[0]) && ops[0].user == u then OverTaken(b, ops[0]) else 0)
         + OverTakenTotal(NextBooks(b, ops[0]), ops[1..], u)
  }

  function UncoveredTotal(b: Books, ops: seq<Op>, u: int): nat
    decreases |ops|
  {
    if ops == [] then 0
    else (if Closes(b.db, ops[0]) && ops[0].user == u then UncoveredOf(b, ops[0]) else 0)
         + UncoveredTotal(NextBooks(b, ops[0]), ops[1..], u)
  }

  // ----- the same, at every step of a run -----

  predicate TakesOwnAlong(b: Books, ops: seq<Op>)
    decreases |ops|
  {
    ops != [] ==> TakesOwn(b, ops[0]) && TakesOwnAlong(NextBooks(b, ops[0]), ops[1..])
  }

  predicate NeverTakesOthers(b: Books, ops: seq<Op>)
    decreases |ops|
  {
    ops != [] ==> !TakesOthers(b, ops[0]) && NeverTakesOthers(NextBooks(b, ops[0]), ops[1..])
  }

  /** Each hold is ended once, by a close that names its amount. */
  predicate EndsOwnAlong(b: Books, ops: seq<Op>)
    decreases |ops|
  {
    ops != [] ==> EndsOwn(b, ops[0]) && EndsOwnAlong(NextBooks(b, ops[0]), ops[1..])
  }

  predicate CostsCovered(b: Books, ops: seq<Op>)
    decreases |ops|
  {
    ops != [] ==> UncoveredOf(b, ops[0]) == 0 && CostsCovered(NextBooks(b, ops[0]), ops[1..])
  }

  /** No close names less than its own open hold. */
  predicate NoneShort(b: Books, ops: seq<Op>)
    decreases |ops|
  {
    ops != [] ==>
      && (Closes(b.db, ops[0]) ==> Asked(b.db, ops[0]) >= OwnHold(b, ops[0]))
      && NoneShort(NextBooks(b, ops[0]), ops[1..])
  }

  ghost predicate Exact(b: Books)
  {
    forall u :: u in b.db.users ==> b.db.users[u].frozen == SumOpen(b.open, u)
  }

  ghost predicate ExactAlong(b: Books, ops: seq<Op>)
    decreases |ops|
  {
    Exact(b) && (ops != [] ==> ExactAlong(NextBooks(b, ops[0]), ops[1..]))
  }

  ghost predicate Bounded(b: Books)
  {
    forall u :: u in b.db.users ==> b.db.users[u].frozen <= SumOpen(b.open, u)
  }

  // ===== Frozen accounting =====

  lemma BoundedStep(owner: int -> int, b: Books, op: Op)
    requires BooksOk(owner, b) && Proper(owner, op) && Bounded(b)
    requires Closes(b.db, op) ==> Asked(b.db, op) >= OwnHold(b, op)
    ensures Bounded(NextBooks(b, op))
  {
    var b' := NextBooks(b, op);
    ApplyKeepsUsers(b.db, op);
    BooksOkStep(owner, b, op);
    forall u | u in b'.db.users
      ensures b'.db.users[u].frozen <= SumOpen(b'.open, u)
    {
      FrozenStep(owner, b, op, u);
      OpenAmounts(owner, b', u);
    }
  }

  /** 0 <= frozen <= sum of open holds at the end of every run whose closes name at least the amount that
      was held, however often they close. */
  lemma {:induction false} FrozenBounded(owner: int -> int, b: Books, ops: seq<Op>)
    requires BooksOk(owner, b) && AllProper(owner, ops) && Bounded(b) && NoneShort(b, ops)
    ensures BooksOk(owner, RunBooks(b, ops)) && Bounded(RunBooks(b, ops))
    decreases |ops|
  {
    if ops == [] {
    } else {
      BooksOkStep(owner, b, ops[0]);
      BoundedStep(owner, b, ops[0]);
      FrozenBounded(owner, NextBooks(b, ops[0]), ops[1..]);
    }
  }

  /** From exact books, a step leaves exact books if and only if it takes exactly its own open hold. */
  lemma ExactStep(owner: int -> int, b: Books, op: Op)
    requires BooksOk(owner, b) && Proper(owner, op) && Exact(b)
    ensures Exact(NextBooks(b, op)) <==> TakesOwn(b, op)
  {
    var b' := NextBooks(b, op);
    ApplyKeepsUsers(b.db, op);
    forall u | u in b.db.users
      ensures b'.db.users[u].frozen == SumOpen(b'.open, u) <==> TakesOwn(b, op) || op.user != u
    {
      FrozenStep(owner, b, op, u);
    }
    if !TakesOwn(b, op) {
      assert op.user in b'.db.users;
    }
  }

  /** With exact books, ending one's own hold by its amount is taking exactly that hold. */
  lemma EndsOwnTakesOwn(owner: int -> int, b: Books, op: Op)
    requires BooksOk(owner, b) && Owned(owner, op) && Exact(b) && EndsOwn(b, op)
    ensures TakesOwn(b, op)
  {
    if Closes(b.db, op) {
      OpenAmounts(owner, b, op.user);
    }
  }

  /** frozen equals the sum of open holds at every state of a run exactly when each close takes exactly its
      own open hold; so it does when each hold is ended once by a close that names its amount. */
  lemma {:induction false} FrozenExact(owner: int -> int, b: Books, ops: seq<Op>)
    requires BooksOk(owner, b) && AllProper(owner, ops) && Exact(b)
    ensures ExactAlong(b, ops) <==> TakesOwnAlong(b, ops)
    ensures EndsOwnAlong(b, ops) ==> TakesOwnAlong(b, ops)
    decreases |ops|
  {
    if ops == [] {
    } else {
      var b' := NextBooks(b, ops[0]);
      ExactStep(owner, b, ops[0]);
      BooksOkStep(owner, b, ops[0]);
      if EndsOwn(b, ops[0]) {
        EndsOwnTakesOwn(owner, b, ops[0]);
      }
      if Exact(b') {
        FrozenExact(owner, b', ops[1..]);
      }
    }
  }

  // ===== Over-spending =====

  /** Balance once every open hold has been charged in full. */
  ghost function Position(b: Books, u: int): int
    requires u in b.db.users
  {
    b.db.users[u].beans - SumOpen(b.open, u)
  }

  /** Beans of open holds that the frozen column no longer holds back. */
  ghost function Gap(b: Books, u: int): int
    requires u in b.db.users
  {
    SumOpen(b.open, u) - b.db.users[u].frozen
  }

  /** The lower of what is available and what will be left once every open hold has been charged. */
  ghost function Low(b: Books, u: int): int
    requires u in b.db.users
  {
    Min(Position(b, u), b.db.users[u].Available())
  }

  lemma {:induction false} ChargeSumNonPositive(log: seq<Row>, i: int)
    ensures ChargeSum(log, i) <= 0
    ensures !HasCharge(log, i) ==> ChargeSum(log, i) == 0
    decreases |log|
  {
    if log == [] {
    } else {
      var front := log[..|log| - 1];
      ChargeSumNonPositive(front, i);
    }
  }

  /** What a close does to the beans. */
  lemma BeansAfterClose(b: Books, op: Op)
    requires Closes(b.db, op)
    ensures var before, after := b.db.users[op.user].beans, NextBooks(b, op).db.users[op.user].beans;
      && (op.Settle? ==> after == before - Cost(op.multimodalOk, op.images, op.titleOk))
      && (op.Release? ==> after == before)
      && (op.Reset? ==> after >= before && (!HasCharge(b.db.log, op.imp) ==> after == before))
  {
    if op.Reset? {
      ChargeSumNonPositive(b.db.log, op.imp);
    }
  }

  lemma LowAfterClose(owner: int -> int, b: Books, op: Op)
    requires BooksOk(owner, b) && Proper(owner, op) && Closes(b.db, op)
    ensures var b' := NextBooks(b, op);
      && op.user in b'.db.users
      && Low(b', op.user) >= Low(b, op.user) - UncoveredOf(b, op)
      && Gap(b', op.user) == Gap(b, op.user) + Taken(b, op) - OwnHold(b, op)
  {
    FrozenStep(owner, b, op, op.user);
    BooksOkStep(owner, b, op);
    BeansAfterClose(b, op);
    OpenAmounts(owner, NextBooks(b, op), op.user);
  }

  lemma LowAfterOther(owner: int -> int, b: Books, op: Op, u: int)
    requires BooksOk(owner, b) && Proper(owner, op) && u in b.db.users && !(Closes(b.db, op) && op.user == u)
    ensures var b' := NextBooks(b, op);
      && u in b'.db.users
      && Low(b', u) >= Min(Low(b, u), BEANS_FLOOR - Max(0, Gap(b, u)))
      && Gap(b', u) == Gap(b, u)
  {
    FrozenStep(owner, b, op, u);
    if op.Reset? {
      ChargeSumNonPositive(b.db.log, op.imp);
    }
  }

  /** On every run, the available balance stays above the floor up to the costs that were not covered and the
      beans that closes took from other holds. */
  lemma {:induction false} OverspendBound(owner: int -> int, b: Books, ops: seq<Op>, u: int)
    requires BooksOk(owner, b) && AllProper(owner, ops) && u in b.db.users
    ensures var e := RunBooks(b, ops);
      && u in e.db.users
      && e.db.users[u].Available() >= Low(e, u)
      && Low(e, u) >= Min(Low(b, u), BEANS_FLOOR - Max(0, Gap(b, u)))
                      - UncoveredTotal(b, ops, u) - OverTakenTotal(b, ops, u)
    decreases |ops|
  {
    if ops == [] {
    } else {
      var op, b' := ops[0], NextBooks(b, ops[0]);
      BooksOkStep(owner, b, op);
      if Closes(b.db, op) && op.user == u {
        LowAfterClose(owner, b, op);
      } else {
        LowAfterOther(owner, b, op, u);
      }
      OverspendBound(owner, b', ops[1..], u);
    }
  }

  lemma {:induction false} CleanTotals(b: Books, ops: seq<Op>, u: int)
    ensures NeverTakesOthers(b, ops) ==> OverTakenTotal(b, ops, u) == 0
    ensures CostsCovered(b, ops) ==> UncoveredTotal(b, ops, u) == 0
    ensures TakesOwnAlong(b, ops) ==> NeverTakesOthers(b, ops)
    decreases |ops|
  {
    if ops == [] {
    } else {
      CleanTotals(NextBooks(b, ops[0]), ops[1..], u);
    }
  }

  /** The documented claim: when no close takes from other holds and every cost is covered, no user falls below
      the floor. Ending each hold once by its own amount is enough for the first. */
  lemma NoOverspend(owner: int -> int, b: Books, ops: seq<Op>, u: int)
    requires BooksOk(owner, b) && Exact(b) && AllProper(owner, ops)
    requires u in b.db.users && b.db.users[u].Available() >= BEANS_FLOOR
    requires NeverTakesOthers(b, ops) || EndsOwnAlong(b, ops)
    ensures u in RunBooks(b, ops).db.users
    ensures RunBooks(b, ops).db.users[u].Available() >= BEANS_FLOOR - UncoveredTotal(b, ops, u)
    ensures CostsCovered(b, ops) ==> RunBooks(b, ops).db.users[u].Available() >= BEANS_FLOOR
  {
    OverspendBound(owner, b, ops, u);
    FrozenExact(owner, b, ops);
    CleanTotals(b, ops, u);
  }

  /** A close whose hold is already ended takes from other holds exactly when it is unbacked. */
  lemma EndedTakesOthersIff(b: Books, op: Op)
    requires Closes(b.db, op) && op.imp !in b.open
    ensures TakesOthers(b, op) <==> Unbacked(b, op)
  {
  }

  /** A close of an open hold takes from other holds exactly when it names more than that hold, and more is
      frozen. */
  lemma OpenTakesOthersIff(b: Books, op: Op)
    requires Closes(b.db, op) && op.imp in b.open
    ensures TakesOthers(b, op) <==>
      Asked(b.db, op) > b.open[op.imp].amount && b.db.users[op.user].frozen > b.open[op.imp].amount
  {
  }
}
