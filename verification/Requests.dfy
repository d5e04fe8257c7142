/** Billing as the routes and the pipeline use it, and the exact condition under which their requests can take
    a user below the floor. */
module Requests {
  import opened Common
  import opened Ledger
  import opened LedgerRuns
  import opened Overspend
  import Pipeline

  /** A hold whose features are then set; the settlement of a run, with the features that the run read when it
      began; and the reset that comes before a re-run. */
  datatype Request =
    | Begin(user: int, imp: int, features: seq<string>)
    | Finish(user: int, imp: int, features: seq<string>, titleOk: bool, analysed: bool, images: nat)
    | Undo(user: int, imp: int)

  function HoldOf(r: Request): Op
    requires r.Begin?
  {
    Hold(r.user, HoldAmountFor(r.features), r.imp)
  }

  function CloseOf(r: Request): Op
    requires !r.Begin?
  {
    match r
    case Finish(u, i, features, titleOk, analysed, images) =>
      Pipeline.Settlement(u, i, features, titleOk, analysed, images)
    case Undo(u, i) => Reset(u, i)
  }

  /** A refused hold leaves the features alone. */
  function Serve(b: Books, r: Request): Books
  {
    if !r.Begin? then NextBooks(b, CloseOf(r))
    else if CanHold(b.db, r.user, HoldAmountFor(r.features), r.imp)
    then NextBooks(NextBooks(b, HoldOf(r)), SetFeatures(r.imp, r.features))
    else b
  }

  function ServeAll(b: Books, rs: seq<Request>): Books
    decreases |rs|
  {
    if rs == [] then b else ServeAll(Serve(b, rs[0]), rs[1..])
  }

  /** Holds are granted, on imports that exist; a run delivers what its features allow, ends an open hold that was
      taken for these features, and costs at most that hold; a reset ends an open hold by its amount, or
      finds none. */
  predicate Regular(owner: int -> int, b: Books, r: Request)
  {
    && owner(r.imp) == r.user
    && match r
       case Begin(u, i, features) => i in b.db.features && CanHold(b.db, u, HoldAmountFor(features), i)
       case Finish(u, i, features, titleOk, analysed, images) =>
         && Possible(features, titleOk, analysed, images) && Closes(b.db, CloseOf(r))
         && i in b.open && b.open[i].amount == HoldAmountFor(features)
         && Cost(analysed, images, titleOk) <= HoldAmountFor(features)
       case Undo(u, i) => EndsOwn(b, Reset(u, i))
  }

  predicate RegularRun(owner: int -> int, b: Books, rs: seq<Request>)
    decreases |rs|
  {
    rs != [] ==> Regular(owner, b, rs[0]) && RegularRun(owner, Serve(b, rs[0]), rs[1..])
  }

  ghost predicate SpendsBelow(owner: int -> int, b: Books, rs: seq<Request>, u: int)
  {
    && RegularRun(owner, b, rs)
    && u in ServeAll(b, rs).db.users && ServeAll(b, rs).db.users[u].Available() < BEANS_FLOOR
  }

  /** Some regular requests, or none, find or take the user below the floor. */
  ghost predicate CanOverspend(owner: int -> int, b: Books, u: int)
  {
    exists rs :: SpendsBelow(owner, b, rs, u)
  }

  // ----- without a gap nothing can go wrong -----

  ghost predicate Safe(b: Books, u: int)
  {
    u in b.db.users && Gap(b, u) <= 0 && b.db.users[u].Available() >= BEANS_FLOOR
  }

  lemma CloseKeepsSafe(owner: int -> int, b: Books, op: Op, u: int)
    requires BooksOk(owner, b) && Proper(owner, op) && Safe(b, u) && !op.Hold?
    requires EndsOwn(b, op) && UncoveredOf(b, op) == 0
    ensures Safe(NextBooks(b, op), u)
  {
    FrozenStep(owner, b, op, u);
    if Closes(b.db, op) && op.user == u {
      OpenAmounts(owner, b, u);
      BeansAfterClose(b, op);
    } else if op.Reset? {
      ChargeSumNonPositive(b.db.log, op.imp);
    }
  }

  lemma HoldKeepsSafe(owner: int -> int, b: Books, op: Op, u: int)
    requires BooksOk(owner, b) && Proper(owner, op) && Safe(b, u) && op.Hold?
    ensures Safe(NextBooks(b, op), u)
  {
    FrozenStep(owner, b, op, u);
  }

  lemma FeaturesKeepSafe(b: Books, i: int, features: seq<string>, u: int)
    requires Safe(b, u)
    ensures Safe(NextBooks(b, SetFeatures(i, features)), u)
  {
  }

  lemma ServeKeepsBooks(owner: int -> int, b: Books, r: Request)
    requires BooksOk(owner, b) && owner(r.imp) == r.user
    ensures BooksOk(owner, Serve(b, r))
  {
    if !r.Begin? {
      BooksOkStep(owner, b, CloseOf(r));
    } else if CanHold(b.db, r.user, HoldAmountFor(r.features), r.imp) {
      BooksOkStep(owner, b, HoldOf(r));
      BooksOkStep(owner, NextBooks(b, HoldOf(r)), SetFeatures(r.imp, r.features));
    }
  }

  lemma ServeKeepsSafe(owner: int -> int, b: Books, r: Request, u: int)
    requires BooksOk(owner, b) && Regular(owner, b, r) && Safe(b, u)
    ensures Safe(Serve(b, r), u)
  {
    if r.Begin? {
      HoldKeepsSafe(owner, b, HoldOf(r), u);
      FeaturesKeepSafe(NextBooks(b, HoldOf(r)), r.imp, r.features, u);
    } else {
      CloseKeepsSafe(owner, b, CloseOf(r), u);
    }
  }

  lemma {:induction false} RegularStaysSafe(owner: int -> int, b: Books, rs: seq<Request>, u: int)
    requires BooksOk(owner, b) && RegularRun(owner, b, rs) && Safe(b, u)
    ensures Safe(ServeAll(b, rs), u)
    decreases |rs|
  {
    if rs == [] {
    } else {
      ServeKeepsBooks(owner, b, rs[0]);
      ServeKeepsSafe(owner, b, rs[0], u);
      RegularStaysSafe(owner, Serve(b, rs[0]), rs[1..], u);
    }
  }

  // ----- with a gap: everything held is delivered -----

  /** The user's open holds are those of their imports' features. */
  ghost predicate Featured(b: Books, u: int)
  {
    forall i :: i in b.open && b.open[i].user == u ==>
      i in b.db.features && b.open[i].amount == HoldAmountFor(b.db.features[i])
  }

  /** Everything asked for is delivered, with nine images. */
  function Full(u: int, i: int, features: seq<string>): Request
  {
    var analysed := "image_gen" in features;
    Finish(u, i, features, "llm" in features, analysed, if analysed then HOLD_IMAGES - HOLD_MULTIMODAL else 0)
  }

  lemma FullFits(owner: int -> int, b: Books, u: int, i: int)
    requires BooksOk(owner, b) && u in b.db.users && Featured(b, u) && i in b.open && b.open[i].user == u
    ensures var r := Full(u, i, FeaturesOf(b.db, i));
      && Regular(owner, b, r) && BooksOk(owner, Serve(b, r)) && Featured(Serve(b, r), u)
      && u in Serve(b, r).db.users && Position(Serve(b, r), u) == Position(b, u)
      && Serve(b, r).open == b.open - {i}
  {
    var op := CloseOf(Full(u, i, FeaturesOf(b.db, i)));
    FrozenStep(owner, b, op, u);
    BooksOkStep(owner, b, op);
  }

  lemma Prepended(owner: int -> int, b: Books, r: Request, rest: seq<Request>, u: int)
    requires Regular(owner, b, r) && SpendsBelow(owner, Serve(b, r), rest, u)
    ensures SpendsBelow(owner, b, [r] + rest, u)
  {
    assert ([r] + rest)[1..] == rest;
  }

  /** Delivering every open hold in full leaves the position. */
  lemma {:induction false} FullDeliveries(owner: int -> int, b: Books, u: int)
    requires BooksOk(owner, b) && u in b.db.users && Featured(b, u) && Position(b, u) < BEANS_FLOOR
    ensures CanOverspend(owner, b, u)
    decreases |b.open|
  {
    var mine := OpenOf(b.open, u).Keys;
    if mine == {} {
      assert OpenOf(b.open, u) == map[];
      assert SumOpen(b.open, u) == 0;
      assert SpendsBelow(owner, b, [], u);
    } else {
      var i := Pick(mine);
      var r := Full(u, i, FeaturesOf(b.db, i));
      FullFits(owner, b, u, i);
      assert Serve(b, r).open.Keys == b.open.Keys - {i};
      FullDeliveries(owner, Serve(b, r), u);
      var rest :| SpendsBelow(owner, Serve(b, r), rest, u);
      Prepended(owner, b, r, rest, u);
    }
  }

  // ----- with a gap: title holds down to the floor -----

  /** Existing imports of the user that were never held. */
  predicate Spare(owner: int -> int, db: Db, u: int, imps: seq<int>)
  {
    && (forall k :: 0 <= k < |imps| ==> owner(imps[k]) == u && imps[k] in db.features && !HasHold(db.log, imps[k]))
    && (forall j, k :: 0 <= j < k < |imps| ==> imps[j] != imps[k])
  }

  function Title(u: int, i: int): Request { Begin(u, i, ["llm"]) }

  lemma SpareKept(owner: int -> int, b: Books, u: int, imps: seq<int>)
    requires imps != [] && Spare(owner, b.db, u, imps)
    ensures Spare(owner, Serve(b, Title(u, imps[0])).db, u, imps[1..])
  {
    forall k | 1 <= k < |imps|
      ensures !HasHold(Serve(b, Title(u, imps[0])).db.log, imps[k])
    {
      ProbesStep(b.db, HoldOf(Title(u, imps[0])), imps[k]);
    }
  }

  lemma FeaturedKept(owner: int -> int, b: Books, u: int, i: int)
    requires BooksOk(owner, b) && Featured(b, u) && i in b.db.features && !HasHold(b.db.log, i)
    ensures Featured(Serve(b, Title(u, i)), u)
  {
  }

  lemma OneMore(owner: int -> int, b: Books, u: int, i: int)
    requires BooksOk(owner, b) && u in b.db.users && owner(i) == u && i in b.db.features && !HasHold(b.db.log, i)
    requires b.db.users[u].Available() > BEANS_FLOOR
    ensures var b' := Serve(b, Title(u, i));
      && Regular(owner, b, Title(u, i)) && u in b'.db.users
      && b'.db.users[u].Available() == b.db.users[u].Available() - 1 && Gap(b', u) == Gap(b, u)
  {
    assert CanHold(b.db, u, COST_TITLE, i);
    FrozenStep(owner, b, HoldOf(Title(u, i)), u);
  }

  lemma {:induction false} TitlesThenDeliveries(owner: int -> int, b: Books, u: int, imps: seq<int>)
    requires BooksOk(owner, b) && u in b.db.users && Featured(b, u) && Spare(owner, b.db, u, imps)
    requires Gap(b, u) > 0 && b.db.users[u].Available() - BEANS_FLOOR <= |imps|
    ensures CanOverspend(owner, b, u)
    decreases |imps|
  {
    if Position(b, u) < BEANS_FLOOR {
      FullDeliveries(owner, b, u);
    } else {
      var r := Title(u, imps[0]);
      OneMore(owner, b, u, imps[0]);
      SpareKept(owner, b, u, imps);
      FeaturedKept(owner, b, u, imps[0]);
      ServeKeepsBooks(owner, b, r);
      TitlesThenDeliveries(owner, Serve(b, r), u, imps[1..]);
      var rest :| SpendsBelow(owner, Serve(b, r), rest, u);
      Prepended(owner, b, r, rest, u);
    }
  }

  // ----- exactly when -----

  /** With as many spare imports as there are beans of room, regular requests can take a user below the floor if
      and only if the frozen column holds back less than the open holds, or the user is there already. */
  lemma CanOverspendIff(owner: int -> int, b: Books, u: int, imps: seq<int>)
    requires BooksOk(owner, b) && u in b.db.users && Featured(b, u) && Spare(owner, b.db, u, imps)
    requires b.db.users[u].Available() - BEANS_FLOOR <= |imps|
    ensures CanOverspend(owner, b, u) <==> Gap(b, u) > 0 || b.db.users[u].Available() < BEANS_FLOOR
  {
    if b.db.users[u].Available() < BEANS_FLOOR {
      assert SpendsBelow(owner, b, [], u);
    } else if Gap(b, u) > 0 {
      TitlesThenDeliveries(owner, b, u, imps);
    } else {
      forall rs | SpendsBelow(owner, b, rs, u)
        ensures false
      {
        RegularStaysSafe(owner, b, rs, u);
      }
    }
  }

  /** From exact books, any close opens the way to an over-spend if and only if it takes from other holds, or
      is itself what takes the user below the floor; the latter never when its cost is covered. */
  lemma OverspendIff(owner: int -> int, b: Books, op: Op, imps: seq<int>)
    requires BooksOk(owner, b) && Exact(b) && Proper(owner, op) && Closes(b.db, op)
    requires var b' := NextBooks(b, op);
      && Featured(b', op.user) && Spare(owner, b'.db, op.user, imps)
      && b'.db.users[op.user].Available() - BEANS_FLOOR <= |imps|
    ensures var b' := NextBooks(b, op);
      CanOverspend(owner, b', op.user) <==>
        TakesOthers(b, op) || b'.db.users[op.user].Available() < BEANS_FLOOR
    ensures UncoveredOf(b, op) == 0 && b.db.users[op.user].Available() >= BEANS_FLOOR ==>
      (CanOverspend(owner, NextBooks(b, op), op.user) <==> TakesOthers(b, op))
  {
    BooksOkStep(owner, b, op);
    LowAfterClose(owner, b, op);
    CanOverspendIff(owner, NextBooks(b, op), op.user, imps);
  }

  // ----- a run that finishes after its import was held anew -----

  /** A run takes from other holds exactly when it began with dearer features than the hold it finds was taken
      for, and more is frozen than that hold. */
  lemma FinishTakesOthersIff(b: Books, r: Request)
    requires r.Finish? && Closes(b.db, CloseOf(r)) && r.imp in b.open
    ensures TakesOthers(b, CloseOf(r)) <==>
      HoldAmountFor(r.features) > b.open[r.imp].amount && b.db.users[r.user].frozen > b.open[r.imp].amount
  {
    OpenTakesOthersIff(b, CloseOf(r));
  }

  /** Up to nine images, the part of a run's cost that is not covered is what it has beyond the open hold. */
  lemma FinishUncovered(b: Books, r: Request)
    requires r.Finish? && Closes(b.db, CloseOf(r)) && r.imp in b.open
    requires Possible(r.features, r.titleOk, r.analysed, r.images) && r.images <= HOLD_IMAGES - HOLD_MULTIMODAL
    requires Cost(r.analysed, r.images, r.titleOk) > 0 && b.open[r.imp].amount > 0
    ensures UncoveredOf(b, CloseOf(r)) == Max(0, Cost(r.analysed, r.images, r.titleOk) - b.open[r.imp].amount)
  {
    Pipeline.CostWithinIff(r.features, r.titleOk, r.analysed, r.images);
  }
}
