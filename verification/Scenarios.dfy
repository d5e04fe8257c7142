/** Literal runs of ordinary requests that end below the floor, followed on a small picture of the ledger. */
module Scenarios {
  import opened Common
  import opened Ledger
  import opened LedgerRuns
  import opened Overspend
  import opened Requests

  datatype Mark = Untouched | Held(amount: int) | Charged(cost: nat)

  /** What the ledger says of one import. */
  datatype Cell = Cell(mark: Mark, features: seq<string>)

  /** User 1, alone, with imports 0, 1 and 2. */
  datatype Picture = Picture(a: Account, c0: Cell, c1: Cell, c2: Cell)
  {
    function At(i: int): Cell { if i == 0 then c0 else if i == 1 then c1 else c2 }

    function Put(a: Account, i: int, c: Cell): Picture
    {
      Picture(a, if i == 0 then c else c0, if i == 1 then c else c1, if i == 0 || i == 1 then c2 else c)
    }
  }

  ghost predicate Stands(b: Books, i: int, c: Cell)
  {
    && HasHold(b.db.log, i) == !c.mark.Untouched? && HasCharge(b.db.log, i) == c.mark.Charged?
    && ChargeSum(b.db.log, i) == (if c.mark.Charged? then 0 - c.mark.cost else 0)
    && (i in b.open <==> c.mark.Held?) && (c.mark.Held? ==> b.open[i] == OpenHold(1, c.mark.amount))
    && i in b.db.features && b.db.features[i] == c.features
  }

  ghost predicate Shows(b: Books, p: Picture)
  {
    b.db.users == map[1 := p.a] && forall i :: 0 <= i < 3 ==> Stands(b, i, p.At(i))
  }

  function CostOf(r: Request): nat
    requires r.Finish?
  {
    Cost(r.analysed, r.images, r.titleOk)
  }

  /** Holds are granted, and runs deliver what their features allow on an open hold that covers the cost; with
      `once`, resets too end open holds, so that each hold is ended once. */
  predicate Plain(b: Books, r: Request, once: bool)
  {
    match r
    case Begin(u, i, features) => i in b.db.features && CanHold(b.db, u, HoldAmountFor(features), i)
    case Finish(u, i, features, titleOk, analysed, images) =>
      && Possible(features, titleOk, analysed, images) && Closes(b.db, CloseOf(r)) && i in b.open
      && CostOf(r) <= b.open[i].amount && UncoveredOf(b, CloseOf(r)) == 0
    case Undo(_, i) => once ==> i in b.open
  }

  predicate PlainRun(b: Books, rs: seq<Request>, once: bool)
    decreases |rs|
  {
    rs != [] ==> Plain(b, rs[0], once) && PlainRun(Serve(b, rs[0]), rs[1..], once)
  }

  // ----- requests on the picture -----

  predicate Legal(p: Picture, r: Request, once: bool)
  {
    && r.user == 1 && 0 <= r.imp < 3
    && match r
       case Begin(_, i, features) =>
         && p.At(i).mark.Untouched? && HoldAmountFor(features) > 0
         && p.a.Available() - HoldAmountFor(features) >= BEANS_FLOOR
       case Finish(_, i, features, titleOk, analysed, images) =>
         && Possible(features, titleOk, analysed, images)
         && p.At(i).mark.Held? && 0 < CostOf(r) <= Min(p.At(i).mark.amount, HoldAmountFor(features))
       case Undo(_, i) => once ==> p.At(i).mark.Held?
  }

  function Next(p: Picture, r: Request): Picture
  {
    var c := p.At(r.imp);
    match r
    case Begin(_, i, features) =>
      var h := HoldAmountFor(features);
      p.Put(p.a.(frozen := p.a.frozen + h), i, Cell(Held(h), features))
    case Finish(_, i, features, _, _, _) =>
      p.Put(Account(p.a.beans - CostOf(r), p.a.frozen - Min(HoldAmountFor(features), p.a.frozen)), i,
            c.(mark := Charged(CostOf(r))))
    case Undo(_, i) =>
      p.Put(Account(p.a.beans + (if c.mark.Charged? then c.mark.cost else 0),
                    if c.mark.Untouched? then p.a.frozen else Max(0, p.a.frozen - HoldAmountFor(c.features))), i,
            c.(mark := Untouched))
  }

  /** These requests, each legal in its turn, lead from one picture to the other. */
  predicate Leads(p: Picture, rs: seq<Request>, last: Picture, once: bool)
    decreases |rs|
  {
    if rs == [] then p == last else Legal(p, rs[0], once) && Leads(Next(p, rs[0]), rs[1..], last, once)
  }

  lemma OtherCells(b: Books, op: Op, i: int, c: Cell)
    requires Stands(b, i, c) && (op.Hold? || op.Settle? || op.Reset? || op.SetFeatures?) && op.imp != i
    ensures Stands(NextBooks(b, op), i, c)
  {
    ProbesStep(b.db, op, i);
  }

  lemma OwnCell(b: Books, r: Request, c: Cell)
    requires r.Begin? && r.user == 1 && Stands(b, r.imp, c) && c.mark.Untouched?
    requires CanHold(b.db, 1, HoldAmountFor(r.features), r.imp)
    ensures Stands(Serve(b, r), r.imp, Cell(Held(HoldAmountFor(r.features)), r.features))
  {
    ProbesStep(b.db, HoldOf(r), r.imp);
  }

  lemma BeginShows(b: Books, p: Picture, r: Request, once: bool)
    requires Shows(b, p) && Legal(p, r, once) && r.Begin?
    ensures Plain(b, r, once) && Shows(Serve(b, r), Next(p, r))
  {
    assert Stands(b, r.imp, p.At(r.imp));
    var c := p.At(r.imp);
    assert CanHold(b.db, 1, HoldAmountFor(r.features), r.imp);
    OwnCell(b, r, c);
    forall i | 0 <= i < 3
      ensures Stands(Serve(b, r), i, Next(p, r).At(i))
    {
      if i != r.imp {
        OtherCells(b, HoldOf(r), i, p.At(i));
        OtherCells(NextBooks(b, HoldOf(r)), SetFeatures(r.imp, r.features), i, p.At(i));
      }
    }
  }

  lemma FinishedCell(b: Books, r: Request, c: Cell)
    requires r.Finish? && r.user == 1 && Stands(b, r.imp, c) && c.mark.Held? && CostOf(r) > 0 && 1 in b.db.users
    ensures Stands(Serve(b, r), r.imp, c.(mark := Charged(CostOf(r))))
  {
    ProbesStep(b.db, CloseOf(r), r.imp);
  }

  lemma UndoneCell(b: Books, r: Request, c: Cell)
    requires r.Undo? && r.user == 1 && Stands(b, r.imp, c) && 1 in b.db.users
    ensures Stands(Serve(b, r), r.imp, c.(mark := Untouched))
  {
    ProbesStep(b.db, CloseOf(r), r.imp);
  }

  lemma CloseAccount(b: Books, p: Picture, r: Request, c: Cell, once: bool)
    requires b.db.users == map[1 := p.a] && Legal(p, r, once) && !r.Begin? && Stands(b, r.imp, c) && c == p.At(r.imp)
    ensures Plain(b, r, once) && Serve(b, r).db.users == map[1 := Next(p, r).a]
  {
  }

  lemma CloseShows(b: Books, p: Picture, r: Request, once: bool)
    requires Shows(b, p) && Legal(p, r, once) && !r.Begin?
    ensures Plain(b, r, once) && Shows(Serve(b, r), Next(p, r))
  {
    var c := p.At(r.imp);
    assert Stands(b, r.imp, c);
    CloseAccount(b, p, r, c, once);
    var c' := Next(p, r).At(r.imp);
    assert Stands(Serve(b, r), r.imp, c') by {
      if r.Finish? {
        FinishedCell(b, r, c);
      } else {
        UndoneCell(b, r, c);
      }
    }
    forall i | 0 <= i < 3 && i != r.imp
      ensures Stands(Serve(b, r), i, Next(p, r).At(i))
    {
      assert Stands(b, i, p.At(i)) && Next(p, r).At(i) == p.At(i);
      OtherCells(b, CloseOf(r), i, p.At(i));
    }
  }

  lemma {:induction false} LeadsShows(b: Books, p: Picture, rs: seq<Request>, last: Picture, once: bool)
    requires Shows(b, p) && Leads(p, rs, last, once)
    ensures PlainRun(b, rs, once) && Shows(ServeAll(b, rs), last)
    decreases |rs|
  {
    if rs == [] {
    } else {
      if rs[0].Begin? {
        BeginShows(b, p, rs[0], once);
      } else {
        CloseShows(b, p, rs[0], once);
      }
      LeadsShows(Serve(b, rs[0]), Next(p, rs[0]), rs[1..], last, once);
    }
  }

  lemma LeadsBy(p: Picture, r: Request, next: Picture, rest: seq<Request>, last: Picture, once: bool)
    requires Legal(p, r, once) && next == Next(p, r) && Leads(next, rest, last, once)
    ensures Leads(p, [r] + rest, last, once)
  {
    assert ([r] + rest)[1..] == rest;
  }

  lemma BeginLeads(p: Picture, i: int, features: seq<string>, h: int, rest: seq<Request>, last: Picture,
                   once: bool)
    requires 0 <= i < 3 && p.At(i).mark.Untouched? && h == HoldAmountFor(features) > 0
    requires p.a.Available() - h >= BEANS_FLOOR
    requires Leads(p.Put(p.a.(frozen := p.a.frozen + h), i, Cell(Held(h), features)), rest, last, once)
    ensures Leads(p, [Begin(1, i, features)] + rest, last, once)
  {
    LeadsBy(p, Begin(1, i, features), Next(p, Begin(1, i, features)), rest, last, once);
  }

  // ----- the two runs -----

  const LLM: seq<string> := ["llm"]
  const IMAGES: seq<string> := ["image_gen"]
  const BOTH: seq<string> := ["llm", "image_gen"]

  lemma Amounts()
    ensures HoldAmountFor(LLM) == 1 && HoldAmountFor(IMAGES) == 10 && HoldAmountFor(BOTH) == 11
    ensures "llm" in LLM && "image_gen" in IMAGES && "llm" in BOTH && "image_gen" in BOTH
  {
    assert |"llm"| == 3 && |"image_gen"| == 9;
    assert BOTH[0] == "llm" && BOTH[1] == "image_gen";
  }

  function Three(beans: int, frozen: int, m0: Mark, f0: seq<string>, m1: Mark, f1: seq<string>, m2: Mark,
                 f2: seq<string>): Picture
  {
    Picture(Account(beans, frozen), Cell(m0, f0), Cell(m1, f1), Cell(m2, f2))
  }

  const TITLE_0: Request := Finish(1, 0, LLM, true, false, 0)

  /** Import 0 is run and settled, and 1 is held. Then 0 is reset and held again, and 2 is held; all three are
      delivered in full. */
  const RERUN: seq<Request> :=
    [Begin(1, 0, LLM)] + ([TITLE_0] + ([Begin(1, 1, IMAGES)] + RERUN_TAIL))
  const RERUN_TAIL: seq<Request> := [Undo(1, 0)] + ([Begin(1, 0, LLM)] + ([Begin(1, 2, LLM)] + RERUN_END))
  const RERUN_END: seq<Request> :=
    [TITLE_0] + ([Finish(1, 2, LLM, true, false, 0)] + ([Finish(1, 1, IMAGES, false, true, 9)] + []))

  lemma TitleLeads(p: Picture, rest: seq<Request>, last: Picture)
    requires p.c0 == Cell(Held(1), LLM)
    requires var a := Account(p.a.beans - 1, p.a.frozen - Min(1, p.a.frozen));
      Leads(p.Put(a, 0, Cell(Charged(1), LLM)), rest, last, false)
    ensures Leads(p, [TITLE_0] + rest, last, false)
  {
    Amounts();
    LeadsBy(p, TITLE_0, Next(p, TITLE_0), rest, last, false);
  }

  lemma RerunEnd()
    ensures Leads(Three(1, 11, Held(1), LLM, Held(10), IMAGES, Held(1), LLM), RERUN_END,
                  Three(-11, 0, Charged(1), LLM, Charged(10), IMAGES, Charged(1), LLM), false)
  {
    Amounts();
    var p0 := Three(1, 11, Held(1), LLM, Held(10), IMAGES, Held(1), LLM);
    var p1 := Three(0, 10, Charged(1), LLM, Held(10), IMAGES, Held(1), LLM);
    var p2 := Three(-1, 9, Charged(1), LLM, Held(10), IMAGES, Charged(1), LLM);
    var p3 := Three(-11, 0, Charged(1), LLM, Charged(10), IMAGES, Charged(1), LLM);
    var r1, r2 := Finish(1, 2, LLM, true, false, 0), Finish(1, 1, IMAGES, false, true, 9);
    LeadsBy(p2, r2, p3, [], p3, false);
    LeadsBy(p1, r1, p2, [r2] + [], p3, false);
    TitleLeads(p0, [r1] + ([r2] + []), p3);
  }

  lemma RerunTail(f: seq<string>, last: Picture)
    requires Leads(Three(1, 11, Held(1), LLM, Held(10), IMAGES, Held(1), LLM), RERUN_END, last, false)
    ensures Leads(Three(0, 10, Charged(1), LLM, Held(10), IMAGES, Untouched, f), RERUN_TAIL, last, false)
  {
    Amounts();
    var p0 := Three(0, 10, Charged(1), LLM, Held(10), IMAGES, Untouched, f);
    var p1 := Three(1, 9, Untouched, LLM, Held(10), IMAGES, Untouched, f);
    var p2 := Three(1, 10, Held(1), LLM, Held(10), IMAGES, Untouched, f);
    var p3 := Three(1, 11, Held(1), LLM, Held(10), IMAGES, Held(1), LLM);
    LeadsBy(p2, Begin(1, 2, LLM), p3, RERUN_END, last, false);
    LeadsBy(p1, Begin(1, 0, LLM), p2, [Begin(1, 2, LLM)] + RERUN_END, last, false);
    LeadsBy(p0, Undo(1, 0), p1, [Begin(1, 0, LLM)] + ([Begin(1, 2, LLM)] + RERUN_END), last, false);
  }

  lemma RerunFirst(f: seq<string>, rest: seq<Request>, last: Picture)
    requires Leads(Three(0, 0, Charged(1), LLM, Untouched, f, Untouched, f), rest, last, false)
    ensures Leads(Three(1, 0, Untouched, f, Untouched, f, Untouched, f), [Begin(1, 0, LLM)] + ([TITLE_0] + rest), last,
                  false)
  {
    Amounts();
    var p0 := Three(1, 0, Untouched, f, Untouched, f, Untouched, f);
    var p1 := Three(1, 1, Held(1), LLM, Untouched, f, Untouched, f);
    TitleLeads(p1, rest, last);
    BeginLeads(p0, 0, LLM, 1, [TITLE_0] + rest, last, false);
  }

  lemma RerunSecond(f: seq<string>, tail: seq<Request>, last: Picture)
    requires Leads(Three(0, 10, Charged(1), LLM, Held(10), IMAGES, Untouched, f), tail, last, false)
    ensures Leads(Three(0, 0, Charged(1), LLM, Untouched, f, Untouched, f), [Begin(1, 1, IMAGES)] + tail, last, false)
  {
    Amounts();
    BeginLeads(Three(0, 0, Charged(1), LLM, Untouched, f, Untouched, f), 1, IMAGES, 10, tail, last, false);
  }

  /** From one bean, nothing frozen and three imports never held to -11. Every hold is granted and every cost lies
      within the open hold it ends; what opens the way is the reset of the settled import 0. */
  lemma RerunOverspends(b: Books, f: seq<string>)
    requires Shows(b, Three(1, 0, Untouched, f, Untouched, f, Untouched, f))
    ensures PlainRun(b, RERUN, false) && ServeAll(b, RERUN).db.users == map[1 := Account(-11, 0)] && -11 < BEANS_FLOOR
  {
    var last := Three(-11, 0, Charged(1), LLM, Charged(10), IMAGES, Charged(1), LLM);
    RerunEnd();
    RerunTail(f, last);
    RerunSecond(f, RERUN_TAIL, last);
    RerunFirst(f, [Begin(1, 1, IMAGES)] + RERUN_TAIL, last);
    LeadsShows(b, Three(1, 0, Untouched, f, Untouched, f, Untouched, f), RERUN, last, false);
  }

  /** A run of import 0 with both features is active when 0 is requested again for its title only, and 1 is held.
      The first run then delivers a title. Import 2 is held, and 1 and 2 are delivered in full. */
  const EARLIER: seq<Request> :=
    [Begin(1, 0, BOTH)] + ([Undo(1, 0)] + ([Begin(1, 0, LLM)] + ([Begin(1, 1, IMAGES)] + EARLIER_TAIL)))
  const EARLIER_TAIL: seq<Request> := [Finish(1, 0, BOTH, true, false, 0)] + ([Begin(1, 2, BOTH)] + EARLIER_END)
  const EARLIER_END: seq<Request> :=
    [Finish(1, 1, IMAGES, false, true, 9)] + ([Finish(1, 2, BOTH, true, true, 9)] + [])

  lemma EarlierEnd()
    ensures Leads(Three(4, 11, Charged(1), LLM, Held(10), IMAGES, Held(11), BOTH), EARLIER_END,
                  Three(-17, 0, Charged(1), LLM, Charged(10), IMAGES, Charged(11), BOTH), true)
  {
    Amounts();
    var p0 := Three(4, 11, Charged(1), LLM, Held(10), IMAGES, Held(11), BOTH);
    var p1 := Three(-6, 1, Charged(1), LLM, Charged(10), IMAGES, Held(11), BOTH);
    var p2 := Three(-17, 0, Charged(1), LLM, Charged(10), IMAGES, Charged(11), BOTH);
    var r0, r1 := Finish(1, 1, IMAGES, false, true, 9), Finish(1, 2, BOTH, true, true, 9);
    LeadsBy(p1, r1, p2, [], p2, true);
    LeadsBy(p0, r0, p1, [r1] + [], p2, true);
  }

  lemma EarlierTail(f: seq<string>, last: Picture)
    requires Leads(Three(4, 11, Charged(1), LLM, Held(10), IMAGES, Held(11), BOTH), EARLIER_END, last, true)
    ensures Leads(Three(5, 11, Held(1), LLM, Held(10), IMAGES, Untouched, f), EARLIER_TAIL, last, true)
  {
    Amounts();
    var p0 := Three(5, 11, Held(1), LLM, Held(10), IMAGES, Untouched, f);
    var p1 := Three(4, 0, Charged(1), LLM, Held(10), IMAGES, Untouched, f);
    var p2 := Three(4, 11, Charged(1), LLM, Held(10), IMAGES, Held(11), BOTH);
    LeadsBy(p1, Begin(1, 2, BOTH), p2, EARLIER_END, last, true);
    LeadsBy(p0, Finish(1, 0, BOTH, true, false, 0), p1, [Begin(1, 2, BOTH)] + EARLIER_END, last, true);
  }

  lemma EarlierHead(f: seq<string>, last: Picture)
    requires Leads(Three(5, 11, Held(1), LLM, Held(10), IMAGES, Untouched, f), EARLIER_TAIL, last, true)
    ensures Leads(Three(5, 0, Untouched, f, Untouched, f, Untouched, f), EARLIER, last, true)
  {
    Amounts();
    var p0 := Three(5, 0, Untouched, f, Untouched, f, Untouched, f);
    var p1 := Three(5, 11, Held(11), BOTH, Untouched, f, Untouched, f);
    var p2 := Three(5, 0, Untouched, BOTH, Untouched, f, Untouched, f);
    var p3 := Three(5, 1, Held(1), LLM, Untouched, f, Untouched, f);
    var p4 := Three(5, 11, Held(1), LLM, Held(10), IMAGES, Untouched, f);
    var rs3 := [Begin(1, 1, IMAGES)] + EARLIER_TAIL;
    LeadsBy(p3, Begin(1, 1, IMAGES), p4, EARLIER_TAIL, last, true);
    LeadsBy(p2, Begin(1, 0, LLM), p3, rs3, last, true);
    LeadsBy(p1, Undo(1, 0), p2, [Begin(1, 0, LLM)] + rs3, last, true);
    LeadsBy(p0, Begin(1, 0, BOTH), p1, [Undo(1, 0)] + ([Begin(1, 0, LLM)] + rs3), last, true);
  }

  /** From five beans, nothing frozen and three imports never held to -17. Each hold is granted and ended once, and
      every cost lies within the open hold it ends; the first run's settlement takes the hold of import 1. */
  lemma EarlierRunOverspends(b: Books, f: seq<string>)
    requires Shows(b, Three(5, 0, Untouched, f, Untouched, f, Untouched, f))
    ensures PlainRun(b, EARLIER, true) && ServeAll(b, EARLIER).db.users == map[1 := Account(-17, 0)]
    ensures -17 < BEANS_FLOOR
  {
    var last := Three(-17, 0, Charged(1), LLM, Charged(10), IMAGES, Charged(11), BOTH);
    EarlierEnd();
    EarlierTail(f, last);
    EarlierHead(f, last);
    LeadsShows(b, Three(5, 0, Untouched, f, Untouched, f, Untouched, f), EARLIER, last, true);
  }
}
