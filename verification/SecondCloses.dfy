/** The closes that find their hold already ended. */
module SecondCloses {
  import opened Common
  import opened Ledger
  import opened LedgerRuns
  import opened Overspend

  // ----- which closes still take effect -----

  /** While an import keeps a hold row that is no longer open, each kind of close takes effect under its own
      probe only. */
  lemma EndedHoldCloses(b: Books, u: int, i: int, op: Op)
    requires u in b.db.users && HasHold(b.db.log, i) && i !in b.open
    requires (op.Settle? || op.Release? || op.Reset?) && op.user == u && op.imp == i
    ensures Closes(b.db, op) <==>
      op.Reset? || (op.Settle? && !HasCharge(b.db.log, i)) || (op.Release? && !HasNonZero(b.db.log, i))
    ensures Unbacked(b, op) <==> Closes(b.db, op) && Asked(b.db, op) > 0 && b.db.users[u].frozen > 0
  {
  }

  /** Re-running an import whose hold has ended, by settlement or release (the route resets it first), is an
      unbacked close whenever its features cost something and other holds of the user are frozen. */
  lemma RerunIsUnbacked(b: Books, u: int, i: int)
    requires u in b.db.users && HasHold(b.db.log, i) && i !in b.open
    ensures Unbacked(b, Reset(u, i)) <==> HoldAmountFor(FeaturesOf(b.db, i)) > 0 && b.db.users[u].frozen > 0
  {
    EndedHoldCloses(b, u, i, Reset(u, i));
  }

  /** A charge leaves the reset as the only close that still takes effect. */
  lemma AfterSettle(b: Books, u: int, i: int, held: int, analysed: bool, images: int, titleOk: bool, again: Op)
    requires CanSettle(b.db, u, i) && Cost(analysed, images, titleOk) > 0
    requires (again.Settle? || again.Release? || again.Reset?) && again.user == u && again.imp == i
    ensures var b' := NextBooks(b, Settle(u, i, held, analysed, images, titleOk));
      Closes(b'.db, again) <==> again.Reset?
  {
    var op := Settle(u, i, held, analysed, images, titleOk);
    ProbesStep(b.db, op, i);
    ChargeIsNonZero(NextBooks(b, op).db.log, i);
  }

  /** A release leaves every close in effect: it writes a zero row, which no probe looks for. Each of them is
      unbacked whenever it asks for something and something is frozen, and a settle is not covered at all. */
  lemma AfterRelease(b: Books, u: int, i: int, held: int, again: Op)
    requires CanRelease(b.db, u, i)
    requires (again.Settle? || again.Release? || again.Reset?) && again.user == u && again.imp == i
    ensures var b' := NextBooks(b, Release(u, i, held));
      && Closes(b'.db, again)
      && (Unbacked(b', again) <==> Asked(b'.db, again) > 0 && b'.db.users[u].frozen > 0)
      && (again.Settle? && again.held >= 0 ==>
            UncoveredOf(b', again) == Cost(again.multimodalOk, again.images, again.titleOk))
  {
    ProbesStep(b.db, Release(u, i, held), i);
    ChargeIsNonZero(b.db.log, i);
  }
}
