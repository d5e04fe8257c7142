/** Two holds of one import at once: a hold is stopped only by its first probe, so one that has passed the probe
    before the other commits freezes a second time. */
module RacingHolds {
  import opened Common
  import opened Ledger
  import opened LedgerRuns
  import opened Overspend
  import opened Transactions
  import opened Progress

  /** Past its probe, a hold freezes and appends its row whenever the room is there, hold row or not. */
  lemma ProbedHold(db: Db, u: int, h: int, i: int)
    ensures Rest(db, Hold(u, h, i), Probed) ==
      if u in db.users && db.users[u].Available() - h >= BEANS_FLOOR then
        var a := db.users[u];
        db.(users := db.users[u := a.(frozen := a.frozen + h)], log := db.log + [Row(u, 0, a.beans, "hold", Some(i))])
      else db
  {
    if u in db.users && db.users[u].Available() - h >= BEANS_FLOOR {
      var op, a := Hold(u, h, i), db.users[u];
      var a' := a.(frozen := a.frozen + h);
      var row := AddRow(Row(u, 0, a.beans, "hold", Some(i)));
      assert Rest(db, op, Ready(a', row)) == Install(db, u, a', row);
      assert Rest(db, op, Updated(a')) == Rest(db, op, Ready(a', row));
      assert Decide(db, true, op, Probed) == Lock(Updated(a'));
    }
  }

  /** When one hold of an import commits, another that does not hold the row is at its probe or past it. Whatever
      amounts h and g the two name, the second freezes too exactly when it is past its probe and the room is
      there; frozen is then above the sum of the open holds by g. */
  lemma RacingHoldsFreezeTwiceIff(owner: int -> int, b: Books, u: int, h: int, g: int, i: int, phase: Phase)
    requires BooksOk(owner, b) && Exact(b) && owner(i) == u && CanHold(b.db, u, h, i) && g > 0
    requires phase == Begun || phase == Probed
    ensures var first := NextBooks(b, Hold(u, h, i));
      var both := Books(Rest(first.db, Hold(u, g, i), phase), first.open);
      && (both.db != first.db <==> phase == Probed && b.db.users[u].Available() - (h + g) >= BEANS_FLOOR)
      && (both.db != first.db ==>
            && u in both.db.users && both.db.users[u].frozen == b.db.users[u].frozen + h + g
            && Gap(both, u) == 0 - g && !Exact(both))
  {
    var first := NextBooks(b, Hold(u, h, i));
    FrozenStep(owner, b, Hold(u, h, i), u);
    ProbesStep(b.db, Hold(u, h, i), i);
    if phase == Begun {
      RestIsApply(first.db, Hold(u, g, i), Begun);
    } else {
      ProbedHold(first.db, u, g, i);
    }
  }
}
