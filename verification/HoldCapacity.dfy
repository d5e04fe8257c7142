/** How many equal holds a balance carries. */
module HoldCapacity {
  import opened Common
  import opened Ledger

  /** Outcomes of holding the same amount for each import in turn. */
  function HoldEach(db: Db, u: int, amount: int, imps: seq<int>): (held: seq<bool>)
    ensures |held| == |imps|
    decreases |imps|
  {
    if imps == [] then []
    else [CanHold(db, u, amount, imps[0])] + HoldEach(ApplyHold(db, u, amount, imps[0]), u, amount, imps[1..])
  }

  lemma QuotientStep(x: int, h: int)
    requires h > 0
    ensures (x - h) / h == x / h - 1
  {
    var q, r := x / h, x % h;
    assert x - h == h * (q - 1) + r;
    QuotientUnique(x - h, h, q - 1, r);
  }

  lemma MulAtLeast(h: int, a: int)
    requires h > 0 && a >= 1
    ensures h * a >= h
  {
  }

  lemma QuotientUnique(x: int, h: int, q: int, r: int)
    requires h > 0 && 0 <= r < h && x == h * q + r
    ensures x / h == q
  {
    var p, s := x / h, x % h;
    assert x == h * p + s;
    if p > q {
      assert h * (p - q) == h * p - h * q;
      MulAtLeast(h, p - q);
    } else if p < q {
      assert h * (q - p) == h * q - h * p;
      MulAtLeast(h, q - p);
    }
  }

  /** With A available, the first (A + 10) / h holds of h succeed and all later ones fail. */
  lemma {:induction false} ExactCapacity(db: Db, u: int, h: int, imps: seq<int>)
    requires h > 0 && u in db.users && db.users[u].Available() >= BEANS_FLOOR
    requires forall j, k :: 0 <= j < k < |imps| ==> imps[j] != imps[k]
    requires forall k :: 0 <= k < |imps| ==> !HasHold(db.log, imps[k])
    ensures forall k :: 0 <= k < |imps| ==>
      (HoldEach(db, u, h, imps)[k] <==> k < (db.users[u].Available() - BEANS_FLOOR) / h)
    decreases |imps|
  {
    if imps == [] {
    } else {
      var room := db.users[u].Available() - BEANS_FLOOR;
      var db', rest := ApplyHold(db, u, h, imps[0]), imps[1..];
      forall k | 0 <= k < |rest|
        ensures !HasHold(db'.log, rest[k])
      {
        ProbesStep(db, Hold(u, h, imps[0]), imps[k + 1]);
      }
      ExactCapacity(db', u, h, rest);
      if room >= h {
        QuotientStep(room, h);
        assert (room - h) / h >= 0;
      } else {
        QuotientUnique(room, h, 0, room);
      }
    }
  }
}
