/** Edits of an import's generated images, and the image urls that its export lists. */
module ImageEdits {
  import opened Common
  import Generation

  type Item = Generation.Item

  datatype Edit = Promote(url: string) | Delete(imageType: string) | Restore(imageType: string) | Unknown

  // ----- the edits -----

  predicate IsManual(g: Item, url: string) { g.source == "manual_original" && g.image == url }

  function ManualOf(url: string): Item -> bool { (g: Item) => IsManual(g, url) }

  function NotManual(url: string): Item -> bool { (g: Item) => !IsManual(g, url) }

  /** The entry a promotion appends; `stamp` names it. */
  function Manual(url: string, stamp: string): Item
  {
    Generation.Item("manual_" + stamp, url, "manual_original", false, "", "")
  }

  function Promoted(xs: seq<Item>, url: string, stamp: string): seq<Item>
  {
    Filter(xs, NotManual(url)) + [Manual(url, stamp)]
  }

  /** The first entry of a type, or |xs|. */
  function FirstOf(xs: seq<Item>, imageType: string): (k: nat)
    ensures k <= |xs|
    ensures forall j :: 0 <= j < k ==> xs[j].imageType != imageType
    ensures k < |xs| ==> xs[k].imageType == imageType
  {
    if xs == [] || xs[0].imageType == imageType then 0 else 1 + FirstOf(xs[1..], imageType)
  }

  predicate Has(xs: seq<Item>, imageType: string) { FirstOf(xs, imageType) < |xs| }

  function Flagged(xs: seq<Item>, imageType: string, flag: bool): seq<Item>
  {
    var k := FirstOf(xs, imageType);
    if k < |xs| then xs[k := xs[k].(deleted := flag)] else xs
  }

  /** The edited list, or None when nothing is written. */
  function Edited(xs: seq<Item>, e: Edit, stamp: string): Option<seq<Item>>
  {
    match e
    case Promote(url) => if url == "" then None else Some(Promoted(xs, url, stamp))
    case Delete(t) => if Has(xs, t) then Some(Flagged(xs, t, true)) else None
    case Restore(t) => if Has(xs, t) then Some(Flagged(xs, t, false)) else None
    case Unknown => None
  }

  /** The loop that marks the first entry of a type. */
  method Mark(xs: seq<Item>, imageType: string, flag: bool) returns (ys: seq<Item>, found: bool)
    ensures ys == Flagged(xs, imageType, flag) && found == Has(xs, imageType)
  {
    for k := 0 to |xs|
      invariant forall j :: 0 <= j < k ==> xs[j].imageType != imageType
    {
      if xs[k].imageType == imageType {
        return xs[k := xs[k].(deleted := flag)], true;
      }
    }
    return xs, false;
  }

  /** None: no such import, or nothing to edit; the row is then left alone. */
  method EditAiImage(record: Generation.ImportRecord?, e: Edit, stamp: string) returns (r: Option<seq<Item>>)
    modifies if record == null then {} else {record}
    ensures r == if record == null then None else Edited(old(record.generated), e, stamp)
    ensures record != null ==>
      record.generated == (if r.Some? then r.value else old(record.generated))
      && record.status == old(record.status)
  {
    if record == null {
      return None;
    }
    var generated := record.generated;
    match e {
      case Promote(url) =>
        if url == "" {
          return None;
        }
        generated := Filter(generated, NotManual(url));
        generated := generated + [Manual(url, stamp)];
      case Delete(t) =>
        var found;
        generated, found := Mark(generated, t, true);
        if !found {
          return None;
        }
      case Restore(t) =>
        var found;
        generated, found := Mark(generated, t, false);
        if !found {
          return None;
        }
      case Unknown =>
        return None;
    }
    record.generated := generated;
    return Some(generated);
  }

  // ----- the export -----

  predicate Active(g: Item) { g.image != "" && !g.deleted && g.error == "" }

  function Exported(xs: seq<Item>): seq<string> { Select(xs, ACTIVE, IMAGE) }

  const ACTIVE: Item -> bool := (g: Item) => Active(g)
  const IMAGE: Item -> string := (g: Item) => g.image

  lemma ExportedParts(a: seq<Item>, g: Item, b: seq<Item>)
    ensures Exported(a + [g] + b) == Exported(a) + (if Active(g) then [g.image] else []) + Exported(b)
  {
    SelectConcat(a + [g], b, ACTIVE, IMAGE);
    SelectConcat(a, [g], ACTIVE, IMAGE);
    SelectOne(g, ACTIVE, IMAGE);
  }

  lemma Around<T>(xs: seq<T>, k: nat, x: T)
    requires k < |xs|
    ensures xs == xs[..k] + [xs[k]] + xs[k + 1..]
    ensures xs[k := x] == xs[..k] + [x] + xs[k + 1..]
  {
  }

  /** Changing one entry changes the exported list at one place. */
  lemma ExportedUpdate(xs: seq<Item>, k: nat, g: Item)
    requires k < |xs|
    ensures var before, after := Exported(xs[..k]), Exported(xs[k + 1..]);
      && Exported(xs) == before + (if Active(xs[k]) then [xs[k].image] else []) + after
      && Exported(xs[k := g]) == before + (if Active(g) then [g.image] else []) + after
  {
    Around(xs, k, g);
    ExportedParts(xs[..k], xs[k], xs[k + 1..]);
    ExportedParts(xs[..k], g, xs[k + 1..]);
  }

  // ----- delete, then restore -----

  /** Marking a type twice is marking it once: the first entry stays the first. */
  lemma FlaggedTwice(xs: seq<Item>, t: string, a: bool, b: bool)
    ensures Flagged(Flagged(xs, t, a), t, b) == Flagged(xs, t, b)
  {
  }

  /** The first entry of the type is missing from the export for no other reason than its deletion. */
  predicate HiddenByDeletion(xs: seq<Item>, t: string)
  {
    var k := FirstOf(xs, t);
    k < |xs| && xs[k].deleted && xs[k].image != "" && xs[k].error == ""
  }

  /** Deleting and then restoring a type gives back the exported list exactly when its first entry was not
      already hidden by a deletion; a first entry that was live gives back the whole list. */
  lemma DeleteRestoreIff(xs: seq<Item>, t: string)
    ensures var back := Flagged(Flagged(xs, t, true), t, false);
      && (Exported(back) == Exported(xs) <==> !HiddenByDeletion(xs, t))
      && (back == xs <==> !(Has(xs, t) && xs[FirstOf(xs, t)].deleted))
  {
    FlaggedTwice(xs, t, true, false);
    var k := FirstOf(xs, t);
    if k < |xs| {
      var g := xs[k].(deleted := false);
      ExportedUpdate(xs, k, g);
      assert Flagged(xs, t, false)[k] == g;
    }
  }

  /** Deleting takes exactly the first entry of the type out of the export. */
  lemma DeleteHides(xs: seq<Item>, t: string)
    requires Has(xs, t)
    ensures var k := FirstOf(xs, t);
      Exported(Flagged(xs, t, true)) == Exported(xs[..k]) + Exported(xs[k + 1..])
  {
    var k := FirstOf(xs, t);
    ExportedWithout(xs, k, xs[k].(deleted := true));
  }

  lemma ExportedWithout(xs: seq<Item>, k: nat, g: Item)
    requires k < |xs| && !Active(g)
    ensures Exported(xs[k := g]) == Exported(xs[..k]) + Exported(xs[k + 1..])
  {
    Around(xs, k, g);
    ExportedParts(xs[..k], g, xs[k + 1..]);
    assert Exported(xs[..k]) + [] == Exported(xs[..k]);
  }

  /** A delete edit takes exactly the first entry of its type out of the export, and a restore edit leaves that
      entry live; neither touches anything else, and neither writes when the type is not there. */
  lemma DeleteEdit(xs: seq<Item>, t: string, stamp: string)
    ensures Edited(xs, Delete(t), stamp).None? <==> forall k :: 0 <= k < |xs| ==> xs[k].imageType != t
    ensures Edited(xs, Delete(t), stamp).Some? ==>
      var k, ys := FirstOf(xs, t), Edited(xs, Delete(t), stamp).value;
      && k < |xs| && ys == xs[k := xs[k].(deleted := true)]
      && Exported(ys) == Exported(xs[..k]) + Exported(xs[k + 1..])
  {
    if Has(xs, t) {
      DeleteHides(xs, t);
    }
  }

  lemma RestoreEdit(xs: seq<Item>, t: string, stamp: string)
    ensures Edited(xs, Restore(t), stamp).None? <==> forall k :: 0 <= k < |xs| ==> xs[k].imageType != t
    ensures Edited(xs, Restore(t), stamp).Some? ==>
      var k, ys := FirstOf(xs, t), Edited(xs, Restore(t), stamp).value;
      k < |xs| && ys == xs[k := xs[k].(deleted := false)]
  {
  }

  /** A promote edit writes unless its url is empty: it appends a live original of that url, named by the stamp,
      to the other entries in their order. */
  lemma PromoteEdit(xs: seq<Item>, url: string, stamp: string)
    ensures Edited(xs, Promote(url), stamp).None? <==> url == ""
    ensures url != "" ==>
      var ys := Edited(xs, Promote(url), stamp).value;
      && |ys| > 0 && ys[|ys| - 1] == Generation.Item("manual_" + stamp, url, "manual_original", false, "", "")
      && (forall g :: g in ys[..|ys| - 1] <==> g in xs && !(g.source == "manual_original" && g.image == url))
      && ys[..|ys| - 1] == Filter(xs, NotManual(url))
  {
    if url != "" {
      FilterMembers(xs, NotManual(url));
      assert Promoted(xs, url, stamp)[..|Promoted(xs, url, stamp)| - 1] == Filter(xs, NotManual(url));
      assert forall g :: NotManual(url)(g) <==> !(g.source == "manual_original" && g.image == url);
    }
  }

  /** A delete edit and then a restore edit of one type give back the export exactly when the first entry was not
      already hidden by a deletion. */
  lemma DeleteThenRestoreIff(xs: seq<Item>, t: string, s1: string, s2: string)
    ensures var back := EditAll(xs, [(Delete(t), s1), (Restore(t), s2)]);
      && (Exported(back) == Exported(xs) <==> !HiddenByDeletion(xs, t))
      && (back == xs <==> !(Has(xs, t) && xs[FirstOf(xs, t)].deleted))
  {
    DeleteRestoreIff(xs, t);
    TwoEdits(xs, (Delete(t), s1), (Restore(t), s2));
  }

  /** The list after an edit, the old one when nothing is written. */
  function After(xs: seq<Item>, e: (Edit, string)): seq<Item>
  {
    var next := Edited(xs, e.0, e.1);
    if next.Some? then next.value else xs
  }

  lemma TwoEdits(xs: seq<Item>, e: (Edit, string), f: (Edit, string))
    ensures EditAll(xs, [e, f]) == After(After(xs, e), f)
  {
    assert [e, f][1..] == [f] && [f][1..] == [];
    assert EditAll(After(xs, e), [f]) == After(After(xs, e), f);
  }

  // ----- promote -----

  function Except(url: string): string -> bool { (u: string) => u != url }

  lemma {:induction false} ExportedFiltered(xs: seq<Item>, url: string)
    ensures Filter(Exported(Filter(xs, NotManual(url))), Except(url)) == Filter(Exported(xs), Except(url))
    decreases |xs|
  {
    if xs == [] {
    } else {
      var front, g := xs[..|xs| - 1], xs[|xs| - 1];
      ExportedFiltered(front, url);
      assert xs == front + [g];
      SelectConcat(front, [g], ACTIVE, IMAGE);
      SelectOne(g, ACTIVE, IMAGE);
      var part := if Active(g) then [g.image] else [];
      FilterConcat(Exported(front), part, Except(url));
      if IsManual(g, url) {
        FilterNone(part, Except(url));
        assert Filter(xs, NotManual(url)) == Filter(front, NotManual(url));
      } else {
        FilterConcat(Exported(Filter(front, NotManual(url))), part, Except(url));
        SelectConcat(Filter(front, NotManual(url)), [g], ACTIVE, IMAGE);
        SelectOne(g, ACTIVE, IMAGE);
      }
    }
  }

  /** A promotion puts its url last in the export and leaves the other urls as they were, in order. */
  lemma PromoteLast(xs: seq<Item>, url: string, stamp: string)
    requires url != ""
    ensures var urls := Exported(Promoted(xs, url, stamp));
      && urls != [] && urls[|urls| - 1] == url
      && Filter(urls, Except(url)) == Filter(Exported(xs), Except(url))
  {
    var rest, last := Filter(xs, NotManual(url)), Manual(url, stamp);
    SelectConcat(rest, [last], ACTIVE, IMAGE);
    SelectOne(last, ACTIVE, IMAGE);
    FilterConcat(Exported(rest), [url], Except(url));
    FilterNone([url], Except(url));
    ExportedFiltered(xs, url);
  }

  // ----- at most one original per url -----

  function Manuals(xs: seq<Item>, url: string): nat { CountIf(xs, ManualOf(url)) }

  /** At most one manual original per url. */
  ghost predicate OneManual(xs: seq<Item>) { forall url :: Manuals(xs, url) <= 1 }

  lemma {:induction false} CountFiltered<T>(xs: seq<T>, keep: T -> bool, counts: T -> bool)
    ensures (forall x :: counts(x) ==> keep(x)) ==> CountIf(Filter(xs, keep), counts) == CountIf(xs, counts)
    ensures (forall x :: counts(x) ==> !keep(x)) ==> CountIf(Filter(xs, keep), counts) == 0
    decreases |xs|
  {
    if xs == [] {
    } else {
      var rest := Filter(xs[..|xs| - 1], keep);
      CountFiltered(xs[..|xs| - 1], keep, counts);
      assert rest + [] == rest && (rest + [xs[|xs| - 1]])[..|rest|] == rest;
    }
  }

  /** How an edit changes the number of originals of each url. */
  lemma ManualsAfter(xs: seq<Item>, e: Edit, stamp: string, url: string)
    requires Edited(xs, e, stamp).Some?
    ensures var n := Manuals(Edited(xs, e, stamp).value, url);
      n == if e == Promote(url) then 1 else Manuals(xs, url)
  {
    match e
    case Promote(u) =>
      CountFiltered(xs, NotManual(u), ManualOf(url));
      var ys := Promoted(xs, u, stamp);
      assert ys[..|ys| - 1] == Filter(xs, NotManual(u));
    case Delete(t) =>
      CountSame(xs, Flagged(xs, t, true), ManualOf(url));
    case Restore(t) =>
      CountSame(xs, Flagged(xs, t, false), ManualOf(url));
  }

  /** The list after a sequence of edits, each with its stamp. */
  function EditAll(xs: seq<Item>, edits: seq<(Edit, string)>): seq<Item>
    decreases |edits|
  {
    if edits == [] then xs
    else EditAll(After(xs, edits[0]), edits[1..])
  }

  /** Over any edits, a url that is promoted has exactly one original from then on, and every other url keeps
      the originals it had. */
  lemma {:induction false} ManualsKept(xs: seq<Item>, edits: seq<(Edit, string)>, url: string)
    ensures Manuals(EditAll(xs, edits), url) ==
      if url != "" && exists k :: 0 <= k < |edits| && edits[k].0 == Promote(url) then 1 else Manuals(xs, url)
    decreases |edits|
  {
    if edits == [] {
    } else {
      var xs' := After(xs, edits[0]);
      if Edited(xs, edits[0].0, edits[0].1).Some? {
        ManualsAfter(xs, edits[0].0, edits[0].1, url);
      }
      ManualsKept(xs', edits[1..], url);
      forall k | 0 <= k < |edits| && edits[k].0 == Promote(url)
        ensures k == 0 || edits[1..][k - 1].0 == Promote(url)
      {
      }
    }
  }

  /** No url ever has two originals when none had two at first, as in a list that only tasks have filled. */
  lemma OneManualKept(xs: seq<Item>, edits: seq<(Edit, string)>)
    requires OneManual(xs)
    ensures OneManual(EditAll(xs, edits))
  {
    forall url
      ensures Manuals(EditAll(xs, edits), url) <= 1
    {
      ManualsKept(xs, edits, url);
    }
  }
}
