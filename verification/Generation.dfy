/** Image generation: tasks finish in any order, successes are streamed, the list is sorted at the end. */
module Generation {
  import opened Common
  import opened Completion
  import opened StableSort
  import opened Text
  import Images

  /** An entry of generated_json; "" stands for an absent or null field. */
  datatype Item = Item(imageType: string, image: string, source: string, deleted: bool, error: string, prompt: string)

  datatype GenOutcome = Success(url: string) | Failure(error: string)

  function TaskName(n: nat): string { "image_" + Print(n) }

  /** What one task returns. */
  function ResultOf(n: nat, prompt: string, o: GenOutcome): Item
  {
    match o
    case Success(url) => Item(TaskName(n), url, "", false, "", prompt)
    case Failure(error) => Item(TaskName(n), "", "", false, error, prompt)
  }

  function Results(prompts: seq<(nat, string)>, outcomes: seq<GenOutcome>): (r: seq<Item>)
    requires |outcomes| == |prompts|
    ensures |r| == |prompts|
    ensures forall k :: 0 <= k < |r| ==> r[k] == ResultOf(prompts[k].0, prompts[k].1, outcomes[k])
  {
    seq(|prompts|, k requires 0 <= k < |prompts| => ResultOf(prompts[k].0, prompts[k].1, outcomes[k]))
  }

  /** int(image_type.split("_")[1]) if "_" in image_type else 0. */
  function KeyOf(g: Item): int
  {
    if '_' !in g.imageType then 0
    else
      var parts := Split(g.imageType, '_');
      if |parts| > 1 && AllDigits(parts[1]) then Parse(parts[1]) else 0
  }

  const SORT_KEY: Item -> int := (g: Item) => KeyOf(g)

  lemma KeyOfTask(n: nat, prompt: string, o: GenOutcome)
    ensures SORT_KEY(ResultOf(n, prompt, o)) == n
  {
    var name := TaskName(n);
    assert name == "image" + ['_'] + Print(n);
    assert name[5] == '_';
    SplitFirst("image", '_', Print(n));
    assert '_' !in Print(n);
    SplitPlain(Print(n), '_');
    PrintParse(n);
  }

  predicate DistinctNumbers(prompts: seq<(nat, string)>)
  {
    forall i, j :: 0 <= i < j < |prompts| ==> prompts[i].0 != prompts[j].0
  }

  /** What append_generated_image stores for a result. */
  function Streamed(g: Item): Item { Item(g.imageType, g.image, "", false, "", "") }

  /** The successes of a list, projected to type and url. */
  function Delivered(xs: seq<Item>): seq<Item> { Select(xs, HAS_IMAGE, STREAM) }

  const HAS_IMAGE: Item -> bool := (g: Item) => g.image != ""
  const STREAM: Item -> Item := (g: Item) => Streamed(g)

  /** The successes whose append did not fail. */
  function Appended(xs: seq<Item>, appendOk: seq<bool>): seq<Item>
    requires |appendOk| == |xs|
  {
    if xs == [] then []
    else
      var g, n := xs[|xs| - 1], |xs| - 1;
      Appended(xs[..n], appendOk[..n]) + (if g.image != "" && appendOk[n] then [Streamed(g)] else [])
  }

  // ----- the method -----

  class ImportRecord {
    var status: string
    var generated: seq<Item>

    method AppendGeneratedImage(g: Item)
      modifies this`generated
      ensures generated == old(generated) + [g]
    {
      generated := generated + [g];
    }
  }

  datatype Reply = NoReference | NoPrompts | BadReference | Generated(list: seq<Item>)

  /** Every selected index leads to downloaded bytes. */
  predicate ReferencesOk(selected: seq<int>, images: seq<Option<Images.Bytes>>, valid: seq<nat>)
  {
    forall k :: 0 <= k < |selected| ==> Images.Reference(images, valid, selected[k]).Some?
  }

  /** References fail exactly for an index outside the shown list, counted from either end. */
  lemma ReferencesOkIff(selected: seq<int>, images: seq<Option<Images.Bytes>>)
    ensures var shown := |Images.ValidIndices(images)|;
      ReferencesOk(selected, images, Images.ValidIndices(images)) <==>
        forall k :: 0 <= k < |selected| ==> 1 - shown <= selected[k] <= shown
  {
    var valid := Images.ValidIndices(images);
    forall idx
      ensures Images.Reference(images, valid, idx).Some? <==> 1 - |valid| <= idx <= |valid|
    {
    }
  }

  /** Indexes that validation accepts, for as many images as were shown to the model, all lead to bytes. */
  lemma AcceptedReferencesOk(images: seq<Option<Images.Bytes>>, encode: Images.Bytes -> string, indexes: seq<int>)
    requires Images.InRange(indexes, |Images.Present(Images.Encoded(images, encode))|)
    ensures ReferencesOk(indexes, images, Images.ValidIndices(images))
  {
    forall k | 0 <= k < |indexes|
      ensures Images.Reference(images, Images.ValidIndices(images), indexes[k]).Some?
    {
      assert indexes[k] in indexes;
      Images.ReferencesFound(images, encode, indexes[k]);
    }
  }

  method Generate(record: ImportRecord, selected: seq<int>, prompts: seq<(nat, string)>,
                  images: seq<Option<Images.Bytes>>, valid: seq<nat>,
                  outcomes: seq<GenOutcome>, order: seq<nat>, appendOk: seq<bool>) returns (r: Reply)
    requires |outcomes| == |prompts| == |appendOk| && Completes(order, |prompts|)
    modifies record`generated
    ensures r.NoReference? <==> selected == []
    ensures r.NoPrompts? <==> selected != [] && prompts == []
    ensures r.BadReference? <==> selected != [] && prompts != [] && !ReferencesOk(selected, images, valid)
    ensures !r.Generated? ==> record.generated == old(record.generated)
    ensures r.Generated? ==> r.list == Final(prompts, outcomes, order)
    ensures r.Generated? ==> record.generated == old(record.generated) + Stream(prompts, outcomes, order, appendOk)
  {
    if selected == [] {
      return NoReference;
    }
    if prompts == [] {
      return NoPrompts;
    }
    if !ReferencesOk(selected, images, valid) {
      return BadReference;
    }
    CompletesAll(order, |prompts|);
    CompletesLength(order, |prompts|);
    var generated := RunTasks(record, Results(prompts, outcomes), order, appendOk);
    return Generated(Sort(generated, SORT_KEY));
  }

  /** The as_completed loop. */
  method RunTasks(record: ImportRecord, results: seq<Item>, order: seq<nat>, appendOk: seq<bool>)
    returns (generated: seq<Item>)
    requires |order| == |appendOk| && forall k :: 0 <= k < |order| ==> order[k] < |results|
    modifies record`generated
    ensures generated == Gathered(results, order)
    ensures record.generated == old(record.generated) + Appended(generated, appendOk)
  {
    generated := [];
    ghost var all := Gathered(results, order);
    for k := 0 to |order|
      invariant generated == all[..k]
      invariant record.generated == old(record.generated) + Appended(all[..k], appendOk[..k])
    {
      var result := results[order[k]];
      generated := generated + [result];
      assert all[..k + 1][..k] == all[..k] && appendOk[..k + 1][..k] == appendOk[..k];
      if result.image != "" && appendOk[k] {
        record.AppendGeneratedImage(Streamed(result));
      }
    }
    assert all[..|order|] == all && appendOk[..|order|] == appendOk;
  }

  lemma CompletesLength(order: seq<nat>, n: nat)
    requires Completes(order, n)
    ensures |order| == n
  {
    assert |multiset(order)| == |order| && |multiset(Upto(n))| == n;
  }

  // ----- completion order does not matter -----

  lemma ResultsKeys(prompts: seq<(nat, string)>, outcomes: seq<GenOutcome>)
    requires |outcomes| == |prompts|
    ensures forall k :: 0 <= k < |prompts| ==> SORT_KEY(Results(prompts, outcomes)[k]) == prompts[k].0
  {
    forall k | 0 <= k < |prompts|
      ensures SORT_KEY(Results(prompts, outcomes)[k]) == prompts[k].0
    {
      KeyOfTask(prompts[k].0, prompts[k].1, outcomes[k]);
    }
  }

  lemma ResultsDistinct(prompts: seq<(nat, string)>, outcomes: seq<GenOutcome>)
    requires |outcomes| == |prompts|
    ensures DistinctNumbers(prompts) ==> DistinctKeys(Results(prompts, outcomes), SORT_KEY)
    ensures SortedNumbers(prompts) ==> Sorted(Results(prompts, outcomes), SORT_KEY)
  {
    ResultsKeys(prompts, outcomes);
  }

  predicate SortedNumbers(prompts: seq<(nat, string)>)
  {
    forall i, j :: 0 <= i < j < |prompts| ==> prompts[i].0 <= prompts[j].0
  }

  /** The final list in one completion order. */
  ghost function Final(prompts: seq<(nat, string)>, outcomes: seq<GenOutcome>, order: seq<nat>): seq<Item>
    requires |outcomes| == |prompts| && Completes(order, |prompts|)
  {
    GatheredBag(Results(prompts, outcomes), order);
    Sort(Gathered(Results(prompts, outcomes), order), SORT_KEY)
  }

  /** With distinct prompt numbers, the final list is the list sorted by number, whatever the order; when the
      prompts come sorted, as validation leaves them, it is result by result that of the prompts. */
  lemma FinalIsCanonical(prompts: seq<(nat, string)>, outcomes: seq<GenOutcome>, order: seq<nat>)
    requires |outcomes| == |prompts| && Completes(order, |prompts|) && DistinctNumbers(prompts)
    ensures Final(prompts, outcomes, order) == Sort(Results(prompts, outcomes), SORT_KEY)
    ensures SortedNumbers(prompts) ==> Final(prompts, outcomes, order) == Results(prompts, outcomes)
  {
    var results := Results(prompts, outcomes);
    GatheredBag(results, order);
    ResultsDistinct(prompts, outcomes);
    SortPermuted(results, Gathered(results, order), SORT_KEY);
    if SortedNumbers(prompts) {
      SortFixed(results, SORT_KEY);
    }
  }

  /** The entries that reach the import while the tasks finish. */
  ghost function Stream(prompts: seq<(nat, string)>, outcomes: seq<GenOutcome>, order: seq<nat>,
                        appendOk: seq<bool>): seq<Item>
    requires |outcomes| == |prompts| == |appendOk| && Completes(order, |prompts|)
  {
    CompletesAll(order, |prompts|);
    CompletesLength(order, |prompts|);
    Appended(Gathered(Results(prompts, outcomes), order), appendOk)
  }

  ghost predicate OrderIndependent(prompts: seq<(nat, string)>)
  {
    forall outcomes: seq<GenOutcome>, a: seq<nat>, b: seq<nat>
      {:trigger Final(prompts, outcomes, a), Final(prompts, outcomes, b)} ::
      |outcomes| == |prompts| && Completes(a, |prompts|) && Completes(b, |prompts|) ==>
        Final(prompts, outcomes, a) == Final(prompts, outcomes, b)
  }

  /** The last prompt that shares its number with an earlier one of the same number. */
  lemma LastTwin(prompts: seq<(nat, string)>) returns (i: nat, j: nat)
    requires !DistinctNumbers(prompts)
    ensures i < j < |prompts| && prompts[i].0 == prompts[j].0
    ensures forall p :: j < p < |prompts| ==> prompts[p].0 != prompts[j].0
  {
    i, j :| 0 <= i < j < |prompts| && prompts[i].0 == prompts[j].0;
    var q := j;
    while q + 1 < |prompts|
      invariant i < j <= q < |prompts| && prompts[i].0 == prompts[j].0
      invariant forall p :: j < p <= q ==> prompts[p].0 != prompts[j].0
    {
      q := q + 1;
      if prompts[q].0 == prompts[j].0 {
        j := q;
      }
    }
  }

  function Swapped(n: nat, i: nat, j: nat): seq<nat>
    requires i < j < n
  {
    Upto(n)[i := j][j := i]
  }

  lemma SwappedCompletes(n: nat, i: nat, j: nat)
    requires i < j < n
    ensures Completes(Swapped(n, i, j), n)
  {
    var s := Upto(n);
    var s': seq<nat> := s[i := j];
    assert multiset(s') == multiset(s) - multiset{i} + multiset{j};
    assert multiset(s'[j := i]) == multiset(s') - multiset{j} + multiset{i};
  }

  lemma SwapShows<T>(xs: seq<T>, key: T -> int, i: nat, j: nat)
    requires i < j < |xs| && key(xs[i]) == key(xs[j]) && xs[i] != xs[j]
    requires forall p :: j < p < |xs| ==> key(xs[p]) != key(xs[j])
    ensures Sort(Gathered(xs, Upto(|xs|)), key) != Sort(Gathered(xs, Swapped(|xs|, i, j)), key)
  {
    var a, b := Gathered(xs, Upto(|xs|)), Gathered(xs, Swapped(|xs|, i, j));
    assert a[j] == xs[j] && b[j] == xs[i];
    assert forall p :: j < p < |xs| ==> a[p] == xs[p] && b[p] == xs[p];
    LastShows(a, b, key, key(xs[j]), j);
  }

  /** Swapping the completions of two tasks of one number, the later the last of that number, swaps their
      results in the final list. */
  lemma {:induction false} TwinsDiffer(prompts: seq<(nat, string)>, outcomes: seq<GenOutcome>, i: nat, j: nat)
    requires |outcomes| == |prompts| && i < j < |prompts| && prompts[i].0 == prompts[j].0
    requires forall p :: j < p < |prompts| ==> prompts[p].0 != prompts[j].0
    requires Results(prompts, outcomes)[i] != Results(prompts, outcomes)[j]
    ensures Completes(Upto(|prompts|), |prompts|) && Completes(Swapped(|prompts|, i, j), |prompts|)
    ensures Final(prompts, outcomes, Upto(|prompts|)) != Final(prompts, outcomes, Swapped(|prompts|, i, j))
  {
    SwappedCompletes(|prompts|, i, j);
    ResultsKeys(prompts, outcomes);
    SwapShows(Results(prompts, outcomes), SORT_KEY, i, j);
  }

  /** Two prompts with one number (image_1 and image_01, say) make the completion order visible. */
  lemma TwinsShowOrder(prompts: seq<(nat, string)>)
    requires !DistinctNumbers(prompts)
    ensures !OrderIndependent(prompts)
  {
    var i, j := LastTwin(prompts);
    var n := |prompts|;
    var outcomes := seq(n, k requires 0 <= k < n => if k == i then Success("a") else Success("bb"));
    assert Results(prompts, outcomes)[i].image == "a" && Results(prompts, outcomes)[j].image == "bb";
    assert |"a"| == 1 && |"bb"| == 2;
    TwinsDiffer(prompts, outcomes, i, j);
  }

  /** The final list is the same for all outcomes and completion orders exactly when the numbers are distinct. */
  lemma OrderIndependentIff(prompts: seq<(nat, string)>)
    ensures OrderIndependent(prompts) <==> DistinctNumbers(prompts)
  {
    if DistinctNumbers(prompts) {
      forall outcomes: seq<GenOutcome>, a: seq<nat>, b: seq<nat> |
        |outcomes| == |prompts| && Completes(a, |prompts|) && Completes(b, |prompts|)
        ensures Final(prompts, outcomes, a) == Final(prompts, outcomes, b)
      {
        FinalIsCanonical(prompts, outcomes, a);
        FinalIsCanonical(prompts, outcomes, b);
      }
    } else {
      TwinsShowOrder(prompts);
    }
  }

  // ----- what was delivered -----

  /** A task counts as delivered when it succeeded with an image. */
  predicate Delivers(o: GenOutcome) { o.Success? && o.url != "" }

  const DELIVERS: GenOutcome -> bool := (o: GenOutcome) => Delivers(o)

  /** One entry for each task that delivered: its name and its url. */
  function Wanted(prompts: seq<(nat, string)>, outcomes: seq<GenOutcome>): seq<Item>
    requires |outcomes| == |prompts|
  {
    if prompts == [] then []
    else
      var n := |prompts| - 1;
      Wanted(prompts[..n], outcomes[..n]) + EntryOf(prompts[n].0, outcomes[n])
  }

  /** What each task left: its name, and its image or its error. */
  lemma ResultFields(prompts: seq<(nat, string)>, outcomes: seq<GenOutcome>, k: nat)
    requires |outcomes| == |prompts| && k < |prompts|
    ensures var g := Results(prompts, outcomes)[k];
      && g.imageType == "image_" + Print(prompts[k].0) && g.prompt == prompts[k].1
      && g.source == "" && !g.deleted
      && g.image == (if outcomes[k].Success? then outcomes[k].url else "")
      && g.error == (if outcomes[k].Failure? then outcomes[k].error else "")
  {
  }

  /** The entry a task contributes, if it delivered. */
  function EntryOf(n: nat, o: GenOutcome): seq<Item>
  {
    match o
    case Success(url) => if url != "" then [Item("image_" + Print(n), url, "", false, "", "")] else []
    case Failure(_) => []
  }

  lemma EntryOfResult(n: nat, prompt: string, o: GenOutcome)
    ensures var g := ResultOf(n, prompt, o); (if g.image != "" then [Streamed(g)] else []) == EntryOf(n, o)
    ensures |EntryOf(n, o)| == if Delivers(o) then 1 else 0
  {
  }

  lemma ResultsFront(prompts: seq<(nat, string)>, outcomes: seq<GenOutcome>)
    requires |outcomes| == |prompts| > 0
    ensures var n := |prompts| - 1;
      Results(prompts, outcomes) ==
        Results(prompts[..n], outcomes[..n]) + [ResultOf(prompts[n].0, prompts[n].1, outcomes[n])]
  {
  }

  /** Delivered are the successes, in prompt order; failures are not. */
  lemma {:induction false} DeliveredIsWanted(prompts: seq<(nat, string)>, outcomes: seq<GenOutcome>)
    requires |outcomes| == |prompts|
    ensures Delivered(Results(prompts, outcomes)) == Wanted(prompts, outcomes)
    ensures |Wanted(prompts, outcomes)| == CountIf(outcomes, DELIVERS)
    decreases |prompts|
  {
    if prompts == [] {
    } else {
      var n := |prompts| - 1;
      DeliveredIsWanted(prompts[..n], outcomes[..n]);
      ResultsFront(prompts, outcomes);
      EntryOfResult(prompts[n].0, prompts[n].1, outcomes[n]);
      DeliveredNext(Results(prompts[..n], outcomes[..n]), ResultOf(prompts[n].0, prompts[n].1, outcomes[n]));
    }
  }

  /** In any completion order the final list delivers exactly the successes, name by name and url by url. */
  lemma FinalDelivers(prompts: seq<(nat, string)>, outcomes: seq<GenOutcome>, order: seq<nat>)
    requires |outcomes| == |prompts| && Completes(order, |prompts|)
    ensures multiset(Final(prompts, outcomes, order)) == multiset(Results(prompts, outcomes))
    ensures multiset(Delivered(Final(prompts, outcomes, order))) == multiset(Wanted(prompts, outcomes))
    ensures |Delivered(Final(prompts, outcomes, order))| == CountIf(outcomes, DELIVERS)
  {
    var results := Results(prompts, outcomes);
    GatheredBag(results, order);
    SortOk(Gathered(results, order), SORT_KEY);
    DeliveredBag(results, Final(prompts, outcomes, order));
    DeliveredIsWanted(prompts, outcomes);
    SameLength(Delivered(results), Delivered(Final(prompts, outcomes, order)));
  }

  // ----- what was streamed -----

  lemma DeliveredThree(a: seq<Item>, b: seq<Item>, c: seq<Item>)
    ensures Delivered(a + b + c) == Delivered(a) + Delivered(b) + Delivered(c)
    ensures Delivered(a + c) == Delivered(a) + Delivered(c)
  {
    SelectConcat(a + b, c, HAS_IMAGE, STREAM);
    SelectConcat(a, b, HAS_IMAGE, STREAM);
    SelectConcat(a, c, HAS_IMAGE, STREAM);
  }

  lemma ThreeParts<T>(xs: seq<T>, i: nat)
    requires i < |xs|
    ensures xs == xs[..i] + [xs[i]] + xs[i + 1..]
    ensures Without(xs, i) == xs[..i] + xs[i + 1..]
  {
  }

  lemma DeliveredWithout(xs: seq<Item>, i: nat)
    requires i < |xs|
    ensures multiset(Delivered(xs)) == multiset(Delivered(Without(xs, i))) + multiset(Delivered([xs[i]]))
  {
    ThreeParts(xs, i);
    DeliveredThree(xs[..i], [xs[i]], xs[i + 1..]);
    BagOfThree(Delivered(xs[..i]), Delivered([xs[i]]), Delivered(xs[i + 1..]));
  }

  lemma BagOfThree<T>(a: seq<T>, b: seq<T>, c: seq<T>)
    ensures multiset(a + b + c) == multiset(a + c) + multiset(b)
  {
  }

  lemma {:induction false} DeliveredBag(a: seq<Item>, b: seq<Item>)
    requires multiset(a) == multiset(b)
    ensures multiset(Delivered(a)) == multiset(Delivered(b))
    decreases |a|
  {
    SameLength(a, b);
    if a == [] {
    } else {
      assert a[0] in multiset(b);
      var j :| 0 <= j < |b| && b[j] == a[0];
      BagWithout(a, 0);
      BagWithout(b, j);
      assert multiset(Without(a, 0)) == multiset(a) - multiset{a[0]};
      assert multiset(Without(b, j)) == multiset(b) - multiset{b[j]};
      DeliveredBag(Without(a, 0), Without(b, j));
      DeliveredWithout(a, 0);
      DeliveredWithout(b, j);
    }
  }

  lemma DeliveredNext(front: seq<Item>, g: Item)
    ensures Delivered(front + [g]) == Delivered(front) + (if g.image != "" then [Streamed(g)] else [])
  {
    SelectConcat(front, [g], HAS_IMAGE, STREAM);
    SelectOne(g, HAS_IMAGE, STREAM);
  }

  /** With every append a success, what is streamed is what is delivered. */
  lemma {:induction false} AllAppended(xs: seq<Item>, appendOk: seq<bool>)
    requires |appendOk| == |xs| && forall k :: 0 <= k < |xs| ==> appendOk[k]
    ensures Appended(xs, appendOk) == Delivered(xs)
    decreases |xs|
  {
    if xs == [] {
    } else {
      var n := |xs| - 1;
      AllAppended(xs[..n], appendOk[..n]);
      assert xs == xs[..n] + [xs[n]];
      DeliveredNext(xs[..n], xs[n]);
    }
  }

  lemma {:induction false} AppendedWithin(xs: seq<Item>, appendOk: seq<bool>)
    requires |appendOk| == |xs|
    ensures multiset(Appended(xs, appendOk)) <= multiset(Delivered(xs))
    decreases |xs|
  {
    if xs == [] {
    } else {
      var n := |xs| - 1;
      var front, g := xs[..n], xs[n];
      AppendedWithin(front, appendOk[..n]);
      assert xs == front + [g];
      DeliveredNext(front, g);
      BagGrows(Appended(front, appendOk[..n]), Delivered(front),
               if g.image != "" && appendOk[n] then [Streamed(g)] else [], if g.image != "" then [Streamed(g)] else []);
    }
  }

  /** Task by task: an entry is streamed exactly when the task left an image and its append did not fail. */
  lemma AppendedNext(xs: seq<Item>, appendOk: seq<bool>, g: Item, ok: bool)
    requires |appendOk| == |xs|
    ensures Appended(xs + [g], appendOk + [ok]) ==
      Appended(xs, appendOk) +
      (if ok && g.image != "" then [Item(g.imageType, g.image, "", false, "", "")] else [])
  {
    assert (xs + [g])[..|xs|] == xs && (appendOk + [ok])[..|xs|] == appendOk;
  }

  lemma BagGrows<T>(a: seq<T>, b: seq<T>, x: seq<T>, y: seq<T>)
    requires multiset(a) <= multiset(b) && (x == y || x == [])
    ensures multiset(a + x) <= multiset(b + y)
  {
  }

  /** The entries streamed while the tasks ran are among the successes of the final list; when no append fails
      they are those successes, rearranged. */
  lemma StreamedMatchesFinal(prompts: seq<(nat, string)>, outcomes: seq<GenOutcome>, order: seq<nat>,
                             appendOk: seq<bool>)
    requires |outcomes| == |prompts| == |appendOk| && Completes(order, |prompts|)
    ensures var streamed := Stream(prompts, outcomes, order, appendOk);
      var delivered := Delivered(Final(prompts, outcomes, order));
      && multiset(streamed) <= multiset(delivered)
      && ((forall k :: 0 <= k < |appendOk| ==> appendOk[k]) ==> multiset(streamed) == multiset(delivered))
  {
    CompletesAll(order, |prompts|);
    CompletesLength(order, |prompts|);
    var all := Gathered(Results(prompts, outcomes), order);
    AppendedWithin(all, appendOk);
    if forall k :: 0 <= k < |appendOk| ==> appendOk[k] {
      AllAppended(all, appendOk);
    }
    SortOk(all, SORT_KEY);
    DeliveredBag(all, Final(prompts, outcomes, order));
  }
}
