/** Reference images: parallel download into aligned lists, the list shown to the model, and the way back from
    the model's 1-based indexes to the downloaded bytes. */
module Images {
  import opened Common
  import opened Completion
  import opened StableSort
  import opened Text

  type Bytes = seq<nat>

  // ----- download and alignment -----

  /** Positions of the images that were downloaded. */
  function ValidIndices(images: seq<Option<Bytes>>): (r: seq<nat>)
    ensures |r| <= |images|
    ensures forall k :: 0 <= k < |r| ==> r[k] < |images| && images[r[k]].Some?
    ensures forall j, k :: 0 <= j < k < |r| ==> r[j] < r[k]
    ensures forall i :: 0 <= i < |images| && images[i].Some? ==> i in r
  {
    if images == [] then []
    else
      var last := |images| - 1;
      ValidIndices(images[..last]) + (if images[last].Some? then [last] else [])
  }

  /** [b for b in xs if b is not None]. */
  function Present<T>(xs: seq<Option<T>>): seq<T>
  {
    if xs == [] then []
    else Present(xs[..|xs| - 1]) + (if xs[|xs| - 1].Some? then [xs[|xs| - 1].value] else [])
  }

  function Encoded(images: seq<Option<Bytes>>, encode: Bytes -> string): (r: seq<Option<string>>)
    ensures |r| == |images|
    ensures forall k :: 0 <= k < |r| ==>
      r[k] == match images[k] case Some(raw) => Some(encode(raw)) case None => None
  {
    seq(|images|, k requires 0 <= k < |images| =>
      match images[k] case Some(raw) => Some(encode(raw)) case None => None)
  }

  /** The filtered encodings and the filtered positions stay in step. */
  lemma {:induction false} Aligned(images: seq<Option<Bytes>>, encode: Bytes -> string)
    ensures |Present(Encoded(images, encode))| == |ValidIndices(images)|
    ensures forall k :: 0 <= k < |ValidIndices(images)| ==>
      Present(Encoded(images, encode))[k] == encode(images[ValidIndices(images)[k]].value)
    decreases |images|
  {
    if images == [] {
    } else {
      var last := |images| - 1;
      Aligned(images[..last], encode);
      assert Encoded(images, encode)[..last] == Encoded(images[..last], encode);
    }
  }

  /** fetched[idx] = item, in completion order. */
  method Gather(outcomes: seq<Option<Bytes>>, order: seq<nat>) returns (fetched: map<nat, Option<Bytes>>)
    requires Completes(order, |outcomes|)
    ensures forall i :: 0 <= i < |outcomes| ==> i in fetched && fetched[i] == outcomes[i]
  {
    CompletesAll(order, |outcomes|);
    fetched := map[];
    for k := 0 to |order|
      invariant forall i :: i in fetched <==> i in order[..k]
      invariant forall i :: i in fetched ==> i < |outcomes| && fetched[i] == outcomes[i]
    {
      assert order[..k + 1] == order[..k] + [order[k]];
      fetched := fetched[order[k] := outcomes[order[k]]];
    }
    assert order[..|order|] == order;
  }

  method FillLists(outcomes: seq<Option<Bytes>>, fetched: map<nat, Option<Bytes>>, encode: Bytes -> string)
    returns (images: seq<Option<Bytes>>, b64: seq<Option<string>>)
    requires forall i :: 0 <= i < |outcomes| ==> i in fetched && fetched[i] == outcomes[i]
    ensures images == outcomes && b64 == Encoded(outcomes, encode)
  {
    var n := |outcomes|;
    var bytesList := new Option<Bytes>[n](_ => None);
    var b64List := new Option<string>[n](_ => None);
    for i := 0 to n
      invariant forall k :: 0 <= k < i ==> bytesList[k] == outcomes[k] && b64List[k] == Encoded(outcomes, encode)[k]
      invariant forall k :: i <= k < n ==> bytesList[k] == None && b64List[k] == None
    {
      var item := fetched[i];
      if item.Some? {
        bytesList[i] := item;
        b64List[i] := Some(encode(item.value));
      }
    }
    images, b64 := bytesList[..], b64List[..];
  }

  /** Tasks complete in any order; the lists come out in the order of the urls. */
  method DownloadImagesParallel(outcomes: seq<Option<Bytes>>, order: seq<nat>, encode: Bytes -> string)
    returns (images: seq<Option<Bytes>>, b64: seq<Option<string>>, valid: seq<nat>)
    requires Completes(order, |outcomes|)
    ensures images == outcomes
    ensures b64 == Encoded(outcomes, encode)
    ensures valid == ValidIndices(outcomes)
  {
    var fetched := Gather(outcomes, order);
    images, b64 := FillLists(outcomes, fetched, encode);
    valid := [];
    for i := 0 to |images|
      invariant valid == ValidIndices(images[..i])
    {
      assert images[..i + 1][..i] == images[..i];
      if images[i].Some? {
        valid := valid + [i];
      }
    }
    assert images[..|images|] == images;
  }

  // ----- the model's answer -----

  /** An entry of a list is what int() makes of it, None when int() raises. */
  datatype Value = List(items: seq<Option<int>>) | Other(text: string)

  datatype Invalid = NotAList | NotAnInt | WrongCount | Repeated | OutOfRange

  datatype Validated =
    | Accepted(indexes: seq<int>, prompts: seq<(nat, string)>)
    | Rejected(reason: Invalid)

  predicate Distinct(xs: seq<int>) { forall i, j :: 0 <= i < j < |xs| ==> xs[i] != xs[j] }

  /** re.fullmatch(r"image_(\d+)", key). */
  function PromptNumber(key: string): Option<nat>
  {
    if |key| > 6 && key[..6] == "image_" && AllDigits(key[6..]) then Some(Parse(key[6..])) else None
  }

  /** Different keys can carry the same number. */
  lemma SharedNumber()
    ensures "image_1" != "image_01"
    ensures PromptNumber("image_1") == Some(1) && PromptNumber("image_01") == Some(1)
  {
    var a, b := "image_1", "image_01";
    assert |a| == 7 && |b| == 8;
    assert a[..6] == "image_" && a[6..] == "1" && b[..6] == "image_" && b[6..] == "01";
    assert "01"[..1] == "0" && "1"[..0] == "" && "0"[..0] == "";
  }

  function TextOf(v: Value): string
  {
    match v case Other(t) => Strip(t) case List(_) => "[...]"
  }

  /** No other key carries a number. */
  lemma NumberedKey(key: string)
    ensures PromptNumber(key).Some? ==>
      exists digits :: digits != "" && AllDigits(digits) && key == "image_" + digits
        && PromptNumber(key).value == Parse(digits)
  {
    if PromptNumber(key).Some? {
      var digits := key[6..];
      assert key == "image_" + digits;
    }
  }

  predicate IsPrompt(entry: (string, Value)) { PromptNumber(entry.0).Some? }

  const IS_PROMPT: ((string, Value)) -> bool := (entry: (string, Value)) => IsPrompt(entry)

  /** The key image_n carries number n. */
  lemma NumberOfKey(n: nat)
    ensures PromptNumber("image_" + Print(n)) == Some(n)
  {
    var key := "image_" + Print(n);
    assert |"image_"| == 6;
    assert key[..6] == "image_" && key[6..] == Print(n);
    PrintParse(n);
  }

  /** The prompt of a key with a number. */
  function AsPrompt(entry: (string, Value)): (nat, string)
  {
    match PromptNumber(entry.0)
    case Some(n) => (n, TextOf(entry.1))
    case None => (0, "")
  }

  const AS_PROMPT: ((string, Value)) -> (nat, string) := (entry: (string, Value)) => AsPrompt(entry)

  function PromptsOf(payload: seq<(string, Value)>): seq<(nat, string)> { Select(payload, IS_PROMPT, AS_PROMPT) }

  /** Every key with a number gives one prompt, with that number and the stripped text; no other key does. */
  lemma PromptsFound(payload: seq<(string, Value)>)
    ensures forall key, text, n :: (key, Other(text)) in payload && PromptNumber(key) == Some(n) ==>
      (n, Strip(text)) in PromptsOf(payload)
    ensures forall p :: p in PromptsOf(payload) ==>
      exists entry :: entry in payload && PromptNumber(entry.0) == Some(p.0) && TextOf(entry.1) == p.1
    ensures |PromptsOf(payload)| == CountIf(payload, IS_PROMPT)
  {
    SelectMembers(payload, IS_PROMPT, AS_PROMPT);
    forall key, text, n | (key, Other(text)) in payload && PromptNumber(key) == Some(n)
      ensures (n, Strip(text)) in PromptsOf(payload)
    {
      assert IS_PROMPT((key, Other(text))) && AS_PROMPT((key, Other(text))) == (n, Strip(text));
    }
    forall p | p in PromptsOf(payload)
      ensures exists entry :: entry in payload && PromptNumber(entry.0) == Some(p.0) && TextOf(entry.1) == p.1
    {
      var entry :| entry in payload && IS_PROMPT(entry) && AS_PROMPT(entry) == p;
    }
  }

  const PROMPT_KEY: ((nat, string)) -> int := (p: (nat, string)) => p.0

  predicate AllInts(items: seq<Option<int>>) { forall k :: 0 <= k < |items| ==> items[k].Some? }

  function Ints(items: seq<Option<int>>): (r: seq<int>)
    requires AllInts(items)
    ensures |r| == |items| && forall k :: 0 <= k < |r| ==> items[k] == Some(r[k])
  {
    seq(|items|, k requires 0 <= k < |items| => items[k].value)
  }

  predicate InRange(xs: seq<int>, imageCount: nat) { forall i :: i in xs ==> 1 <= i <= imageCount }

  /** [int(i) for i in items]; None when some int() raises. */
  method ToInts(items: seq<Option<int>>) returns (r: Option<seq<int>>)
    ensures r.Some? <==> AllInts(items)
    ensures r.Some? ==> r.value == Ints(items)
  {
    var xs: seq<int> := [];
    for k := 0 to |items|
      invariant |xs| == k && forall j :: 0 <= j < k ==> items[j] == Some(xs[j])
    {
      if items[k].None? {
        return None;
      }
      xs := xs + [items[k].value];
    }
    return Some(xs);
  }

  predicate IsList(raw: Option<Value>) { raw.Some? && raw.value.List? }

  predicate IsIntList(raw: Option<Value>) { IsList(raw) && AllInts(raw.value.items) }

  /** `payload` is the answer's object, in order; `raw` its selected_reference_image_indexes. */
  method Validate(payload: seq<(string, Value)>, raw: Option<Value>, imageCount: nat) returns (r: Validated)
    ensures r == Rejected(NotAList) <==> raw.None? || !raw.value.List?
    ensures r == Rejected(NotAnInt) <==> IsList(raw) && !AllInts(raw.value.items)
    ensures r == Rejected(WrongCount) <==> IsIntList(raw) && |raw.value.items| !in {2, 3}
    ensures r == Rejected(Repeated) <==>
      IsIntList(raw) && |raw.value.items| in {2, 3} && !Distinct(Ints(raw.value.items))
    ensures r == Rejected(OutOfRange) <==>
      && IsIntList(raw) && |raw.value.items| in {2, 3} && Distinct(Ints(raw.value.items))
      && !InRange(Ints(raw.value.items), imageCount)
    ensures r.Accepted? <==>
      && IsIntList(raw) && |raw.value.items| in {2, 3} && Distinct(Ints(raw.value.items))
      && InRange(Ints(raw.value.items), imageCount)
    ensures r.Accepted? ==> r.indexes == Ints(raw.value.items)
    ensures r.Accepted? ==> r.prompts == Sort(PromptsOf(payload), PROMPT_KEY)
  {
    if raw.None? || !raw.value.List? {
      return Rejected(NotAList);
    }
    var ints := ToInts(raw.value.items);
    if ints.None? {
      return Rejected(NotAnInt);
    }
    var indexes := ints.value;
    if |indexes| < 2 || |indexes| > 3 {
      return Rejected(WrongCount);
    }
    if exists i, j :: 0 <= i < j < |indexes| && indexes[i] == indexes[j] {
      return Rejected(Repeated);
    }
    if exists i :: i in indexes && (i < 1 || i > imageCount) {
      return Rejected(OutOfRange);
    }
    var prompts: seq<(nat, string)> := [];
    for k := 0 to |payload|
      invariant prompts == PromptsOf(payload[..k])
    {
      assert payload[..k + 1] == payload[..k] + [payload[k]];
      SelectConcat(payload[..k], [payload[k]], IS_PROMPT, AS_PROMPT);
      SelectOne(payload[k], IS_PROMPT, AS_PROMPT);
      var (key, value) := payload[k];
      match PromptNumber(key) {
        case None =>
        case Some(n) => prompts := prompts + [(n, TextOf(value))];
      }
    }
    assert payload[..|payload|] == payload;
    return Accepted(indexes, Sort(prompts, PROMPT_KEY));
  }

  // ----- from indexes back to bytes -----

  /** Python's xs[i]: negative positions count from the end, others raise. */
  function At<T>(xs: seq<T>, i: int): Option<T>
  {
    if 0 <= i < |xs| then Some(xs[i])
    else if -|xs| <= i < 0 then Some(xs[|xs| + i])
    else None
  }

  /** image_bytes_list[valid_indices[idx - 1]]; None is an exception. */
  function Reference(images: seq<Option<Bytes>>, valid: seq<nat>, idx: int): Option<Option<Bytes>>
  {
    match At(valid, idx - 1)
    case None => None
    case Some(pos) => At(images, pos)
  }

  /** Every index that passes validation leads, without exception, to the bytes whose encoding stood at that
      1-based position of the list shown to the model. */
  lemma ReferencesFound(images: seq<Option<Bytes>>, encode: Bytes -> string, idx: int)
    requires 1 <= idx <= |Present(Encoded(images, encode))|
    ensures var shown := Present(Encoded(images, encode));
      var r := Reference(images, ValidIndices(images), idx);
      && r.Some? && r.value.Some?
      && encode(r.value.value) == shown[idx - 1]
  {
    Aligned(images, encode);
  }

  /** Different indexes lead to different source positions. */
  lemma ReferencesDistinct(images: seq<Option<Bytes>>, encode: Bytes -> string, idx: int, other: int)
    requires 1 <= idx <= |Present(Encoded(images, encode))| && 1 <= other <= |Present(Encoded(images, encode))|
    ensures At(ValidIndices(images), idx - 1) == At(ValidIndices(images), other - 1) <==> idx == other
  {
    Aligned(images, encode);
  }
}
