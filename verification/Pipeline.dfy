/** One pipeline run: parallel branches, image generation, final status and settlement; and repeated runs. */
module Pipeline {
  import opened Common
  import opened Ledger
  import Completion
  import Images
  import Generation
  import StableSort
  import BeanStore

  type Item = Generation.Item

  /** What the multimodal branch found. */
  datatype Analysis = Analysis(selected: seq<int>, prompts: seq<(nat, string)>)

  /** What everything outside the run does during one run: the stored import, the downloads, the models, the
      clock, the completion order of the image tasks, and which writes of the generation branch succeed. */
  datatype World = World(
    found: bool, rawFeatures: seq<string>, hasImages: bool, downloadOk: bool, images: seq<Option<Images.Bytes>>,
    titleOk: bool, analysis: Option<Analysis>, inTime: bool,
    outcomes: seq<Generation.GenOutcome>, order: seq<nat>, appendOk: seq<bool>, stored: bool, recorded: bool)
  {
    /** One outcome, one completion and one append for each prompt. */
    ghost predicate Valid()
    {
      analysis.Some? ==>
        && |outcomes| == |analysis.value.prompts| == |appendOk|
        && Completion.Completes(order, |outcomes|)
    }

    predicate Analysed() { hasImages && analysis.Some? }
  }

  datatype Outcome = NotFound | NoFeatures | DownloadFailed | GenerationFailed | Settled(op: Op)

  /** Successful images of a stored list. */
  function Successes(xs: seq<Item>): nat { |Generation.Delivered(xs)| }

  /** Settle what was delivered; release when nothing was. */
  function Settlement(user: int, i: int, features: seq<string>, titleOk: bool, analysed: bool, images: nat): Op
  {
    if titleOk || analysed || images > 0
    then Settle(user, i, HoldAmountFor(features), analysed, images, titleOk)
    else Release(user, i, HoldAmountFor(features))
  }

  /** What a run with these features does: which exit it takes, the status and the list it leaves, and the one
      ledger operation of a run that reaches settlement. */
  ghost predicate Executed(w: World, features: seq<string>, user: int, i: int, before: Trace, after: Trace, r: Outcome)
    requires w.Valid()
  {
    var llm, imageGen := "llm" in features, "image_gen" in features;
    var ran := imageGen && w.hasImages && w.analysis.Some?;
    var images := if ran then CountIf(w.outcomes, Generation.DELIVERS) else 0;
    && (r.NotFound? <==> !w.found)
    && (r.NoFeatures? <==> w.found && !llm && !imageGen)
    && (r.DownloadFailed? <==> w.found && (llm || imageGen) && w.hasImages && !w.downloadOk)
    && (r.GenerationFailed? <==> w.found && ran && (w.hasImages ==> w.downloadOk) && !GenerationWorks(w))
    && (r.NotFound? ==> after.status == before.status)
    && (r.NoFeatures? ==> after.status == "done")
    && (r.DownloadFailed? || r.GenerationFailed? ==> after.status == "error")
    && (r.NotFound? || r.NoFeatures? || r.DownloadFailed? ==> after.generated == before.generated)
    && (!r.Settled? ==> after.db == before.db)
    && (r.Settled? || r.GenerationFailed? ==>
          after.generated == (if ran then LeftBehind(w) else before.generated))
    && (r.Settled? ==>
          && after.status == (if (llm ==> w.titleOk) && (imageGen ==> ran) then "done" else "error")
          && (ran ==> after.generated == FinalList(w) && Successes(after.generated) == images)
          && r.op == Settlement(user, i, features, llm && w.titleOk, ran, images)
          && after.db == Apply(before.db, r.op)
          && (OpenUncharged(before.db, user, i) ==>
                && user in after.db.users
                && after.db.users[user].beans ==
                     before.db.users[user].beans - One(llm && w.titleOk) - One(ran) - images))
  }

  /** What a run can change. */
  datatype Trace = Trace(status: string, generated: seq<Item>, db: Db)

  ghost function TraceOf(record: Generation.ImportRecord, store: BeanStore.Store): Trace
    reads record, store
  {
    Trace(record.status, record.generated, store.State())
  }

  /** The import's own features count when there are any, those in its raw data otherwise. */
  method Execute(w: World, record: Generation.ImportRecord, store: BeanStore.Store, user: int, i: int)
    returns (r: Outcome)
    requires w.Valid()
    modifies record, store`users, store`log
    ensures i in store.features && store.features[i] != [] ==>
      Executed(w, store.features[i], user, i, old(TraceOf(record, store)), TraceOf(record, store), r)
    ensures i !in store.features || store.features[i] == [] ==>
      Executed(w, w.rawFeatures, user, i, old(TraceOf(record, store)), TraceOf(record, store), r)
  {
    if !w.found {
      return NotFound;
    }
    var features := if i in store.features then store.features[i] else [];
    if features == [] {
      features := w.rawFeatures;
    }
    if "llm" !in features && "image_gen" !in features {
      record.status := "done";
      return NoFeatures;
    }
    r := RunFeatures(w, record, store, user, i, features);
  }

  /** The run proper, with at least one feature. */
  method RunFeatures(w: World, record: Generation.ImportRecord, store: BeanStore.Store, user: int, i: int,
                     features: seq<string>) returns (r: Outcome)
    requires w.Valid() && w.found && ("llm" in features || "image_gen" in features)
    modifies record, store`users, store`log
    ensures Executed(w, features, user, i, old(TraceOf(record, store)), TraceOf(record, store), r)
  {
    var llm, imageGen := "llm" in features, "image_gen" in features;
    var early, images := Produce(w, record, llm, imageGen);
    if early.Some? {
      return early.value;
    }
    if imageGen && w.Analysed() {
      Generation.FinalDelivers(w.analysis.value.prompts, w.outcomes, w.order);
    }
    var op := SettleRun(store, user, i, features, llm && w.titleOk, imageGen && w.Analysed(), images);
    return Settled(op);
  }

  /** Everything up to the final status: downloads, the parallel branches and the generation. An early exit is
      an error; otherwise the status is "done" when all that was asked for came out. */
  method Produce(w: World, record: Generation.ImportRecord, llm: bool, imageGen: bool)
    returns (early: Option<Outcome>, images: nat)
    requires w.Valid()
    modifies record
    ensures var ran, downloads := imageGen && w.Analysed(), w.hasImages ==> w.downloadOk;
      && early == (if !downloads then Some(DownloadFailed)
                   else if ran && !GenerationWorks(w) then Some(GenerationFailed) else None)
      && record.generated == (if downloads && ran then LeftBehind(w) else old(record.generated))
      && images == (if early.None? && ran then Successes(record.generated) else 0)
      && record.status ==
           (if early.None? && (llm ==> w.titleOk) && (imageGen ==> w.Analysed()) then "done" else "error")
      && (early.None? && ran ==> LeftBehind(w) == FinalList(w))
  {
    record.status := "generating";
    if w.hasImages && !w.downloadOk {
      record.status := "error";
      return Some(DownloadFailed), 0;
    }
    var generated: seq<Item> := [];
    if imageGen && w.Analysed() {
      var ok;
      generated, ok := GenerateImages(w, record);
      if !ok {
        record.status := "error";
        return Some(GenerationFailed), 0;
      }
    }
    var titleDone := if llm then w.titleOk else true;
    var imagesDone := if imageGen then w.Analysed() else true;
    record.status := if titleDone && imagesDone then "done" else "error";
    return None, if imageGen && w.Analysed() then Successes(generated) else 0;
  }

  /** The end of a run: settle what came out, or release. With its hold open and uncharged, the run takes one
      bean for the title, one for the analysis and one for each stored success, and nothing when all failed. */
  method SettleRun(store: BeanStore.Store, user: int, i: int, features: seq<string>, titleOk: bool, analysed: bool,
                   images: nat) returns (op: Op)
    modifies store`users, store`log
    ensures op == Settlement(user, i, features, titleOk, analysed, images)
    ensures store.State() == Apply(old(store.State()), op)
    ensures OpenUncharged(old(store.State()), user, i) ==>
      && user in store.users
      && store.users[user].beans == old(store.users)[user].beans - One(titleOk) - One(analysed) - images
      && ChargeSum(store.log, i) == ChargeSum(old(store.log), i) - One(titleOk) - One(analysed) - images
  {
    ghost var before := store.State();
    var held := HoldAmountFor(features);
    if titleOk || analysed || images > 0 {
      var _ := store.SettleBeans(user, i, held, analysed, images, titleOk);
    } else {
      var _ := store.ReleaseBeans(user, i, held);
    }
    op := Settlement(user, i, features, titleOk, analysed, images);
    if OpenUncharged(before, user, i) {
      ChargeEqualsDelivery(before, user, i, features, titleOk, analysed, images);
    }
  }

  /** The import's hold row is there and no close has left a charge. */
  predicate OpenUncharged(db: Db, user: int, i: int)
  {
    user in db.users && HasHold(db.log, i) && !HasNonZero(db.log, i)
  }

  /** The list that a generation without exception returns and stores. */
  ghost function FinalList(w: World): seq<Item>
    requires w.Valid() && w.analysis.Some?
  {
    Generation.Final(w.analysis.value.prompts, w.outcomes, w.order)
  }

  predicate ReplyOk(w: World)
    requires w.analysis.Some?
  {
    && w.analysis.value.selected != [] && w.analysis.value.prompts != []
    && Generation.ReferencesOk(w.analysis.value.selected, w.images, Images.ValidIndices(w.images))
  }

  /** Generation raises no exception and its result is written. */
  predicate GenerationWorks(w: World)
    requires w.analysis.Some?
  {
    w.inTime && ReplyOk(w) && w.stored && w.recorded
  }

  /** The list in the import after the generation branch: empty when no task ran, what was streamed when the
      final list could not be written, else the final list. */
  ghost function LeftBehind(w: World): seq<Item>
    requires w.Valid() && w.analysis.Some?
  {
    if !w.inTime || !ReplyOk(w) then []
    else if w.stored then FinalList(w)
    else Generation.Stream(w.analysis.value.prompts, w.outcomes, w.order, w.appendOk)
  }

  /** The generation branch: the list is emptied, filled as tasks finish, and replaced by the sorted list. */
  method GenerateImages(w: World, record: Generation.ImportRecord) returns (list: seq<Item>, ok: bool)
    requires w.Valid() && w.analysis.Some?
    modifies record
    ensures record.status == "generating"
    ensures ok <==> GenerationWorks(w)
    ensures record.generated == LeftBehind(w)
    ensures ok ==> list == record.generated == FinalList(w)
  {
    record.status := "generating";
    record.generated := [];
    if !w.inTime {
      return [], false;
    }
    var a := w.analysis.value;
    var reply := Generation.Generate(record, a.selected, a.prompts, w.images, Images.ValidIndices(w.images),
                                     w.outcomes, w.order, w.appendOk);
    if !reply.Generated? || !w.stored {
      return [], false;
    }
    record.generated := reply.list;
    return reply.list, w.recorded;
  }

  // ===== What a run charges =====

  function One(b: bool): nat { if b then 1 else 0 }

  /** With the hold still open, a run that reaches settlement charges one bean for the title, one for the
      analysis and one for each stored success, gives the hold back, and charges nothing when nothing came out. */
  lemma ChargeEqualsDelivery(db: Db, user: int, i: int, features: seq<string>, titleOk: bool, analysed: bool,
                             images: nat)
    requires OpenUncharged(db, user, i)
    ensures var db' := Apply(db, Settlement(user, i, features, titleOk, analysed, images));
      var cost := One(titleOk) + One(analysed) + images;
      && db'.users[user].beans == db.users[user].beans - cost
      && db'.users[user].frozen == db.users[user].frozen - Min(HoldAmountFor(features), db.users[user].frozen)
      && ChargeSum(db'.log, i) == ChargeSum(db.log, i) - cost
      && |db'.log| == |db.log| + 1
  {
    ChargeIsNonZero(db.log, i);
    ProbesStep(db, Settlement(user, i, features, titleOk, analysed, images), i);
  }

  /** With indexes that validation accepted for the images shown, generation fails only for want of prompts or
      time, or because its result cannot be written. */
  lemma AcceptedGenerationWorks(w: World, encode: Images.Bytes -> string)
    requires w.analysis.Some? && w.analysis.value.selected != []
    requires Images.InRange(w.analysis.value.selected, |Images.Present(Images.Encoded(w.images, encode))|)
    ensures GenerationWorks(w) <==> w.analysis.value.prompts != [] && w.inTime && w.stored && w.recorded
  {
    Generation.AcceptedReferencesOk(w.images, encode, w.analysis.value.selected);
  }

  /** The number of images charged is the number of tasks that delivered one, in every completion order and even
      when prompts share numbers. */
  lemma ChargeOrderFree(w: World, order: seq<nat>)
    requires w.Valid() && w.analysis.Some? && Completion.Completes(order, |w.outcomes|)
    ensures Successes(FinalList(w)) == CountIf(w.outcomes, Generation.DELIVERS)
    ensures Successes(FinalList(w.(order := order))) == CountIf(w.outcomes, Generation.DELIVERS)
  {
    Generation.FinalDelivers(w.analysis.value.prompts, w.outcomes, w.order);
    Generation.FinalDelivers(w.analysis.value.prompts, w.outcomes, order);
  }

  /** A run's cost stays within its hold exactly up to nine images, or ten when a title that was asked for
      failed. */
  lemma CostWithinIff(features: seq<string>, titleOk: bool, analysed: bool, images: nat)
    requires Possible(features, titleOk, analysed, images)
    ensures Cost(analysed, images, titleOk) <= HoldAmountFor(features) <==>
      images <= HOLD_IMAGES - HOLD_MULTIMODAL + One("llm" in features && !titleOk)
  {
  }
}
