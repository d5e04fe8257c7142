/** Attribute enrichment: pid, templatePid and vid looked up for each property of a product. */
module AttrEnrich {
  import opened Common
  import opened Text

  /** A JSON value; `Other` has the text str() gives it. */
  datatype Json = Null | Number(n: int) | Str(s: string) | Other(text: string, truthy: bool)

  predicate Truthy(v: Json)
  {
    match v
    case Null => false
    case Number(n) => n != 0
    case Str(s) => s != ""
    case Other(_, truthy) => truthy
  }

  function IntText(n: int): string { if n < 0 then "-" + Print(-n) else Print(n) }

  function TextOf(v: Json): string
  {
    match v
    case Null => "None"
    case Number(n) => IntText(n)
    case Str(s) => s
    case Other(text, _) => text
  }

  /** An object of the plugin or of the database: the keys the code reads, and the others. */
  datatype Prop = Prop(propName: Option<Json>, key: Option<Json>, propValue: Option<Json>, refPid: Option<Json>,
                       pid: Option<Json>, templatePid: Option<Json>, numberInputValue: Option<Json>,
                       valueUnit: Option<Json>, vid: Option<Json>, others: map<string, Json>)

  const EMPTY: Prop := Prop(None, None, None, None, None, None, None, None, None, map[])

  datatype Entry = Text(s: string) | Id(n: int) | Object(fields: Prop)

  datatype Db = Db(props: map<string, Prop>, values: map<string, Entry>, refPid: map<string, Json>,
                   names: map<string, Json>, defaultTemplatePid: map<string, Json>,
                   templates: map<string, map<string, Json>>)

  const EXCLUDED: set<string> := {"商品编号", "产地"}

  // ----- lookups -----

  function Get(field: Option<Json>, default: Json): Json { if field.Some? then field.value else default }

  function Or(v: Json): Json { if Truthy(v) then v else Str("") }

  /** str(field or ""). */
  function TextOr(field: Option<Json>): string { TextOf(Or(Get(field, Str("")))) }

  function NameField(p: Prop): Json { Get(p.propName, Get(p.key, Str(""))) }

  function Name(p: Prop): string { Strip(TextOf(NameField(p))) }

  function ValueField(p: Prop): Json { Get(p.propValue, Str("")) }

  function ToIntStr(v: Json): string { if v == Null then "" else Strip(TextOf(v)) }

  function RefOf(p: Prop): string { ToIntStr(Get(p.refPid, Str(""))) }

  function Found(table: map<string, Json>, key: string): Option<string>
  {
    if key != "" && key in table && Truthy(table[key]) then Some(TextOf(table[key])) else None
  }

  function ResolvePid(db: Db, ref: string, name: string): string
  {
    if Found(db.refPid, ref).Some? then Found(db.refPid, ref).value
    else if Found(db.names, name).Some? then Found(db.names, name).value
    else if name != "" && name in db.props && db.props[name] != EMPTY then TextOr(db.props[name].pid)
    else ""
  }

  function ResolveTemplatePid(db: Db, pid: string, name: string, category: string): string
  {
    if category != "" && category in db.templates && Found(db.templates[category], pid).Some?
    then Found(db.templates[category], pid).value
    else if Found(db.defaultTemplatePid, pid).Some? then Found(db.defaultTemplatePid, pid).value
    else if name != "" && name in db.props && db.props[name] != EMPTY then TextOr(db.props[name].templatePid)
    else ""
  }

  predicate IsMatch(db: Db, key: string)
  {
    key in db.values && match db.values[key]
      case Text(s) => s != ""
      case Id(n) => n != 0
      case Object(fields) => fields != EMPTY
  }

  function GetVid(e: Entry): string
  {
    match e
    case Text(s) => s
    case Id(n) => if n == 0 then "" else IntText(n)
    case Object(fields) => TextOr(fields.vid)
  }

  function ValueKey(pid: string, value: string): string { pid + "|" + value }

  const SEPARATOR: char := '、'

  predicate PartMatches(db: Db, pid: string, part: string) { IsMatch(db, ValueKey(pid, Strip(part))) }

  function VidOfPart(db: Db, pid: string, part: string): string
    requires PartMatches(db, pid, part)
  {
    GetVid(db.values[ValueKey(pid, Strip(part))])
  }

  /** The vid of the first part that has an entry. */
  function PartVid(db: Db, pid: string, parts: seq<string>): string
  {
    if parts == [] then ""
    else if PartMatches(db, pid, parts[0]) then VidOfPart(db, pid, parts[0])
    else PartVid(db, pid, parts[1..])
  }

  function VidOf(db: Db, pid: string, given: string, value: string): string
  {
    if given != "" || value == "" then given
    else if IsMatch(db, ValueKey(pid, value)) then GetVid(db.values[ValueKey(pid, value)])
    else PartVid(db, pid, Split(value, SEPARATOR))
  }

  function Completed(p: Prop, pid: string, templatePid: string, vid: string): Prop
  {
    Prop(Some(NameField(p)), None, Some(ValueField(p)), Some(Str(RefOf(p))), Some(Str(pid)), Some(Str(templatePid)),
         Some(Or(Get(p.numberInputValue, Str("")))), Some(Or(Get(p.valueUnit, Str("")))), Some(Str(vid)), map[])
  }

  predicate IsHit(db: Db, p: Prop) { ResolvePid(db, RefOf(p), Name(p)) != "" }

  /** The vid given and the value, as the vid lookup reads them. */
  function VidFor(db: Db, pid: string, p: Prop): string
  {
    VidOf(db, pid, TextOr(p.vid), Strip(TextOf(ValueField(p))))
  }

  function EnrichOne(db: Db, p: Prop, category: string): Prop
  {
    var pid := ResolvePid(db, RefOf(p), Name(p));
    if pid == "" then p
    else Completed(p, pid, ResolveTemplatePid(db, pid, Name(p), category), VidFor(db, pid, p))
  }

  // ----- lists -----

  predicate Kept(p: Prop) { Name(p) !in EXCLUDED }

  const IS_KEPT: Prop -> bool := (p: Prop) => Kept(p)

  function Filtered(props: seq<Prop>): seq<Prop> { Filter(props, IS_KEPT) }

  function EnrichAll(db: Db, props: seq<Prop>, category: string): (r: seq<Prop>)
    ensures |r| == |props| && forall k :: 0 <= k < |r| ==> r[k] == EnrichOne(db, props[k], category)
  {
    MapEach(props, p => EnrichOne(db, p, category))
  }

  function HitIn(db: Db): Prop -> bool { (p: Prop) => IsHit(db, p) }

  function Hits(db: Db, props: seq<Prop>): nat { CountIf(props, HitIn(db)) }

  datatype Enriched = Enriched(props: seq<Prop>, hits: nat, total: nat)

  function Enrich(db: Db, props: seq<Prop>, category: string): Enriched
  {
    Enriched(EnrichAll(db, Filtered(props), category), Hits(db, Filtered(props)), |Filtered(props)|)
  }

  datatype Product = Product(productProps: seq<Prop>, goodsProperty: seq<Prop>)

  /** goodsProperty stands in when productProps is missing or empty. */
  function RawProps(product: Product): seq<Prop>
  {
    if product.productProps != [] then product.productProps else product.goodsProperty
  }

  // ----- the method -----

  method SearchParts(db: Db, pid: string, parts: seq<string>) returns (vid: string)
    ensures vid == PartVid(db, pid, parts)
  {
    vid := "";
    for k := 0 to |parts|
      invariant vid == "" && PartVid(db, pid, parts) == PartVid(db, pid, parts[k..])
    {
      var key := ValueKey(pid, Strip(parts[k]));
      assert parts[k..][0] == parts[k] && parts[k..][1..] == parts[k + 1..];
      if IsMatch(db, key) {
        return GetVid(db.values[key]);
      }
    }
  }

  method FindVid(db: Db, p: Prop, pid: string) returns (vid: string)
    ensures vid == VidFor(db, pid, p)
  {
    vid := TextOr(p.vid);
    var value := Strip(TextOf(ValueField(p)));
    if vid == "" && value != "" {
      var key := ValueKey(pid, value);
      if IsMatch(db, key) {
        vid := GetVid(db.values[key]);
      } else {
        vid := SearchParts(db, pid, Split(value, SEPARATOR));
      }
    }
  }

  method EnrichNext(db: Db, p: Prop, category: string) returns (e: Prop, hit: bool)
    ensures e == EnrichOne(db, p, category) && hit == HitIn(db)(p)
  {
    var name := Name(p);
    var pid := ResolvePid(db, RefOf(p), name);
    if pid == "" {
      return p, false;
    }
    var templatePid := ResolveTemplatePid(db, pid, name, category);
    var vid := FindVid(db, p, pid);
    return Completed(p, pid, templatePid, vid), true;
  }

  method EnrichProductProps(db: Db, product: Product, category: string) returns (r: Enriched)
    ensures r == Enrich(db, RawProps(product), category)
  {
    var raw := product.productProps;
    if raw == [] {
      raw := product.goodsProperty;
    }
    var filtered := Filtered(raw);
    var enriched, hits := EnrichList(db, filtered, category);
    return Enriched(enriched, hits, |filtered|);
  }

  method EnrichList(db: Db, props: seq<Prop>, category: string)
    returns (enriched: seq<Prop>, hits: nat)
    ensures enriched == EnrichAll(db, props, category)
    ensures hits == Hits(db, props)
  {
    hits, enriched := 0, [];
    for k := 0 to |props|
      invariant enriched == EnrichAll(db, props[..k], category)
      invariant hits == Hits(db, props[..k])
    {
      CountNext(props, k, HitIn(db));
      AllNext(db, props, k, category);
      var e, hit := EnrichNext(db, props[k], category);
      if hit {
        hits := hits + 1;
      }
      enriched := enriched + [e];
    }
    assert props[..|props|] == props;
  }

  lemma AllNext(db: Db, props: seq<Prop>, k: nat, category: string)
    requires k < |props|
    ensures EnrichAll(db, props[..k + 1], category) ==
            EnrichAll(db, props[..k], category) + [EnrichOne(db, props[k], category)]
  {
    MapNext(props, k, p => EnrichOne(db, p, category));
  }

  // ----- what it means -----

  /** The vid comes from the given vid, else from the exact value, else from the first part with an entry. */
  lemma VidSource(db: Db, pid: string, given: string, value: string)
    ensures var vid := VidOf(db, pid, given, value);
      && (given != "" ==> vid == given)
      && (given == "" && value != "" && IsMatch(db, pid + "|" + value) ==>
            vid == GetVid(db.values[pid + "|" + value]))
      && (given == "" && value != "" && !IsMatch(db, pid + "|" + value) ==>
            FromParts(db, pid, Split(value, SEPARATOR), vid))
  {
    FirstPart(db, pid, Split(value, SEPARATOR));
  }

  /** The vid of the first part that has an entry; empty when none has. */
  predicate FromParts(db: Db, pid: string, parts: seq<string>, vid: string)
  {
    && (forall k :: 0 <= k < |parts| && FirstMatch(db, pid, parts, k) ==> vid == VidOfPart(db, pid, parts[k]))
    && ((forall k :: 0 <= k < |parts| ==> !PartMatches(db, pid, parts[k])) ==> vid == "")
  }

  predicate FirstMatch(db: Db, pid: string, parts: seq<string>, k: nat)
    requires k < |parts|
  {
    PartMatches(db, pid, parts[k]) && forall j :: 0 <= j < k ==> !PartMatches(db, pid, parts[j])
  }

  lemma {:induction false} FirstPart(db: Db, pid: string, parts: seq<string>)
    ensures FromParts(db, pid, parts, PartVid(db, pid, parts))
  {
    if parts == [] {
    } else {
      FirstPart(db, pid, parts[1..]);
      forall k | 0 <= k < |parts| && FirstMatch(db, pid, parts, k)
        ensures PartVid(db, pid, parts) == VidOfPart(db, pid, parts[k])
      {
        if k > 0 {
          assert parts[1..][k - 1] == parts[k];
          assert FirstMatch(db, pid, parts[1..], k - 1);
        }
      }
    }
  }

  lemma RefTwice(v: Json)
    ensures ToIntStr(Str(ToIntStr(v))) == ToIntStr(v)
  {
    StripFixed(TextOf(v));
    StripFixed("");
  }

  lemma CompletedFields(p: Prop, pid: string, templatePid: string, vid: string)
    ensures var e := Completed(p, pid, templatePid, vid);
      && NameField(e) == NameField(p) && ValueField(e) == ValueField(p)
      && RefOf(e) == RefOf(p) && TextOr(e.vid) == vid
      && Completed(e, pid, templatePid, vid) == e
  {
    RefTwice(Get(p.refPid, Str("")));
  }

  /** A table answers for a key that is not empty and whose entry is truthy. */
  predicate Answers(table: map<string, Json>, key: string) { key != "" && key in table && Truthy(table[key]) }

  /** The pid comes from the reference pid's table if that answers, else from the table of names, else from the
      old table of properties. */
  lemma PidSource(db: Db, ref: string, name: string)
    ensures var pid := ResolvePid(db, ref, name);
      && (Answers(db.refPid, ref) ==> pid == TextOf(db.refPid[ref]))
      && (!Answers(db.refPid, ref) && Answers(db.names, name) ==> pid == TextOf(db.names[name]))
      && (!Answers(db.refPid, ref) && !Answers(db.names, name) ==>
            && (name != "" && name in db.props ==> pid == TextOr(db.props[name].pid))
            && (name == "" || name !in db.props ==> pid == ""))
  {
  }

  /** The template pid comes from the category's own table if that answers, else from the defaults, else from
      the old table of properties. */
  lemma TemplateSource(db: Db, pid: string, name: string, category: string)
    ensures var t := ResolveTemplatePid(db, pid, name, category);
      var own := category != "" && category in db.templates && Answers(db.templates[category], pid);
      && (own ==> t == TextOf(db.templates[category][pid]))
      && (!own && Answers(db.defaultTemplatePid, pid) ==> t == TextOf(db.defaultTemplatePid[pid]))
      && (!own && !Answers(db.defaultTemplatePid, pid) ==>
            && (name != "" && name in db.props ==> t == TextOr(db.props[name].templatePid))
            && (name == "" || name !in db.props ==> t == ""))
  {
  }

  /** Which values and entries count as missing. */
  lemma Missing(db: Db, key: string)
    requires key in db.values
    ensures !Truthy(Null) && !Truthy(Number(0)) && !Truthy(Str(""))
    ensures forall n, s :: (n != 0 ==> Truthy(Number(n))) && (s != "" ==> Truthy(Str(s)))
    ensures IsMatch(db, key) <==>
      db.values[key] != Text("") && db.values[key] != Id(0) && db.values[key] != Object(EMPTY)
  {
  }

  /** Where name, value and reference pid of a property are read. */
  lemma FieldsRead(p: Prop)
    ensures p.propName.Some? ==> Name(p) == Strip(TextOf(p.propName.value))
    ensures p.propName.None? && p.key.Some? ==> Name(p) == Strip(TextOf(p.key.value))
    ensures p.propName.None? && p.key.None? ==> Name(p) == ""
    ensures p.propValue.Some? ==> ValueField(p) == p.propValue.value
    ensures p.refPid.None? || p.refPid == Some(Null) ==> RefOf(p) == ""
    ensures p.refPid.Some? && p.refPid.value.Str? ==> RefOf(p) == Strip(p.refPid.value.s)
  {
    StripKeeps("");
  }

  /** Both formats of an entry give the same vid. */
  lemma BothFormats(vid: string, n: int)
    ensures GetVid(Text(vid)) == vid && GetVid(Object(EMPTY.(vid := Some(Str(vid))))) == vid
    ensures n != 0 ==> GetVid(Id(n)) == IntText(n) && GetVid(Object(EMPTY.(vid := Some(Number(n))))) == IntText(n)
  {
  }

  /** What each field of an enriched property holds. */
  lemma EnrichedFields(db: Db, p: Prop, category: string)
    requires IsHit(db, p)
    ensures var e := EnrichOne(db, p, category);
      var pid := ResolvePid(db, RefOf(p), Name(p));
      && e.pid == Some(Str(pid)) && e.refPid == Some(Str(RefOf(p)))
      && e.templatePid == Some(Str(ResolveTemplatePid(db, pid, Name(p), category)))
      && e.vid == Some(Str(VidOf(db, pid, TextOr(p.vid), Strip(TextOf(ValueField(p))))))
      && e.propName == Some(NameField(p)) && e.propValue == Some(ValueField(p))
      && (p.numberInputValue.Some? && Truthy(p.numberInputValue.value) ==> e.numberInputValue == p.numberInputValue)
      && (p.valueUnit.Some? && Truthy(p.valueUnit.value) ==> e.valueUnit == p.valueUnit)
  {
  }

  /** Looking a vid up again with the vid found gives it back. */
  lemma VidTwice(db: Db, pid: string, given: string, value: string)
    ensures VidOf(db, pid, VidOf(db, pid, given, value), value) == VidOf(db, pid, given, value)
  {
  }

  /** Enriching a property a second time changes nothing: every lookup finds again what it found. */
  lemma EnrichOneTwice(db: Db, p: Prop, category: string)
    ensures var e := EnrichOne(db, p, category);
      && EnrichOne(db, e, category) == e
      && IsHit(db, e) == IsHit(db, p)
      && Name(e) == Name(p) && ValueField(e) == ValueField(p)
  {
    if IsHit(db, p) {
      var pid := ResolvePid(db, RefOf(p), Name(p));
      var vid := VidFor(db, pid, p);
      CompletedFields(p, pid, ResolveTemplatePid(db, pid, Name(p), category), vid);
      VidTwice(db, pid, TextOr(p.vid), Strip(TextOf(ValueField(p))));
    }
  }

  /** For one database and category, enriching an enriched list gives the same list and counts. */
  lemma Idempotent(db: Db, props: seq<Prop>, category: string)
    ensures var once := Enrich(db, props, category);
      Enrich(db, once.props, category) == once
  {
    var filtered := Filtered(props);
    var once := EnrichAll(db, filtered, category);
    forall k | 0 <= k < |filtered|
      ensures IS_KEPT(once[k]) && HitIn(db)(once[k]) == HitIn(db)(filtered[k])
      ensures EnrichOne(db, once[k], category) == once[k]
    {
      assert IS_KEPT(filtered[k]);
      EnrichOneTwice(db, filtered[k], category);
    }
    FilterAll(once, IS_KEPT);
    CountSame(once, filtered, HitIn(db));
    assert EnrichAll(db, once, category) == once;
  }

  /** The names and values come out in input order, less the excluded names, and a property the database
      does not know comes out untouched. */
  lemma OrderKept(db: Db, props: seq<Prop>, category: string)
    ensures var r, kept := Enrich(db, props, category), Filtered(props);
      && |r.props| == r.total == |kept| && r.hits == |Filter(kept, HitIn(db))|
      && forall k :: 0 <= k < |kept| ==>
           && Name(r.props[k]) == Name(kept[k]) && ValueField(r.props[k]) == ValueField(kept[k])
           && (r.props[k] == kept[k] || IsHit(db, kept[k]))
  {
    FilterCount(Filtered(props), HitIn(db));
    var kept := Filtered(props);
    forall k | 0 <= k < |kept|
      ensures Name(EnrichOne(db, kept[k], category)) == Name(kept[k])
      ensures ValueField(EnrichOne(db, kept[k], category)) == ValueField(kept[k])
    {
      EnrichOneTwice(db, kept[k], category);
    }
  }

  /** The two excluded names, and no others, are missing from the result. */
  lemma {:induction false} ExcludedOnly(props: seq<Prop>)
    ensures forall p :: p in Filtered(props) <==>
      p in props && Name(p) != "商品编号" && Name(p) != "产地"
    decreases |props|
  {
    if props == [] {
    } else {
      var front, last := props[..|props| - 1], props[|props| - 1];
      ExcludedOnly(front);
      assert props == front + [last];
      assert EXCLUDED == {"商品编号", "产地"};
    }
  }

  predicate AllExcluded(props: seq<Prop>) { forall p :: p in props ==> !Kept(p) }

  /** Writing the result back as productProps and enriching the product again is stable, unless every
      productProps name is excluded: then the second pass falls back to goodsProperty. */
  lemma ProductIdempotentIff(db: Db, product: Product, category: string)
    ensures var once := Enrich(db, RawProps(product), category);
      Enrich(db, RawProps(product.(productProps := once.props)), category) == once
      <==> !(product.productProps != [] && AllExcluded(product.productProps) && !AllExcluded(product.goodsProperty))
  {
    var once := Enrich(db, RawProps(product), category);
    Idempotent(db, RawProps(product), category);
    FilterNone(product.productProps, IS_KEPT);
    FilterNone(product.goodsProperty, IS_KEPT);
    assert once.props != [] ==> RawProps(product.(productProps := once.props)) == once.props;
  }
}
