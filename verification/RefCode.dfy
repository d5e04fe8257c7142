/** Reference codes: printed as uid followed by the user's running number, looked up by two routes. */
module RefCode {
  import opened Common
  import opened Text

  const UID_LENGTH: nat := 8

  datatype Record = Record(user: int, seqNo: nat)

  datatype Lookup = EmptyCode | BadFormat | NoSuchUser | Forbidden | NotFound | Found(id: int)

  function RefCodeOf(uid: string, seqNo: nat): string
  {
    if uid != "" then uid + Print(seqNo) else Print(seqNo)
  }

  /** Users' uids are 8 characters, pairwise distinct, and begin with no space. */
  ghost predicate UidsOk(uids: map<int, string>)
  {
    && (forall u :: u in uids ==> |uids[u]| == UID_LENGTH && !IsSpace(uids[u][0]))
    && (forall u, v :: u in uids && v in uids && uids[u] == uids[v] ==> u == v)
  }

  lemma PrintedIsStripped(uid: string, digits: string)
    requires uid != "" && !IsSpace(uid[0]) && digits != "" && AllDigits(digits)
    ensures Strip(uid + digits) == uid + digits
  {
    var code := uid + digits;
    assert code[0] == uid[0];
    assert code[|code| - 1] == digits[|digits| - 1];
    DigitsAreNotSpace(digits[|digits| - 1]);
    StripKeeps(code);
  }

  lemma SplitAt(uid: string, digits: string)
    ensures (uid + digits)[|uid|..] == digits && (uid + digits)[..|uid|] == uid
  {
  }

  /** uid and number of a code that passes the shape check. */
  function ShapeOf(code: string): Option<(string, nat)>
  {
    if |code| <= UID_LENGTH || !AllDigits(code[UID_LENGTH..]) then None
    else Some((code[..UID_LENGTH], Parse(code[UID_LENGTH..])))
  }

  /** The fixed split at character 8 gives back uid and number. */
  lemma RoundTrip(uid: string, seqNo: nat)
    requires |uid| == UID_LENGTH && !IsSpace(uid[0])
    ensures Strip(RefCodeOf(uid, seqNo)) == RefCodeOf(uid, seqNo)
    ensures ShapeOf(RefCodeOf(uid, seqNo)) == Some((uid, seqNo))
  {
    var digits := Print(seqNo);
    PrintedIsStripped(uid, digits);
    SplitAt(uid, digits);
    PrintParse(seqNo);
  }

  /** Ids lie below the next one, numbers at or below their user's counter, and no record occurs twice. */
  ghost predicate EverOk(ever: map<int, Record>, importSeq: map<int, nat>, nextId: int)
  {
    && (forall i :: i in ever ==>
          i < nextId && ever[i].user in importSeq && ever[i].seqNo <= importSeq[ever[i].user])
    && (forall i, j :: i in ever && j in ever && ever[i] == ever[j] ==> i == j)
  }

  /** The records that are left are records that were inserted. */
  ghost predicate Within(imports: map<int, Record>, ever: map<int, Record>)
  {
    forall i :: i in imports ==> i in ever && ever[i] == imports[i]
  }

  lemma InsertKeepsWithin(imports: map<int, Record>, ever: map<int, Record>, id: int, r: Record)
    requires Within(imports, ever)
    ensures Within(imports[id := r], ever[id := r])
  {
  }

  lemma InsertKeepsEver(ever: map<int, Record>, importSeq: map<int, nat>, nextId: int, user: int)
    requires EverOk(ever, importSeq, nextId) && user in importSeq
    ensures var seqNo := importSeq[user] + 1;
      EverOk(ever[nextId := Record(user, seqNo)], importSeq[user := seqNo], nextId + 1)
  {
  }

  /** The printed code is the uid with the number behind it; without a uid it is the number. */
  lemma CodeIs(uid: string, seqNo: nat)
    ensures RefCodeOf(uid, seqNo) == uid + Print(seqNo)
  {
    assert "" + Print(seqNo) == Print(seqNo);
  }

  class ImportStore {
    const uids: map<int, string>
    var importSeq: map<int, nat>
    var imports: map<int, Record>
    var nextId: int
    // every record ever inserted, by id, deleted ones included
    ghost var ever: map<int, Record>

    ghost predicate Valid()
      reads this
    {
      && UidsOk(uids) && importSeq.Keys == uids.Keys
      && Within(imports, ever)
      && EverOk(ever, importSeq, nextId)
    }

    constructor (uids: map<int, string>)
      requires UidsOk(uids)
      ensures Valid() && imports == map[] && ever == map[]
    {
      this.uids := uids;
      importSeq := map u | u in uids :: 0;
      imports := map[];
      nextId := 1;
      ever := map[];
    }

    /** UPDATE users SET import_seq = import_seq + 1 RETURNING, then INSERT. An unknown user breaks the foreign
        key and nothing is stored. */
    method InsertImport(user: int) returns (r: Option<int>)
      requires Valid()
      modifies this
      ensures Valid()
      ensures r.Some? <==> user in uids
      ensures r.None? ==> imports == old(imports) && ever == old(ever)
      ensures r.Some? ==>
        && r.value !in old(ever)
        && importSeq == old(importSeq)[user := old(importSeq)[user] + 1]
        && imports == old(imports)[r.value := Record(user, importSeq[user])]
        && ever == old(ever)[r.value := imports[r.value]]
    {
      if user !in importSeq {
        return None;
      }
      InsertKeepsEver(ever, importSeq, nextId, user);
      InsertKeepsWithin(imports, ever, nextId, Record(user, importSeq[user] + 1));
      var userSeq := importSeq[user] + 1;
      importSeq := importSeq[user := userSeq];
      var id := nextId;
      nextId := nextId + 1;
      imports := imports[id := Record(user, userSeq)];
      ever := ever[id := Record(user, userSeq)];
      return Some(id);
    }

    method DeleteImport(user: int, id: int) returns (deleted: bool)
      requires Valid()
      modifies this`imports
      ensures Valid()
      ensures deleted <==> id in old(imports) && old(imports)[id].user == user
      ensures imports == if deleted then old(imports) - {id} else old(imports)
    {
      deleted := id in imports && imports[id].user == user;
      if deleted {
        imports := imports - {id};
      }
    }

    /** The user route: strip, check the shape, split at character 8, check the owner, select. */
    method ByRef(refCode: string, current: int) returns (r: Lookup)
      requires Valid()
      ensures r == UserRoute(uids, imports, refCode, current)
      ensures r.Found? ==>
        r.id in imports && imports[r.id].user == current && current in uids && uids[current] <= Strip(refCode)
    {
      var code := Strip(refCode);
      if code == "" {
        return EmptyCode;
      }
      var shape := ShapeOf(code);
      if shape.None? {
        return BadFormat;
      }
      var (uidPart, seqPart) := shape.value;
      if !exists u :: u in uids && uids[u] == uidPart {
        return NoSuchUser;
      }
      var target :| target in uids && uids[target] == uidPart;
      if target != current {
        return Forbidden;
      }
      if !exists i :: i in imports && imports[i] == Record(target, seqPart) {
        return NotFound;
      }
      var id :| id in imports && imports[id] == Record(target, seqPart);
      return Found(id);
    }
  }

  ghost function UserRoute(uids: map<int, string>, imports: map<int, Record>, refCode: string, current: int): Lookup
  {
    var code := Strip(refCode);
    if code == "" then EmptyCode
    else if ShapeOf(code).None? then BadFormat
    else
      var (uid, seqNo) := ShapeOf(code).value;
      if forall u :: u in uids ==> uids[u] != uid then NoSuchUser
      else if current !in uids || uids[current] != uid then Forbidden
      else if i :| i in imports && imports[i] == Record(current, seqNo) then Found(i) else NotFound
  }

  /** The admin list filter: uid || user_seq::text = code. */
  function AdminSearch(uids: map<int, string>, imports: map<int, Record>, code: string): set<int>
  {
    set i | i in imports && imports[i].user in uids && uids[imports[i].user] + Print(imports[i].seqNo) == code
  }

  // ----- what the two routes find -----

  /** Codes of all records ever inserted are pairwise distinct, across users and deletions. */
  lemma CodesDistinct(store: ImportStore, i: int, j: int)
    requires store.Valid() && i in store.ever && j in store.ever && i != j
    ensures RefCodeOf(store.uids[store.ever[i].user], store.ever[i].seqNo)
         != RefCodeOf(store.uids[store.ever[j].user], store.ever[j].seqNo)
  {
    var a, b := store.ever[i], store.ever[j];
    RoundTrip(store.uids[a.user], a.seqNo);
    RoundTrip(store.uids[b.user], b.seqNo);
    assert a != b;
  }

  /** For the printed code of any record ever inserted, the owner's lookup and the admin search find the same:
      the record if it is still there, nothing if it was deleted. */
  lemma PrintedCodeFound(store: ImportStore, i: int)
    requires store.Valid() && i in store.ever
    ensures var r := store.ever[i];
      var code := RefCodeOf(store.uids[r.user], r.seqNo);
      && UserRoute(store.uids, store.imports, code, r.user) == (if i in store.imports then Found(i) else NotFound)
      && AdminSearch(store.uids, store.imports, code) == (if i in store.imports then {i} else {})
  {
    var r := store.ever[i];
    var uid := store.uids[r.user];
    var code := RefCodeOf(uid, r.seqNo);
    RoundTrip(uid, r.seqNo);
    forall k | k in store.imports
      ensures k in AdminSearch(store.uids, store.imports, code) <==> k == i
      ensures store.imports[k] == r <==> k == i
    {
      if k != i {
        CodesDistinct(store, k, i);
      }
    }
  }

  /** More than eight characters, all digits from the ninth on. */
  predicate WellFormed(code: string)
  {
    |code| > 8 && forall k :: 8 <= k < |code| ==> '0' <= code[k] <= '9'
  }

  /** When each answer is given. */
  lemma RouteAnswers(uids: map<int, string>, imports: map<int, Record>, refCode: string, current: int)
    requires UidsOk(uids)
    ensures var r, code := UserRoute(uids, imports, refCode, current), Strip(refCode);
      && (r.EmptyCode? <==> code == "")
      && (r.BadFormat? <==> code != "" && !WellFormed(code))
      && (r.NoSuchUser? <==> WellFormed(code) && forall u :: u in uids ==> uids[u] != code[..8])
      && (r.Forbidden? <==> WellFormed(code) && exists u :: u in uids && uids[u] == code[..8] && u != current)
      && (r.NotFound? <==>
            && WellFormed(code) && current in uids && uids[current] == code[..8]
            && forall i :: i in imports ==> imports[i] != Record(current, NumberIn(code)))
      && (r.Found? ==>
            && WellFormed(code) && current in uids && uids[current] == code[..8]
            && r.id in imports && imports[r.id] == Record(current, NumberIn(code)))
  {
    var code := Strip(refCode);
    if |code| > 8 {
      DigitsFrom(code);
    }
  }

  /** The number behind the uid. */
  function NumberIn(code: string): nat
    requires WellFormed(code)
  {
    Parse(code[8..])
  }

  lemma DigitsFrom(code: string)
    requires |code| > 8
    ensures AllDigits(code[8..]) <==> WellFormed(code)
  {
    if AllDigits(code[8..]) {
      forall k | 8 <= k < |code|
        ensures '0' <= code[k] <= '9'
      {
        assert code[8..][k - 8] == code[k];
      }
    }
  }

  /** The printed code of any record ever inserted, deleted or not, is refused to every user but its owner. */
  lemma PrintedCodeForbidden(store: ImportStore, i: int, other: int)
    requires store.Valid() && i in store.ever && other != store.ever[i].user
    ensures var r := store.ever[i];
      UserRoute(store.uids, store.imports, RefCodeOf(store.uids[r.user], r.seqNo), other) == Forbidden
  {
    var r := store.ever[i];
    RoundTrip(store.uids[r.user], r.seqNo);
  }

  /** The code as the list shows it: no space around it, no surplus zero in the number. */
  predicate Canonical(refCode: string)
  {
    match ShapeOf(Strip(refCode))
    case None => false
    case Some((uid, seqNo)) => refCode == uid + Print(seqNo)
  }

  /** The routes part on one point only: a code that the owner's lookup resolves is found by the admin search
      exactly when it is written in canonical form. */
  lemma RoutesAgreeIff(store: ImportStore, refCode: string, current: int)
    requires store.Valid() && UserRoute(store.uids, store.imports, refCode, current).Found?
    ensures var id := UserRoute(store.uids, store.imports, refCode, current).id;
      AdminSearch(store.uids, store.imports, refCode) == if Canonical(refCode) then {id} else {}
  {
    var id := UserRoute(store.uids, store.imports, refCode, current).id;
    var r := store.imports[id];
    PrintedCodeFound(store, id);
    forall k | k in AdminSearch(store.uids, store.imports, refCode)
      ensures Canonical(refCode)
    {
      RoundTrip(store.uids[store.imports[k].user], store.imports[k].seqNo);
    }
  }
}
