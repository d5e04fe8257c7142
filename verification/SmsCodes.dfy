/** One-time codes: each call matches a line of the code file and deletes it. */
module SmsCodes {
  import opened Common
  import opened Text

  datatype Reply = Granted | Denied | Raised

  /** hmac.compare_digest refuses text outside ASCII. */
  predicate Ascii(s: string) { forall k :: 0 <= k < |s| ==> s[k] < '\U{80}' }

  /** Neither blank nor a comment. */
  predicate IsCode(raw: string)
  {
    Strip(raw) != "" && Strip(raw)[0] != '#'
  }

  predicate Comparable(raw: string, c: string) { Ascii(Strip(raw)) && Ascii(c) }

  // ----- one call, on the lines of the file -----

  function ReplyTo(lines: seq<string>, c: string): Reply
  {
    if lines == [] then Denied
    else if !IsCode(lines[0]) then ReplyTo(lines[1..], c)
    else if !Comparable(lines[0], c) then Raised
    else if Strip(lines[0]) == c then Granted
    else ReplyTo(lines[1..], c)
  }

  function After(lines: seq<string>, c: string): seq<string>
  {
    if lines == [] then []
    else if !IsCode(lines[0]) then [lines[0]] + After(lines[1..], c)
    else if !Comparable(lines[0], c) then lines
    else if Strip(lines[0]) == c then lines[1..]
    else [lines[0]] + After(lines[1..], c)
  }

  /** A line that the scan passes over. */
  predicate Passes(raw: string, c: string)
  {
    !IsCode(raw) || (Comparable(raw, c) && Strip(raw) != c)
  }

  lemma Regroup<T>(a: seq<T>, x: T, b: seq<T>)
    ensures a + ([x] + b) == a + [x] + b
  {
  }

  lemma TailAt<T>(xs: seq<T>, k: nat)
    requires k < |xs|
    ensures xs[k..] == [xs[k]] + xs[k + 1..] && xs[k..][0] == xs[k] && xs[k..][1..] == xs[k + 1..]
  {
  }

  lemma ScanStep(lines: seq<string>, k: nat, c: string)
    requires k < |lines|
    ensures var raw, here, next := lines[k], lines[k..], lines[k + 1..];
      && here == [raw] + next
      && (Passes(raw, c) ==> ReplyTo(here, c) == ReplyTo(next, c) && After(here, c) == [raw] + After(next, c))
      && (IsCode(raw) && !Comparable(raw, c) ==> ReplyTo(here, c) == Raised && After(here, c) == here)
      && (IsCode(raw) && Comparable(raw, c) && Strip(raw) == c ==>
            ReplyTo(here, c) == Granted && After(here, c) == next)
  {
    TailAt(lines, k);
  }

  /** Blank lines, and lines whose first character is '#' once stripped, are passed over and kept, whatever they
      contain. */
  lemma PassedOver(raw: string, rest: seq<string>, c: string)
    requires Strip(raw) == "" || Strip(raw)[0] == '#'
    ensures ReplyTo([raw] + rest, c) == ReplyTo(rest, c) && After([raw] + rest, c) == [raw] + After(rest, c)
  {
    TailAt([raw] + rest, 0);
    assert ([raw] + rest)[1..] == rest;
  }

  /** A comparable line of any other kind is what a call can match: it is granted and goes exactly when equal. */
  lemma Compared(raw: string, rest: seq<string>, c: string)
    requires Strip(raw) != "" && Strip(raw)[0] != '#' && Ascii(Strip(raw)) && Ascii(c)
    ensures Strip(raw) == c ==> ReplyTo([raw] + rest, c) == Granted && After([raw] + rest, c) == rest
    ensures Strip(raw) != c ==>
      ReplyTo([raw] + rest, c) == ReplyTo(rest, c) && After([raw] + rest, c) == [raw] + After(rest, c)
  {
    TailAt([raw] + rest, 0);
    assert ([raw] + rest)[1..] == rest;
  }

  class CodeFile {
    /** None: the file does not exist. */
    var content: Option<seq<string>>

    method VerifyCode(code: string) returns (r: Reply)
      modifies this`content
      ensures Strip(code) == "" || old(content).None? ==> r == Denied && content == old(content)
      ensures Strip(code) != "" && old(content).Some? ==>
        r == ReplyTo(old(content).value, Strip(code)) && content == Some(After(old(content).value, Strip(code)))
    {
      var submitted := Strip(code);
      if submitted == "" || content.None? {
        return Denied;
      }
      var remaining;
      r, remaining := Scan(content.value, submitted);
      if r == Granted {
        content := Some(remaining);
      }
    }
  }

  /** The read loop: what is left of the file when no exception is raised. */
  method Scan(lines: seq<string>, submitted: string) returns (r: Reply, remaining: seq<string>)
    ensures r == ReplyTo(lines, submitted)
    ensures After(lines, submitted) == if r == Granted then remaining else lines
  {
    remaining := [];
    var matched := false;
    ghost var reply, after := ReplyTo(lines, submitted), After(lines, submitted);
    for k := 0 to |lines|
      invariant !matched ==> remaining + lines[k..] == lines
      invariant !matched ==>
        reply == ReplyTo(lines[k..], submitted) && after == remaining + After(lines[k..], submitted)
      invariant matched ==> reply == Granted && after == remaining + lines[k..]
    {
      var raw := lines[k];
      ScanStep(lines, k, submitted);
      Regroup(remaining, raw, lines[k + 1..]);
      Regroup(remaining, raw, After(lines[k + 1..], submitted));
      if !matched && IsCode(raw) {
        if !Comparable(raw, submitted) {
          return Raised, remaining;
        }
        if Strip(raw) == submitted {
          matched := true;
          continue;
        }
      }
      remaining := remaining + [raw];
    }
    r := if matched then Granted else Denied;
  }

  // ----- runs of calls -----

  /** The codes granted over calls that submit these (stripped) codes in turn. */
  function GrantedCodes(lines: seq<string>, codes: seq<string>): multiset<string>
    decreases |codes|
  {
    if codes == [] then multiset{}
    else
      (if Grants(lines, codes[0]) then multiset{codes[0]} else multiset{}) +
      GrantedCodes(Step(lines, codes[0]), codes[1..])
  }

  predicate Grants(lines: seq<string>, c: string) { c != "" && ReplyTo(lines, c) == Granted }

  function Step(lines: seq<string>, c: string): seq<string> { if c == "" then lines else After(lines, c) }

  function LinesAfter(lines: seq<string>, codes: seq<string>): seq<string>
    decreases |codes|
  {
    if codes == [] then lines else LinesAfter(Step(lines, codes[0]), codes[1..])
  }

  /** The code lines, each stripped. */
  function Codes(lines: seq<string>): multiset<string>
  {
    if lines == [] then multiset{}
    else (if IsCode(lines[0]) then multiset{Strip(lines[0])} else multiset{}) + Codes(lines[1..])
  }

  /** The lines before the first code line that cannot be compared. */
  function Usable(lines: seq<string>): seq<string>
  {
    if lines == [] || (IsCode(lines[0]) && !Ascii(Strip(lines[0]))) then []
    else [lines[0]] + Usable(lines[1..])
  }

  /** The lines without, for each code, its first occurrences as often as q holds it. */
  function Consumed(lines: seq<string>, q: multiset<string>): seq<string>
  {
    if lines == [] then []
    else
      var c := Strip(lines[0]);
      if IsCode(lines[0]) && c in q then Consumed(lines[1..], q - multiset{c})
      else [lines[0]] + Consumed(lines[1..], q)
  }

  // ----- one call -----

  /** A call succeeds exactly when a usable code line carries its code; it then uses up one such line, and
      none of any other code x. */
  lemma {:induction false} OneCall(lines: seq<string>, c: string, x: string)
    requires c != ""
    ensures ReplyTo(lines, c) == Granted <==> Codes(Usable(lines))[c] > 0
    ensures ReplyTo(lines, c) != Granted ==> After(lines, c) == lines
    ensures Codes(Usable(lines))[x] ==
      Codes(Usable(After(lines, c)))[x] + (if ReplyTo(lines, c) == Granted && x == c then 1 else 0)
  {
    if lines == [] {
    } else {
      var l, rest := lines[0], lines[1..];
      TailAt(lines, 0);
      if Passes(l, c) {
        OneCall(rest, c, x);
        UsableNext(l, rest, x);
        UsableNext(l, rest, c);
        UsableNext(l, After(rest, c), x);
      } else if Ascii(Strip(l)) {
        UsableNext(l, rest, x);
        UsableNext(l, rest, c);
        UsableAscii(rest, c);
      }
    }
  }

  lemma UsableNext(l: string, rest: seq<string>, x: string)
    requires !(IsCode(l) && !Ascii(Strip(l)))
    ensures Codes(Usable([l] + rest))[x] ==
      (if IsCode(l) && Strip(l) == x then 1 else 0) + Codes(Usable(rest))[x]
  {
    TailOfCons(l, rest);
    TailOfCons(l, Usable(rest));
  }

  lemma TailOfCons<T>(x: T, xs: seq<T>)
    ensures ([x] + xs)[0] == x && ([x] + xs)[1..] == xs
  {
  }

  lemma {:induction false} UsableAscii(lines: seq<string>, c: string)
    ensures c in Codes(Usable(lines)) ==> Ascii(c)
  {
    if lines != [] && !(IsCode(lines[0]) && !Ascii(Strip(lines[0]))) {
      TailAt(lines, 0);
      UsableNext(lines[0], lines[1..], c);
      UsableAscii(lines[1..], c);
    }
  }

  lemma {:induction false} ConsumedNone(lines: seq<string>)
    ensures Consumed(lines, multiset{}) == lines
  {
    if lines == [] {
    } else {
      ConsumedNone(lines[1..]);
    }
  }

  /** Deleting the first line of a code and then consuming q consumes that code once more. */
  lemma {:induction false} ConsumedAfter(lines: seq<string>, c: string, q: multiset<string>)
    requires ReplyTo(lines, c) == Granted
    ensures Consumed(After(lines, c), q) == Consumed(lines, multiset{c} + q)
  {
    var l, rest := lines[0], lines[1..];
    if IsCode(l) && Strip(l) == c {
      assert multiset{c} + q - multiset{c} == q;
    } else {
      var after := After(lines, c);
      assert after[0] == l && after[1..] == After(rest, c);
      if IsCode(l) && Strip(l) in q {
        assert multiset{c} + q - multiset{Strip(l)} == multiset{c} + (q - multiset{Strip(l)});
        ConsumedAfter(rest, c, q - multiset{Strip(l)});
      } else {
        ConsumedAfter(rest, c, q);
      }
    }
  }

  // ----- whole runs -----

  lemma OneStep(lines: seq<string>, d: string, c: string)
    requires c != ""
    ensures !Grants(lines, d) ==> Step(lines, d) == lines
    ensures Codes(Usable(Step(lines, d)))[c] ==
            Codes(Usable(lines))[c] as int - (if d == c && Grants(lines, d) then 1 else 0)
    ensures Grants(lines, c) <==> Codes(Usable(lines))[c] > 0
  {
    if d != "" {
      OneCall(lines, d, c);
    }
    OneCall(lines, c, c);
  }

  lemma BagNext<T>(xs: seq<T>, x: T)
    requires xs != []
    ensures multiset(xs)[x] == multiset(xs[1..])[x] + (if xs[0] == x then 1 else 0)
  {
    assert xs == [xs[0]] + xs[1..];
  }

  lemma {:induction false} GrantedCount(lines: seq<string>, codes: seq<string>, c: string)
    requires c != ""
    ensures GrantedCodes(lines, codes)[c] == Min(multiset(codes)[c], Codes(Usable(lines))[c])
    decreases |codes|
  {
    if codes == [] {
    } else {
      GrantedCount(Step(lines, codes[0]), codes[1..], c);
      OneStep(lines, codes[0], c);
      BagNext(codes, c);
    }
  }

  lemma {:induction false} LinesConsumed(lines: seq<string>, codes: seq<string>)
    ensures LinesAfter(lines, codes) == Consumed(lines, GrantedCodes(lines, codes))
    decreases |codes|
  {
    if codes == [] {
      ConsumedNone(lines);
    } else {
      var rest := Step(lines, codes[0]);
      LinesConsumed(rest, codes[1..]);
      OneStep(lines, codes[0], "c");
      if Grants(lines, codes[0]) {
        ConsumedAfter(lines, codes[0], GrantedCodes(rest, codes[1..]));
      } else {
        assert multiset{} + GrantedCodes(rest, codes[1..]) == GrantedCodes(rest, codes[1..]);
      }
    }
  }

  /** Over any calls, each code is granted as often as it was submitted or as usable lines carried it,
      whichever is less, and the file loses, for each code, that many of its first lines and nothing else. */
  lemma OneTime(lines: seq<string>, codes: seq<string>)
    ensures forall c :: c != "" ==>
      GrantedCodes(lines, codes)[c] == Min(multiset(codes)[c], Codes(Usable(lines))[c])
    ensures LinesAfter(lines, codes) == Consumed(lines, GrantedCodes(lines, codes))
  {
    forall c: string | c != ""
      ensures GrantedCodes(lines, codes)[c] == Min(multiset(codes)[c], Codes(Usable(lines))[c])
    {
      GrantedCount(lines, codes, c);
    }
    LinesConsumed(lines, codes);
  }

  predicate AllAscii(lines: seq<string>)
  {
    forall l :: l in lines && IsCode(l) ==> Ascii(Strip(l))
  }

  lemma {:induction false} AllUsable(lines: seq<string>)
    requires AllAscii(lines)
    ensures Usable(lines) == lines
  {
    if lines == [] {
    } else {
      AllUsable(lines[1..]);
    }
  }

  /** Over any calls a code is granted as often as it was submitted or stands in the file, whichever is less. */
  ghost predicate Fair(lines: seq<string>)
  {
    forall codes: seq<string>, c: string :: c != "" ==>
      GrantedCodes(lines, codes)[c] == Min(multiset(codes)[c], Codes(lines)[c])
  }

  lemma {:induction false} CodesHas(lines: seq<string>, l: string)
    requires l in lines && IsCode(l)
    ensures Strip(l) in Codes(lines)
  {
    if l != lines[0] {
      CodesHas(lines[1..], l);
    }
  }

  lemma Blocked(lines: seq<string>, c: string)
    requires c != "" && !Ascii(c) && c in Codes(lines)
    ensures !Fair(lines)
  {
    UsableAscii(lines, c);
    GrantedCount(lines, [c], c);
    assert multiset([c])[c] == 1;
  }

  /** The count is right for all calls exactly when every code line is ASCII: any other code line blocks
      itself and the lines behind it. */
  lemma FairIff(lines: seq<string>)
    ensures Fair(lines) <==> AllAscii(lines)
  {
    if AllAscii(lines) {
      AllUsable(lines);
      forall codes: seq<string>, c: string | c != ""
        ensures GrantedCodes(lines, codes)[c] == Min(multiset(codes)[c], Codes(lines)[c])
      {
        GrantedCount(lines, codes, c);
      }
    } else {
      var l :| l in lines && IsCode(l) && !Ascii(Strip(l));
      CodesHas(lines, l);
      Blocked(lines, Strip(l));
    }
  }

  /** Comments, blanks and lines of codes that were not granted. */
  function Others(lines: seq<string>, granted: multiset<string>): seq<string>
  {
    if lines == [] then []
    else (if IsCode(lines[0]) && Strip(lines[0]) in granted then [] else [lines[0]]) + Others(lines[1..], granted)
  }

  lemma {:induction false} OthersKept(lines: seq<string>, q: multiset<string>, granted: multiset<string>)
    requires q <= granted
    ensures Others(Consumed(lines, q), granted) == Others(lines, granted)
  {
    if lines == [] {
    } else {
      var c := Strip(lines[0]);
      if IsCode(lines[0]) && c in q {
        OthersKept(lines[1..], q - multiset{c}, granted);
      } else {
        OthersKept(lines[1..], q, granted);
        assert Consumed(lines, q)[1..] == Consumed(lines[1..], q);
      }
    }
  }

  /** All other lines survive any calls in their original order. */
  lemma Survivors(lines: seq<string>, codes: seq<string>)
    ensures var granted := GrantedCodes(lines, codes);
      Others(LinesAfter(lines, codes), granted) == Others(lines, granted)
  {
    OneTime(lines, codes);
    OthersKept(lines, GrantedCodes(lines, codes), GrantedCodes(lines, codes));
  }
}
