/** Strings as the code uses them: str.strip, decimal printing and parsing, single-character split. */
module Text {

  /** The characters str.strip removes. */
  predicate IsSpace(c: char)
  {
    || c == ' ' || '\U{9}' <= c <= '\U{D}' || '\U{1C}' <= c <= '\U{1F}'
    || c == '\U{85}' || c == '\U{A0}' || c == '\U{1680}' || '\U{2000}' <= c <= '\U{200A}'
    || c == '\U{2028}' || c == '\U{2029}' || c == '\U{202F}' || c == '\U{205F}' || c == '\U{3000}'
  }

  function LStrip(s: string): string
  {
    if s != [] && IsSpace(s[0]) then LStrip(s[1..]) else s
  }

  function RStrip(s: string): string
  {
    if s != [] && IsSpace(s[|s| - 1]) then RStrip(s[..|s| - 1]) else s
  }

  function Strip(s: string): string { RStrip(LStrip(s)) }

  predicate Stripped(s: string)
  {
    s == [] || (!IsSpace(s[0]) && !IsSpace(s[|s| - 1]))
  }

  lemma {:induction false} LStripOk(s: string)
    ensures LStrip(s) == [] || !IsSpace(LStrip(s)[0])
    ensures |LStrip(s)| <= |s|
    ensures LStrip(s) == s || (s != [] && IsSpace(s[0]))
  {
    if s != [] && IsSpace(s[0]) {
      LStripOk(s[1..]);
    }
  }

  lemma {:induction false} RStripOk(s: string)
    ensures RStrip(s) == [] || !IsSpace(RStrip(s)[|RStrip(s)| - 1])
    ensures |RStrip(s)| <= |s|
    ensures RStrip(s) == s[..|RStrip(s)|]
    ensures RStrip(s) == s || (s != [] && IsSpace(s[|s| - 1]))
  {
    if s != [] && IsSpace(s[|s| - 1]) {
      RStripOk(s[..|s| - 1]);
    }
  }

  lemma StripOk(s: string)
    ensures Stripped(Strip(s))
  {
    LStripOk(s);
    RStripOk(LStrip(s));
  }

  /** Strip fixes exactly the strings with no space at either end. */
  lemma StripFixed(s: string)
    ensures Strip(s) == s <==> Stripped(s)
    ensures Strip(Strip(s)) == Strip(s)
  {
    StripOk(s);
    StripKeeps(Strip(s));
    if Stripped(s) {
      StripKeeps(s);
    }
  }

  lemma StripKeeps(s: string)
    requires Stripped(s)
    ensures Strip(s) == s
  {
    LStripOk(s);
    RStripOk(s);
  }

  predicate AllSpace(s: string) { forall k :: 0 <= k < |s| ==> IsSpace(s[k]) }

  lemma {:induction false} LStripPad(pad: string, s: string)
    requires AllSpace(pad)
    ensures LStrip(pad + s) == LStrip(s)
  {
    if pad == [] {
      assert pad + s == s;
    } else {
      assert (pad + s)[1..] == pad[1..] + s;
      LStripPad(pad[1..], s);
    }
  }

  lemma {:induction false} RStripPad(s: string, pad: string)
    requires AllSpace(pad)
    ensures RStrip(s + pad) == RStrip(s)
    decreases |pad|
  {
    if pad == [] {
      assert s + pad == s;
    } else {
      assert (s + pad)[..|s + pad| - 1] == s + pad[..|pad| - 1];
      RStripPad(s, pad[..|pad| - 1]);
    }
  }

  /** Strip takes away the spaces at both ends and nothing else. */
  lemma StripCore(left: string, core: string, right: string)
    requires AllSpace(left) && AllSpace(right) && core != "" && Stripped(core)
    ensures Strip(left + core + right) == core
  {
    assert left + core + right == left + (core + right);
    LStripPad(left, core + right);
    assert (core + right)[0] == core[0];
    RStripPad(core, right);
    RStripOk(core);
  }

  /** A line of a file, read with its end, strips to its text. */
  lemma StripLine(text: string)
    requires text != "" && Stripped(text)
    ensures Strip(text + "\n") == text && Strip(text + "\r\n") == text && Strip("\t" + text) == text
  {
    StripCore("", text, "\n");
    StripCore("", text, "\r\n");
    StripCore("\t", text, "");
    assert "" + text == text && "\t" + text + "" == "\t" + text;
  }

  // ----- decimal numbers -----

  predicate IsDigit(c: char) { '0' <= c <= '9' }

  predicate AllDigits(s: string) { forall k :: 0 <= k < |s| ==> IsDigit(s[k]) }

  lemma DigitsAreNotSpace(c: char)
    requires IsDigit(c)
    ensures !IsSpace(c)
  {
  }

  function Print(n: nat): (s: string)
    ensures |s| > 0 && AllDigits(s)
  {
    if n < 10 then [('0' as int + n) as char]
    else Print(n / 10) + [('0' as int + n % 10) as char]
  }

  function Parse(s: string): nat
    requires AllDigits(s)
  {
    if s == [] then 0
    else Parse(s[..|s| - 1]) * 10 + (s[|s| - 1] as int - '0' as int)
  }

  lemma {:induction false} PrintParse(n: nat)
    ensures Parse(Print(n)) == n
  {
    var s := Print(n);
    if n < 10 {
      assert Parse(s[..0]) == 0;
    } else {
      PrintParse(n / 10);
      assert s[..|s| - 1] == Print(n / 10);
    }
  }

  // ----- split on one character -----

  function Split(s: string, sep: char): (parts: seq<string>)
    ensures |parts| > 0
  {
    if s == [] then [[]]
    else
      var rest := Split(s[1..], sep);
      if s[0] == sep then [[]] + rest else [[s[0]] + rest[0]] + rest[1..]
  }

  lemma {:induction false} SplitPlain(s: string, sep: char)
    requires sep !in s
    ensures Split(s, sep) == [s]
  {
    if s == [] {
    } else {
      SplitPlain(s[1..], sep);
      assert s == [s[0]] + s[1..];
    }
  }

  lemma {:induction false} SplitFirst(a: string, sep: char, b: string)
    requires sep !in a
    ensures Split(a + [sep] + b, sep) == [a] + Split(b, sep)
  {
    var s := a + [sep] + b;
    if a == [] {
      assert s[1..] == b;
    } else {
      assert s[1..] == a[1..] + [sep] + b;
      SplitFirst(a[1..], sep, b);
      assert a == [a[0]] + a[1..];
    }
  }
}
