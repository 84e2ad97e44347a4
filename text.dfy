/**
 * The Python string primitives the core relies on, stated exactly enough for
 * its logic: str.isspace / str.strip, BeautifulSoup's stripped strings,
 * str.join, substring search, the regular-expression class \d and int(), and
 * str.format over a template whose fields have already been located.
 */
module Text {
  import opened Wrappers

  /** The characters for which Python's str.isspace() holds; str.strip() with
      no argument removes exactly these from both ends. */
  predicate IsSpace(c: char) {
    ('\t' <= c <= '\r') || ('\U{1C}' <= c <= ' ') || c == '\U{85}' || c == '\U{A0}'
    || c == '\U{1680}' || ('\U{2000}' <= c <= '\U{200A}') || c == '\U{2028}'
    || c == '\U{2029}' || c == '\U{202F}' || c == '\U{205F}' || c == '\U{3000}'
  }

  predicate AllSpace(s: string) {
    forall k :: 0 <= k < |s| ==> IsSpace(s[k])
  }

  /** Neither end of s is whitespace. */
  predicate IsStripped(s: string) {
    s == [] || (!IsSpace(s[0]) && !IsSpace(s[|s| - 1]))
  }

  /** str.lstrip(): the suffix of s that starts at its first non-space character. */
  function StripStart(s: string): (r: string)
    ensures |r| <= |s| && r == s[|s| - |r|..]
    ensures forall k :: 0 <= k < |s| - |r| ==> IsSpace(s[k])
    ensures r == [] || !IsSpace(r[0])
  {
    if |s| > 0 && IsSpace(s[0]) then StripStart(s[1..]) else s
  }

  /** str.rstrip(): the prefix of s that ends at its last non-space character. */
  function StripEnd(s: string): (r: string)
    ensures |r| <= |s| && r == s[..|r|]
    ensures forall k :: |r| <= k < |s| ==> IsSpace(s[k])
    ensures r == [] || !IsSpace(r[|r| - 1])
  {
    if |s| > 0 && IsSpace(s[|s| - 1]) then StripEnd(s[..|s| - 1]) else s
  }

  /** pat occurs in s starting at position i. */
  predicate OccursAt(s: string, pat: string, i: int) {
    0 <= i && i + |pat| <= |s| && s[i..i + |pat|] == pat
  }

  /** r is the window of s at position i, with only whitespace on either side. */
  predicate StrippedFrom(s: string, r: string, i: int) {
    OccursAt(s, r, i) && AllSpace(s[..i]) && AllSpace(s[i + |r|..])
  }

  /** str.strip(): the part of s between its leading and trailing whitespace;
      it is empty exactly when s is blank. */
  function Strip(s: string): (r: string)
    ensures IsStripped(r)
    ensures r == [] <==> AllSpace(s)
  {
    StripStartBlank(s);
    StripEnd(StripStart(s))
  }

  lemma StripStartBlank(s: string)
    ensures StripStart(s) == [] <==> AllSpace(s)
  {
    var r := StripStart(s);
    if r != [] {
      assert s[|s| - |r|] == r[0];
    }
  }

  /** What str.strip() removes is whitespace only: s is the stripped text with
      blank text on either side. */
  lemma StripWindow(s: string)
    ensures exists i :: StrippedFrom(s, Strip(s), i)
  {
    StripAt(s);
  }

  /** The stripped text starts where the leading whitespace ends. */
  lemma StripAt(s: string)
    ensures StrippedFrom(s, Strip(s), |s| - |StripStart(s)|)
  {
    var a := StripStart(s);
    var r := StripEnd(a);
    var i := |s| - |a|;
    assert r == Strip(s);
    StripOccurs(s, a, r, i);
    StripHead(s, a, i);
    StripTail(s, a, r, i);
  }

  lemma StripOccurs(s: string, a: string, r: string, i: int)
    requires 0 <= i <= |s| && s[i..] == a && |r| <= |a| && r == a[..|r|]
    ensures OccursAt(s, r, i)
  {
    assert s[i..i + |r|] == a[..|r|];
  }

  lemma StripHead(s: string, a: string, i: int)
    requires a == StripStart(s) && i == |s| - |a|
    ensures AllSpace(s[..i])
  {
    BlankSlice(s, 0, i);
    assert s[..i] == s[0..i];
  }

  lemma StripTail(s: string, a: string, r: string, i: int)
    requires 0 <= i <= |s| && s[i..] == a && |r| <= |a|
    requires forall k :: |r| <= k < |a| ==> IsSpace(a[k])
    ensures AllSpace(s[i + |r|..])
  {
    forall k | i + |r| <= k < |s|
      ensures IsSpace(s[k])
    {
      assert s[k] == a[k - i];
    }
    BlankSlice(s, i + |r|, |s|);
    assert s[i + |r|..|s|] == s[i + |r|..];
  }

  lemma BlankSlice(s: string, lo: int, hi: int)
    requires 0 <= lo <= hi <= |s| && forall k :: lo <= k < hi ==> IsSpace(s[k])
    ensures AllSpace(s[lo..hi])
  {
    forall k | 0 <= k < hi - lo
      ensures IsSpace(s[lo..hi][k])
    {
      assert s[lo..hi][k] == s[lo + k];
    }
  }

  /** Stripping leaves an already stripped string alone. */
  lemma StripKeeps(s: string)
    requires IsStripped(s)
    ensures Strip(s) == s
  {
  }

  /** A piece of text as stripped_strings yields it: non-blank and stripped. */
  predicate Clean(t: string) {
    t != [] && IsStripped(t)
  }

  predicate AllClean(ts: seq<string>) {
    forall j :: 0 <= j < |ts| ==> Clean(ts[j])
  }

  lemma AllCleanAppend(a: seq<string>, b: seq<string>)
    requires AllClean(a) && AllClean(b)
    ensures AllClean(a + b)
  {
    forall j | 0 <= j < |a + b|
      ensures Clean((a + b)[j])
    {
      if j >= |a| {
        assert (a + b)[j] == b[j - |a|];
      }
    }
  }

  /** BeautifulSoup's `stripped_strings`: every text piece stripped, in order,
      with the pieces that were blank dropped. */
  function StrippedStrings(pieces: seq<string>): (r: seq<string>)
    ensures |r| <= |pieces|
    ensures AllClean(r)
  {
    if pieces == [] then []
    else
      var head := Strip(pieces[0]);
      var rest := StrippedStrings(pieces[1..]);
      var first := if head == [] then [] else [head];
      AllCleanAppend(first, rest);
      first + rest
  }

  /** Pieces that are already stripped and non-blank come through unchanged. */
  lemma {:induction false} StrippedStringsKeeps(pieces: seq<string>)
    requires AllClean(pieces)
    ensures StrippedStrings(pieces) == pieces
  {
    if pieces != [] {
      StripKeeps(pieces[0]);
      StrippedStringsKeeps(pieces[1..]);
    }
  }

  /** `sep.join(parts)`. */
  function Join(sep: string, parts: seq<string>): string {
    if parts == [] then ""
    else if |parts| == 1 then parts[0]
    else parts[0] + sep + Join(sep, parts[1..])
  }

  /** Joining stripped, non-blank parts with one space gives a stripped text,
      blank only when there were no parts. */
  lemma {:induction false} JoinSpaceStripped(parts: seq<string>)
    requires AllClean(parts)
    ensures IsStripped(Join(" ", parts))
    ensures Join(" ", parts) == [] <==> parts == []
    ensures parts != [] ==> Join(" ", parts)[0] == parts[0][0]
  {
    if |parts| > 1 {
      JoinSpaceStripped(parts[1..]);
      var rest := Join(" ", parts[1..]);
      var r := parts[0] + " " + rest;
      assert r[|r| - 1] == rest[|rest| - 1];
    }
  }

  /** Python's `pat in s` on strings. */
  predicate Contains(s: string, pat: string)
    decreases |s|
  {
    pat <= s || (|s| > 0 && Contains(s[1..], pat))
  }

  /** `pat in s` holds exactly when pat occurs at some position of s. */
  lemma ContainsIff(s: string, pat: string)
    ensures Contains(s, pat) <==> exists i :: OccursAt(s, pat, i)
  {
    if Contains(s, pat) {
      var i := ContainsWhere(s, pat);
    }
    if exists i :: OccursAt(s, pat, i) {
      var i :| OccursAt(s, pat, i);
      OccursContains(s, pat, i);
    }
  }

  lemma {:induction false} ContainsWhere(s: string, pat: string) returns (i: int)
    requires Contains(s, pat)
    ensures OccursAt(s, pat, i)
    decreases |s|
  {
    if pat <= s {
      i := 0;
      assert s[..|pat|] == pat;
    } else {
      var j := ContainsWhere(s[1..], pat);
      i := j + 1;
      assert s[i..i + |pat|] == s[1..][j..j + |pat|];
    }
  }

  lemma {:induction false} OccursContains(s: string, pat: string, i: int)
    requires OccursAt(s, pat, i)
    ensures Contains(s, pat)
    decreases i
  {
    if i == 0 {
      assert pat <= s;
    } else {
      assert s[1..][i - 1..i - 1 + |pat|] == s[i..i + |pat|];
      OccursContains(s[1..], pat, i - 1);
    }
  }

  /** A text that has the phrase somewhere inside it contains the phrase. */
  lemma ContainsSurrounded(a: string, pat: string, b: string)
    ensures Contains(a + pat + b, pat)
  {
    var s := a + pat + b;
    assert OccursAt(s, pat, |a|);
    ContainsIff(s, pat);
  }

  /** The code points of the digit zero of every run of ten characters in the
      Unicode 15.0 category Nd (decimal digits), the class that Python's \d
      matches in a str pattern. */
  const DigitZeros: seq<int> := [
    0x30, 0x660, 0x6F0, 0x7C0, 0x966, 0x9E6, 0xA66, 0xAE6, 0xB66, 0xBE6,
    0xC66, 0xCE6, 0xD66, 0xDE6, 0xE50, 0xED0, 0xF20, 0x1040, 0x1090, 0x17E0,
    0x1810, 0x1946, 0x19D0, 0x1A80, 0x1A90, 0x1B50, 0x1BB0, 0x1C40, 0x1C50, 0xA620,
    0xA8D0, 0xA900, 0xA9D0, 0xA9F0, 0xAA50, 0xABF0, 0xFF10, 0x104A0, 0x10D30, 0x11066,
    0x110F0, 0x11136, 0x111D0, 0x112F0, 0x11450, 0x114D0, 0x11650, 0x116C0, 0x11730, 0x118E0,
    0x11950, 0x11C50, 0x11D50, 0x11DA0, 0x11F50, 0x16A60, 0x16AC0, 0x16B50, 0x1D7CE, 0x1D7D8,
    0x1D7E2, 0x1D7EC, 0x1D7F6, 0x1E140, 0x1E2F0, 0x1E4F0, 0x1E950, 0x1FBF0]

  /** Python's \d: an ASCII digit, or a decimal digit of one of the other
      scripts (all of which lie above U+065F). */
  predicate IsDigit(c: char) {
    IsAsciiDigit(c)
    || (c as int >= 0x660 && exists i :: 1 <= i < |DigitZeros| && DigitZeros[i] <= c as int < DigitZeros[i] + 10)
  }

  predicate IsAsciiDigit(c: char) {
    '0' <= c <= '9'
  }

  predicate AllDigits(s: string) {
    forall k :: 0 <= k < |s| ==> IsDigit(s[k])
  }

  /** The position of n in the first run from the i-th zero on that holds it. */
  function RunValue(n: int, i: nat): (d: nat)
    requires exists j :: i <= j < |DigitZeros| && DigitZeros[j] <= n < DigitZeros[j] + 10
    ensures d < 10
    decreases |DigitZeros| - i
  {
    if i < |DigitZeros| && DigitZeros[i] <= n < DigitZeros[i] + 10 then n - DigitZeros[i] else RunValue(n, i + 1)
  }

  /** The value int() gives a single decimal digit of any script. */
  function DigitValue(c: char): (d: nat)
    requires IsDigit(c)
    ensures d < 10
    ensures IsAsciiDigit(c) ==> d == c as int - '0' as int
  {
    if IsAsciiDigit(c) then c as int - '0' as int else RunValue(c as int, 1)
  }

  function Pow10(n: nat): (p: nat)
    ensures p >= 1
  {
    if n == 0 then 1 else 10 * Pow10(n - 1)
  }

  /** int() of a non-empty string of decimal digits (of any script). */
  function DecimalValue(s: string): (v: nat)
    requires AllDigits(s)
    ensures v < Pow10(|s|)
  {
    if s == [] then 0 else 10 * DecimalValue(s[..|s| - 1]) + DigitValue(s[|s| - 1])
  }

  /** A template of `str.format`, already split into literal text and `{name}`
      replacement fields. */
  datatype Segment = Literal(text: string) | Field(name: string)

  type Template = seq<Segment>

  predicate Binds(t: Template, args: map<string, string>) {
    forall k :: 0 <= k < |t| && t[k].Field? ==> t[k].name in args
  }

  /** `template.format(**args)`: every field replaced verbatim by its argument,
      left to right; a field without an argument raises KeyError, reported here
      by the field's name. */
  function Format(t: Template, args: map<string, string>): (r: Result<string, string>)
    ensures r.Success? <==> Binds(t, args)
    ensures r.Failure? ==> r.error !in args
  {
    if t == [] then Success("")
    else
      var rest := Format(t[1..], args);
      match t[0]
      case Literal(x) =>
        if rest.Success? then Success(x + rest.value) else rest
      case Field(n) =>
        if n !in args then Failure(n)
        else if rest.Success? then Success(args[n] + rest.value) else rest
  }

  /** A template that is a single field gives that field's argument. */
  lemma FormatField(name: string, args: map<string, string>)
    requires name in args
    ensures Format([Field(name)], args) == Success(args[name])
  {
    assert [Field(name)][1..] == [];
    assert args[name] + "" == args[name];
  }

  lemma AppendAssoc(a: string, b: string, c: string)
    ensures a + (b + c) == a + b + c
  {
  }

  /** Formatting distributes over the concatenation of templates. */
  lemma {:induction false} FormatAppend(t1: Template, t2: Template, args: map<string, string>)
    requires Binds(t1, args) && Binds(t2, args)
    ensures Format(t1 + t2, args).Success?
    ensures Format(t1 + t2, args).value == Format(t1, args).value + Format(t2, args).value
  {
    if t1 != [] {
      assert (t1 + t2)[1..] == t1[1..] + t2;
      FormatAppend(t1[1..], t2, args);
    } else {
      assert t1 + t2 == t2;
    }
  }
}
