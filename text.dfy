/** String operations of Python and JavaScript used by the modelled code:
    whitespace stripping (each language's own whitespace set), ASCII case
    mapping, substring search, line splitting and decimal numerals. */
module Text {
  import opened Wrappers
  import Seqs

  /** Whose notion of whitespace a strip uses: Python's `str.isspace`
      or JavaScript's `String.prototype.trim`. */
  datatype Whitespace = Python | JavaScript

  /** The whitespace characters of each language: Python's `str.isspace`
      and the WhiteSpace and LineTerminator characters of JavaScript. */
  predicate IsSpace(ws: Whitespace, c: char) {
    || ('\t' <= c <= '\r') || c == ' ' || c == '\U{A0}' || c == '\U{1680}'
    || ('\U{2000}' <= c <= '\U{200A}') || c == '\U{2028}' || c == '\U{2029}'
    || c == '\U{202F}' || c == '\U{205F}' || c == '\U{3000}'
    || (match ws
        case Python => ('\U{1C}' <= c <= '\U{1F}') || c == '\U{85}'
        case JavaScript => c == '\U{FEFF}')
  }

  /** Every character of `s` is whitespace (so `s.strip()` / `s.trim()` is empty). */
  predicate IsBlank(ws: Whitespace, s: string) {
    forall i :: 0 <= i < |s| ==> IsSpace(ws, s[i])
  }

  /** Neither end of `s` is whitespace. */
  predicate IsStripped(ws: Whitespace, s: string) {
    s == [] || (!IsSpace(ws, s[0]) && !IsSpace(ws, s[|s| - 1]))
  }

  /** The end of the run of whitespace that starts at `i`. */
  function SpaceRunFrom(ws: Whitespace, s: string, i: nat): (j: nat)
    requires i <= |s|
    ensures i <= j <= |s|
    ensures forall k :: i <= k < j ==> IsSpace(ws, s[k])
    ensures j < |s| ==> !IsSpace(ws, s[j])
    decreases |s| - i
  {
    if i < |s| && IsSpace(ws, s[i]) then SpaceRunFrom(ws, s, i + 1) else i
  }

  /** The start of the run of whitespace that ends just before `j`. */
  function SpaceRunBack(ws: Whitespace, s: string, j: nat): (i: nat)
    requires j <= |s|
    ensures i <= j
    ensures forall k :: i <= k < j ==> IsSpace(ws, s[k])
    ensures i > 0 ==> !IsSpace(ws, s[i - 1])
  {
    if j > 0 && IsSpace(ws, s[j - 1]) then SpaceRunBack(ws, s, j - 1) else j
  }

  /** `s` without its leading whitespace. */
  function TrimStart(ws: Whitespace, s: string): (r: string)
    ensures |r| <= |s|
    ensures r == [] || !IsSpace(ws, r[0])
  {
    s[SpaceRunFrom(ws, s, 0)..]
  }

  /** Everything `TrimStart` removes is whitespace. */
  lemma TrimStartRemovesSpace(ws: Whitespace, s: string)
    ensures IsBlank(ws, s[..|s| - |TrimStart(ws, s)|])
  {
  }

  /** `s` without its trailing whitespace. */
  function TrimEnd(ws: Whitespace, s: string): (r: string)
    ensures |r| <= |s|
    ensures r == [] || !IsSpace(ws, r[|r| - 1])
  {
    s[..SpaceRunBack(ws, s, |s|)]
  }

  /** Everything `TrimEnd` removes is whitespace. */
  lemma TrimEndRemovesSpace(ws: Whitespace, s: string)
    ensures IsBlank(ws, s[|TrimEnd(ws, s)|..])
  {
  }

  /** Python `s.strip()` / JavaScript `s.trim()`: `s` without its leading and
      trailing whitespace. */
  function Strip(ws: Whitespace, s: string): (r: string)
    ensures IsStripped(ws, r)
    ensures |r| <= |s|
  {
    TrimEnd(ws, TrimStart(ws, s))
  }

  /** The stripped text is the infix of `s` that starts where `TrimStart` stops. */
  lemma StripInfix(ws: Whitespace, s: string)
    ensures var k := |s| - |TrimStart(ws, s)|;
      k + |Strip(ws, s)| <= |s| && Strip(ws, s) == s[k..k + |Strip(ws, s)|]
  {
    var k := SpaceRunFrom(ws, s, 0);
    var t := s[k..];
    var m := SpaceRunBack(ws, t, |t|);
    assert Strip(ws, s) == t[..m];
  }

  /** Stripping leaves nothing exactly when `s` is all whitespace. */
  lemma StripEmpty(ws: Whitespace, s: string)
    ensures Strip(ws, s) == [] <==> IsBlank(ws, s)
  {
    var k := SpaceRunFrom(ws, s, 0);
    var t := s[k..];
    var m := SpaceRunBack(ws, t, |t|);
    if Strip(ws, s) == [] {
      assert m == 0 && k == |s|;
    }
  }

  lemma StripOfStripped(ws: Whitespace, s: string)
    requires IsStripped(ws, s)
    ensures Strip(ws, s) == s
  {
    assert SpaceRunFrom(ws, s, 0) == 0;
    assert s[0..] == s;
  }

  /** Stripping is idempotent. */
  lemma StripIdempotent(ws: Whitespace, s: string)
    ensures Strip(ws, Strip(ws, s)) == Strip(ws, s)
  {
    StripOfStripped(ws, Strip(ws, s));
  }

  /** Stripping removes exactly the whitespace padding around a stripped, non-empty text. */
  lemma StripPadded(ws: Whitespace, a: string, w: string, b: string)
    requires IsBlank(ws, a) && IsBlank(ws, b) && IsStripped(ws, w) && w != []
    ensures Strip(ws, a + w + b) == w
  {
    assert a + w + b == a + (w + b);
    TrimStartBlank(ws, a, w + b);
    TrimEndBlank(ws, w, b);
  }

  lemma TrimStartBlank(ws: Whitespace, a: string, t: string)
    requires IsBlank(ws, a) && t != [] && !IsSpace(ws, t[0])
    ensures TrimStart(ws, a + t) == t
  {
    var s := a + t;
    assert s[|a|] == t[0];
    assert forall k :: 0 <= k < |a| ==> s[k] == a[k];
    assert SpaceRunFrom(ws, s, 0) == |a|;
    assert s[|a|..] == t;
  }

  lemma TrimEndBlank(ws: Whitespace, t: string, b: string)
    requires IsBlank(ws, b) && t != [] && !IsSpace(ws, t[|t| - 1])
    ensures TrimEnd(ws, t + b) == t
  {
    var s := t + b;
    assert s[|t| - 1] == t[|t| - 1];
    assert forall k :: |t| <= k < |s| ==> s[k] == b[k - |t|];
    assert SpaceRunBack(ws, s, |s|) == |t|;
    assert s[..|t|] == t;
  }

  // ---------------------------------------------------------------- case

  function LowerChar(c: char): (d: char)
    ensures !('A' <= d <= 'Z')
  {
    if 'A' <= c <= 'Z' then (c as int + 32) as char else c
  }

  function UpperChar(c: char): (d: char)
    ensures !('a' <= d <= 'z')
  {
    if 'a' <= c <= 'z' then (c as int - 32) as char else c
  }

  /** `s.lower()` / `s.toLowerCase()` on the ASCII letters. */
  function Lower(s: string): (r: string)
    ensures |r| == |s|
    ensures forall i :: 0 <= i < |s| ==> r[i] == LowerChar(s[i])
  {
    if s == [] then [] else [LowerChar(s[0])] + Lower(s[1..])
  }

  /** `s.upper()` on the ASCII letters. */
  function Upper(s: string): (r: string)
    ensures |r| == |s|
    ensures forall i :: 0 <= i < |s| ==> r[i] == UpperChar(s[i])
  {
    if s == [] then [] else [UpperChar(s[0])] + Upper(s[1..])
  }

  /** Every occurrence of character `a` replaced by `b` (JavaScript `s.replace(/a/g, b)`). */
  function ReplaceChar(s: string, a: char, b: char): (r: string)
    ensures |r| == |s|
    ensures forall i :: 0 <= i < |s| ==> r[i] == if s[i] == a then b else s[i]
  {
    if s == [] then [] else [if s[0] == a then b else s[0]] + ReplaceChar(s[1..], a, b)
  }

  // ---------------------------------------------------------------- search

  predicate StartsWith(s: string, p: string) {
    |p| <= |s| && s[..|p|] == p
  }

  predicate EndsWith(s: string, p: string) {
    |p| <= |s| && s[|s| - |p|..] == p
  }

  /** `p` occurs in `s` at position `i`. */
  predicate OccursAt(s: string, p: string, i: int) {
    0 <= i && i + |p| <= |s| && s[i..i + |p|] == p
  }

  function IndexFrom(s: string, p: string, i: nat): (r: Option<nat>)
    decreases |s| - i
    ensures r.Some? ==> i <= r.value && OccursAt(s, p, r.value)
    ensures r.Some? ==> forall j :: i <= j < r.value ==> !OccursAt(s, p, j)
    ensures r.None? ==> forall j :: i <= j ==> !OccursAt(s, p, j)
  {
    if i + |p| > |s| then None
    else if s[i..i + |p|] == p then Some(i)
    else IndexFrom(s, p, i + 1)
  }

  /** Python `s.find(p)` / JavaScript `s.indexOf(p)`: the first occurrence, or None for -1. */
  function IndexOf(s: string, p: string): (r: Option<nat>)
    ensures r.Some? ==> OccursAt(s, p, r.value) && forall j :: 0 <= j < r.value ==> !OccursAt(s, p, j)
    ensures r.None? ==> forall j :: !OccursAt(s, p, j)
  {
    IndexFrom(s, p, 0)
  }

  function LastIndexBelow(s: string, p: string, n: nat): (r: Option<nat>)
    ensures r.Some? ==> r.value < n && OccursAt(s, p, r.value)
    ensures r.Some? ==> forall j :: r.value < j < n ==> !OccursAt(s, p, j)
    ensures r.None? ==> forall j :: j < n ==> !OccursAt(s, p, j)
  {
    if n == 0 then None
    else if OccursAt(s, p, n - 1) then Some(n - 1)
    else LastIndexBelow(s, p, n - 1)
  }

  /** Python `s.rfind(p)`: the last occurrence, or None for -1. */
  function LastIndexOf(s: string, p: string): (r: Option<nat>)
    ensures r.Some? ==> OccursAt(s, p, r.value) && forall j :: r.value < j ==> !OccursAt(s, p, j)
    ensures r.None? ==> forall j :: !OccursAt(s, p, j)
  {
    LastIndexBelow(s, p, |s| + 1)
  }

  /** Python `p in s` / JavaScript `s.includes(p)`. */
  predicate Contains(s: string, p: string) {
    IndexOf(s, p).Some?
  }

  /** The text after the last occurrence of `p` (all of `s` when `p` does not occur):
      Python `s.split(p)[-1]` for a separator that cannot overlap itself. */
  function AfterLast(s: string, p: string): (r: string)
    ensures Contains(s, p) ==> exists k :: OccursAt(s, p, k) && r == s[k + |p|..]
    ensures !Contains(s, p) ==> r == s
  {
    match LastIndexOf(s, p)
    case Some(k) => s[k + |p|..]
    case None => s
  }

  /** The text before the first occurrence of `c` (all of `s` when absent):
      JavaScript `s.split(c)[0]`. */
  function BeforeFirst(s: string, c: char): (r: string)
    ensures |r| <= |s| && r == s[..|r|]
    ensures c !in r
    ensures |r| < |s| ==> s[|r|] == c
  {
    if s == [] || s[0] == c then [] else [s[0]] + BeforeFirst(s[1..], c)
  }

  // ---------------------------------------------------------------- lines

  /** The line boundaries of Python `str.splitlines`. */
  predicate IsLineBreak(c: char) {
    c == '\n' || c == '\r' || c == '\U{0B}' || c == '\U{0C}' || '\U{1C}' <= c <= '\U{1E}'
    || c == '\U{85}' || c == '\U{2028}' || c == '\U{2029}'
  }

  predicate NoLineBreak(s: string) {
    forall i :: 0 <= i < |s| ==> !IsLineBreak(s[i])
  }

  /** `s` cut at every line-break character.  Python's `splitlines` differs only in
      empty pieces (no trailing empty line, "\r\n" taken as one break), and every
      caller in the model discards empty pieces. */
  function Lines(s: string): (r: seq<string>)
    ensures |r| >= 1
    ensures forall l :: l in r ==> NoLineBreak(l)
  {
    if s == [] then [[]]
    else
      var rest := Lines(s[1..]);
      if IsLineBreak(s[0]) then [[]] + rest
      else
        assert NoLineBreak(rest[0]);
        [[s[0]] + rest[0]] + rest[1..]
  }

  lemma {:induction false} LinesPrefix(a: string, s: string)
    requires NoLineBreak(a)
    ensures Lines(a + s) == [a + Lines(s)[0]] + Lines(s)[1..]
  {
    if a != [] {
      var L := Lines(s);
      assert (a + s)[1..] == a[1..] + s;
      assert (a + s)[0] == a[0] && !IsLineBreak(a[0]);
      LinesPrefix(a[1..], s);
      assert Lines(a[1..] + s) == [a[1..] + L[0]] + L[1..];
      assert Lines(a + s) == [[a[0]] + (a[1..] + L[0])] + L[1..];
      assert [a[0]] + (a[1..] + L[0]) == a + L[0];
    } else {
      var L := Lines(s);
      assert a + s == s && a + L[0] == L[0];
      assert [L[0]] + L[1..] == L;
    }
  }

  /** Joining break-free lines with "\n" and cutting again gives the lines back. */
  lemma {:induction false} LinesOfJoin(ls: seq<string>)
    requires ls != []
    requires forall l :: l in ls ==> NoLineBreak(l)
    ensures Lines(Seqs.Join(ls, "\n")) == ls
  {
    if |ls| == 1 {
      LinesPrefix(ls[0], []);
      assert ls[0] + [] == ls[0];
    } else {
      var tail := ls[1..];
      var rest := Seqs.Join(tail, "\n");
      var j := "\n" + rest;
      assert Lines(rest) == tail by {
        assert forall l :: l in tail ==> l in ls;
        LinesOfJoin(tail);
      }
      assert Lines(j) == [[]] + tail by {
        assert j[1..] == rest;
      }
      assert Seqs.Join(ls, "\n") == ls[0] + j;
      LinesPrefix(ls[0], j);
      assert ls[0] + [] == ls[0];
      assert [ls[0]] + tail == ls;
    }
  }

  // ---------------------------------------------------------------- numerals

  predicate IsDigit(c: char) {
    '0' <= c <= '9'
  }

  predicate IsDigits(s: string) {
    forall i :: 0 <= i < |s| ==> IsDigit(s[i])
  }

  function DigitChar(d: nat): (c: char)
    requires d < 10
    ensures IsDigit(c)
  {
    (d + '0' as int) as char
  }

  function DigitValue(c: char): (d: nat)
    requires IsDigit(c)
    ensures d < 10 && DigitChar(d) == c
  {
    c as int - '0' as int
  }

  /** The decimal numeral of `n` (JavaScript `n.toString()` for a non-negative integer). */
  function NatToString(n: nat): (r: string)
    ensures |r| >= 1 && IsDigits(r)
    ensures n < 10 <==> |r| == 1
    ensures n < 100 ==> |r| <= 2
    ensures r[0] == '0' ==> n == 0
  {
    if n < 10 then [DigitChar(n)] else NatToString(n / 10) + [DigitChar(n % 10)]
  }

  /** The value of a string of decimal digits. */
  function ParseDigits(s: string): (n: nat)
    requires IsDigits(s)
  {
    if s == [] then 0 else ParseDigits(s[..|s| - 1]) * 10 + DigitValue(s[|s| - 1])
  }

  /** Reading a numeral back gives the number it was made from. */
  lemma {:induction false} ParseNatToString(n: nat)
    ensures ParseDigits(NatToString(n)) == n
  {
    if n >= 10 {
      var r := NatToString(n);
      assert r[..|r| - 1] == NatToString(n / 10);
      ParseNatToString(n / 10);
    } else {
      assert NatToString(n)[..0] == [];
    }
  }

  /** Leading zeros do not change the value of a numeral. */
  lemma {:induction false} ParseLeadingZeros(z: string, s: string)
    requires forall i :: 0 <= i < |z| ==> z[i] == '0'
    requires IsDigits(s)
    ensures IsDigits(z + s) && ParseDigits(z + s) == ParseDigits(s)
    decreases |s|
  {
    if s == [] {
      assert z + s == z;
      ZerosParseToZero(z);
    } else {
      assert (z + s)[..|z + s| - 1] == z + s[..|s| - 1];
      ParseLeadingZeros(z, s[..|s| - 1]);
    }
  }

  lemma {:induction false} ZerosParseToZero(z: string)
    requires forall i :: 0 <= i < |z| ==> z[i] == '0'
    ensures IsDigits(z) && ParseDigits(z) == 0
  {
    if z != [] {
      ZerosParseToZero(z[..|z| - 1]);
    }
  }

  function Repeat(c: char, n: nat): (r: string)
    ensures |r| == n && forall i :: 0 <= i < n ==> r[i] == c
  {
    if n == 0 then [] else [c] + Repeat(c, n - 1)
  }

  /** JavaScript `s.padStart(n, c)` for a one-character pad. */
  function PadStart(s: string, n: nat, c: char): (r: string)
    ensures |r| == if |s| >= n then |s| else n
  {
    if |s| >= n then s else Repeat(c, n - |s|) + s
  }

  /** The padded string ends with the original and is filled with the pad before it. */
  lemma PadStartShape(s: string, n: nat, c: char)
    ensures var r := PadStart(s, n, c);
      EndsWith(r, s) && forall i :: 0 <= i < |r| - |s| ==> r[i] == c
  {
  }

  /** JavaScript `String(i)` for an integer. */
  function IntToString(i: int): (r: string)
    ensures i >= 0 ==> r == NatToString(i)
    ensures i < 0 ==> r == "-" + NatToString(-i)
  {
    if i < 0 then "-" + NatToString(-i) else NatToString(i)
  }

  // ---------------------------------------------------------------- parseInt

  /** The result of JavaScript `Number.parseInt(s)` (radix 10). */
  datatype ParsedInt = NaN | Int(value: int)

  function DigitPrefix(s: string): (r: string)
    ensures IsDigits(r) && |r| <= |s| && r == s[..|r|]
    ensures |r| < |s| ==> !IsDigit(s[|r|])
  {
    if s != [] && IsDigit(s[0]) then [s[0]] + DigitPrefix(s[1..]) else []
  }

  /** JavaScript `Number.parseInt(s)`: skip leading whitespace, read an optional
      sign and the longest run of digits after it; NaN when there is none.
      (Hexadecimal "0x" prefixes are not modelled.) */
  function ParseInt(s: string): (r: ParsedInt)
  {
    ParseSigned(TrimStart(JavaScript, s))
  }

  function ParseSigned(t: string): (r: ParsedInt) {
    if t != [] && t[0] == '-' then
      match ParseUnsigned(t[1..])
      case NaN => NaN
      case Int(n) => Int(-n)
    else if t != [] && t[0] == '+' then ParseUnsigned(t[1..])
    else ParseUnsigned(t)
  }

  function ParseUnsigned(b: string): (r: ParsedInt) {
    var digits := DigitPrefix(b);
    if digits == [] then NaN else Int(ParseDigits(digits))
  }

  lemma DigitPrefixOfDigits(s: string, rest: string)
    requires IsDigits(s)
    requires rest == [] || !IsDigit(rest[0])
    ensures DigitPrefix(s + rest) == s
  {
    if s != [] {
      assert (s + rest)[1..] == s[1..] + rest;
      DigitPrefixOfDigits(s[1..], rest);
    } else {
      assert s + rest == rest;
    }
  }

  lemma TrimStartNoSpace(s: string)
    requires s != [] && !IsSpace(JavaScript, s[0])
    ensures TrimStart(JavaScript, s) == s
  {
    assert s[0..] == s;
  }

  lemma DigitPrefixAll(d: string)
    requires IsDigits(d)
    ensures DigitPrefix(d) == d
  {
    DigitPrefixOfDigits(d, []);
    assert d + [] == d;
  }

  lemma ParseIntOfDigits(d: string)
    requires d != [] && IsDigits(d)
    ensures ParseInt(d) == Int(ParseDigits(d))
  {
    assert IsDigit(d[0]);
    assert TrimStart(JavaScript, d) == d by {
      TrimStartNoSpace(d);
    }
    assert ParseUnsigned(d) == Int(ParseDigits(d)) by {
      DigitPrefixAll(d);
    }
  }

  lemma ParseIntOfNegDigits(d: string)
    requires d != [] && IsDigits(d)
    ensures ParseInt("-" + d) == Int(-(ParseDigits(d) as int))
  {
    var r := "-" + d;
    assert TrimStart(JavaScript, r) == r by {
      TrimStartNoSpace(r);
    }
    assert ParseUnsigned(r[1..]) == Int(ParseDigits(d)) by {
      assert r[1..] == d;
      DigitPrefixAll(d);
    }
  }

  lemma ParseIntOfNatToString(n: nat)
    ensures ParseInt(NatToString(n)) == Int(n)
  {
    ParseNatToString(n);
    ParseIntOfDigits(NatToString(n));
  }

  lemma ParseIntOfNegNatToString(n: nat)
    ensures ParseInt("-" + NatToString(n)) == Int(-(n as int))
  {
    ParseNatToString(n);
    ParseIntOfNegDigits(NatToString(n));
  }

  /** `parseInt` reads back what `String(i)` writes, for every integer. */
  lemma ParseIntOfIntToString(i: int)
    ensures ParseInt(IntToString(i)) == Int(i)
  {
    if i >= 0 {
      ParseIntOfNatToString(i);
    } else {
      ParseIntOfNegNatToString(-i);
    }
  }
}
