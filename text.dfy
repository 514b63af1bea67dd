/** The string operations of .NET that the distribution code relies on
    (upper/lower casing, trimming, splitting, joining, replacing), written
    out on `seq<char>`. Casing covers ASCII letters only. */
module Text {

  const NewLine: string := "\r\n"

  function UpperChar(c: char): char {
    if 'a' <= c <= 'z' then (c as int - 32) as char else c
  }

  function LowerChar(c: char): char {
    if 'A' <= c <= 'Z' then (c as int + 32) as char else c
  }

  /** String.ToUpperInvariant */
  function ToUpper(s: string): (r: string)
    ensures |r| == |s|
    ensures forall i :: 0 <= i < |s| ==> r[i] == UpperChar(s[i])
  {
    seq(|s|, i requires 0 <= i < |s| => UpperChar(s[i]))
  }

  /** String.ToLowerInvariant */
  function ToLower(s: string): (r: string)
    ensures |r| == |s|
    ensures forall i :: 0 <= i < |s| ==> r[i] == LowerChar(s[i])
  {
    seq(|s|, i requires 0 <= i < |s| => LowerChar(s[i]))
  }

  /** Char.IsWhiteSpace, restricted to the ASCII and Latin-1 white space. */
  predicate IsWhiteSpace(c: char) {
    c == ' ' || c == '\t' || c == '\n' || c == '\r' || c == 11 as char || c == 12 as char
    || c == 0x85 as char || c == 0xA0 as char
  }

  function TrimStart(s: string): (r: string)
    ensures |r| <= |s| && r == s[|s| - |r|..]
    ensures r == [] || !IsWhiteSpace(r[0])
    decreases |s|
  {
    if |s| > 0 && IsWhiteSpace(s[0]) then TrimStart(s[1..]) else s
  }

  function TrimEnd(s: string): (r: string)
    ensures |r| <= |s| && r == s[..|r|]
    ensures r == [] || !IsWhiteSpace(r[|r| - 1])
    decreases |s|
  {
    if |s| > 0 && IsWhiteSpace(s[|s| - 1]) then TrimEnd(s[..|s| - 1]) else s
  }

  /** String.Trim() */
  function Trim(s: string): string {
    TrimEnd(TrimStart(s))
  }

  /** String.TrimEnd(c) */
  function TrimEndChar(s: string, c: char): (r: string)
    ensures |r| <= |s| && r == s[..|r|]
    ensures r == [] || r[|r| - 1] != c
    decreases |s|
  {
    if |s| > 0 && s[|s| - 1] == c then TrimEndChar(s[..|s| - 1], c) else s
  }

  /** String.TrimStart(c) */
  function TrimStartChar(s: string, c: char): (r: string)
    ensures |r| <= |s| && r == s[|s| - |r|..]
    ensures r == [] || r[0] != c
    decreases |s|
  {
    if |s| > 0 && s[0] == c then TrimStartChar(s[1..], c) else s
  }

  /** String.Trim(c) */
  function TrimChar(s: string, c: char): string {
    TrimEndChar(TrimStartChar(s, c), c)
  }

  /** String.Replace(char, char) */
  function ReplaceChar(s: string, a: char, b: char): (r: string)
    ensures |r| == |s|
    ensures forall i :: 0 <= i < |s| ==> r[i] == if s[i] == a then b else s[i]
  {
    seq(|s|, i requires 0 <= i < |s| => if s[i] == a then b else s[i])
  }

  lemma ReplaceCharConcat(s: string, t: string, a: char, b: char)
    ensures ReplaceChar(s + t, a, b) == ReplaceChar(s, a, b) + ReplaceChar(t, a, b)
  {
    var l, r := ReplaceChar(s + t, a, b), ReplaceChar(s, a, b) + ReplaceChar(t, a, b);
    assert forall i :: 0 <= i < |l| ==> l[i] == r[i];
  }

  /** String.Replace(x, "") for a one-character x */
  function RemoveChar(s: string, a: char): (r: string)
    ensures a !in r
    ensures |r| <= |s|
    ensures forall c :: c in r ==> c in s
  {
    if s == [] then [] else (if s[0] == a then [] else [s[0]]) + RemoveChar(s[1..], a)
  }

  /** String.Replace(pattern, replacement): every non-overlapping occurrence
      of `pat`, scanning left to right, is replaced. */
  function ReplaceAll(s: string, pat: string, rep: string): string
    requires |pat| > 0
    decreases |s|
  {
    if |s| == 0 then []
    else if pat <= s then rep + ReplaceAll(s[|pat|..], pat, rep)
    else [s[0]] + ReplaceAll(s[1..], pat, rep)
  }

  /** String.Contains(p) */
  predicate Contains(s: string, p: string)
    decreases |s|
  {
    p <= s || (|s| > 0 && Contains(s[1..], p))
  }

  /** String.Split(separators): the pieces between separators, empty pieces
      included, so there is always at least one piece. */
  function SplitOn(s: string, seps: set<char>): (parts: seq<string>)
    ensures |parts| > 0
    ensures forall k :: 0 <= k < |parts| ==> forall j :: 0 <= j < |parts[k]| ==> parts[k][j] !in seps
    decreases |s|
  {
    if s == [] then [""]
    else
      var rest := SplitOn(s[1..], seps);
      if s[0] in seps then [""] + rest
      else [[s[0]] + rest[0]] + rest[1..]
  }

  /** The pieces that StringSplitOptions.RemoveEmptyEntries keeps. */
  function RemoveEmpty(parts: seq<string>): (r: seq<string>)
    ensures forall k :: 0 <= k < |r| ==> r[k] != []
    ensures |r| <= |parts|
  {
    if parts == [] then []
    else (if parts[0] == [] then [] else [parts[0]]) + RemoveEmpty(parts[1..])
  }

  /** String.Join(sep, parts) */
  function Join(sep: string, parts: seq<string>): string {
    if |parts| == 0 then ""
    else if |parts| == 1 then parts[0]
    else parts[0] + sep + Join(sep, parts[1..])
  }

  function Digit(d: int): char
    requires 0 <= d < 10
  {
    "0123456789"[d]
  }

  predicate IsDigit(c: char) {
    '0' <= c <= '9'
  }

  /** The decimal text of a natural number (Int32.ToString for n >= 0). */
  function NatToString(n: nat): (r: string)
    ensures |r| > 0
    ensures forall i :: 0 <= i < |r| ==> IsDigit(r[i])
  {
    if n < 10 then [Digit(n)] else NatToString(n / 10) + [Digit(n % 10)]
  }

  /** Int32.ToString */
  function IntToString(n: int): string {
    if n < 0 then "-" + NatToString(-n) else NatToString(n)
  }

  /** The value of a decimal digit. */
  function DigitValue(c: char): (d: int)
    requires IsDigit(c)
    ensures 0 <= d < 10
  {
    c as int - '0' as int
  }

  lemma DigitValueOfDigit(d: int)
    requires 0 <= d < 10
    ensures DigitValue(Digit(d)) == d
  {
    assert "0123456789"[d] as int - '0' as int == d;
  }

  /** Int32.Parse of a string of decimal digits (without overflow). */
  function ParseNat(s: string): nat
    requires forall i :: 0 <= i < |s| ==> IsDigit(s[i])
  {
    if s == [] then 0 else ParseNat(s[..|s| - 1]) * 10 + DigitValue(s[|s| - 1])
  }

  /** Parsing the decimal text of a number gives the number back. */
  lemma {:induction false} ParseNatToString(n: nat)
    ensures ParseNat(NatToString(n)) == n
  {
    var r := NatToString(n);
    if n < 10 {
      DigitValueOfDigit(n);
      assert r[..|r| - 1] == [];
    } else {
      assert r[..|r| - 1] == NatToString(n / 10);
      ParseNatToString(n / 10);
      DigitValueOfDigit(n % 10);
    }
  }

  lemma DigitInjective(a: int, b: int)
    requires 0 <= a < 10 && 0 <= b < 10 && Digit(a) == Digit(b)
    ensures a == b
  {
  }

  /** Distinct numbers have distinct decimal texts. */
  lemma {:induction false} NatToStringInjective(n: nat, m: nat)
    requires NatToString(n) == NatToString(m)
    ensures n == m
  {
    var rn, rm := NatToString(n), NatToString(m);
    if n < 10 && m < 10 {
      DigitInjective(n, m);
    } else if n >= 10 && m >= 10 {
      assert rn[..|rn| - 1] == NatToString(n / 10);
      assert rm[..|rm| - 1] == NatToString(m / 10);
      NatToStringInjective(n / 10, m / 10);
      assert rn[|rn| - 1] == Digit(n % 10) && rm[|rm| - 1] == Digit(m % 10);
      DigitInjective(n % 10, m % 10);
    }
  }

  /** Joining the pieces of a split with one string `r` replaces every
      separator by `r`: the identity behind `String.Join("_", s.Split(cs))`. */
  lemma {:induction false} JoinSplitOn(s: string, seps: set<char>, c: char)
    ensures Join([c], SplitOn(s, seps)) == seq(|s|, i requires 0 <= i < |s| => if s[i] in seps then c else s[i])
    decreases |s|
  {
    var expected := seq(|s|, i requires 0 <= i < |s| => if s[i] in seps then c else s[i]);
    if s != [] {
      var rest := SplitOn(s[1..], seps);
      JoinSplitOn(s[1..], seps, c);
      var tail := seq(|s| - 1, i requires 0 <= i < |s| - 1 => if s[1..][i] in seps then c else s[1..][i]);
      assert expected == [expected[0]] + tail;
      if s[0] in seps {
        assert SplitOn(s, seps) == [""] + rest;
        assert Join([c], [""] + rest) == "" + [c] + Join([c], rest);
      } else {
        assert SplitOn(s, seps) == [[s[0]] + rest[0]] + rest[1..];
        JoinConsChar(s[0], rest, [c]);
      }
    }
  }

  lemma JoinConsChar(x: char, parts: seq<string>, sep: string)
    requires |parts| > 0
    ensures Join(sep, [[x] + parts[0]] + parts[1..]) == [x] + Join(sep, parts)
  {
    var ps := [[x] + parts[0]] + parts[1..];
    if |parts| == 1 {
    } else {
      assert ps[1..] == parts[1..];
    }
  }

  /** The number of decimal digits at the start of `s`. */
  function LeadingDigits(s: string): (n: nat)
    ensures n <= |s|
    ensures forall i :: 0 <= i < n ==> IsDigit(s[i])
    ensures n == |s| || !IsDigit(s[n])
  {
    if s != [] && IsDigit(s[0]) then 1 + LeadingDigits(s[1..]) else 0
  }

  lemma {:induction false} LeadingDigitsOfSplit(d: string, e: string)
    requires forall i :: 0 <= i < |d| ==> IsDigit(d[i])
    requires e == [] || e[0] == '.'
    ensures LeadingDigits(d + e) == |d|
    decreases |d|
  {
    if d != [] {
      assert (d + e)[1..] == d[1..] + e;
      LeadingDigitsOfSplit(d[1..], e);
    }
  }

  /** A digit string followed by an extension that is empty or starts with
      '.' splits uniquely into the two. */
  lemma DigitsThenExtension(d1: string, e1: string, d2: string, e2: string)
    requires forall i :: 0 <= i < |d1| ==> IsDigit(d1[i])
    requires forall i :: 0 <= i < |d2| ==> IsDigit(d2[i])
    requires e1 == [] || e1[0] == '.'
    requires e2 == [] || e2[0] == '.'
    requires d1 + e1 == d2 + e2
    ensures d1 == d2 && e1 == e2
  {
    var s := d1 + e1;
    LeadingDigitsOfSplit(d1, e1);
    LeadingDigitsOfSplit(d2, e2);
    assert d1 == s[..|d1|] == d2;
    assert e1 == s[|d1|..] == e2;
  }

  /** Splitting after a separator-free piece and one separator. */
  lemma {:induction false} SplitOnPiece(x: string, c: char, rest: string, seps: set<char>)
    requires c in seps
    requires forall i :: 0 <= i < |x| ==> x[i] !in seps
    ensures SplitOn(x + [c] + rest, seps) == [x] + SplitOn(rest, seps)
    decreases |x|
  {
    var s := x + [c] + rest;
    if x == [] {
      assert s[1..] == rest;
    } else {
      assert s[1..] == x[1..] + [c] + rest;
      SplitOnPiece(x[1..], c, rest, seps);
      assert [x[0]] + x[1..] == x;
    }
  }

  /** Joining the pieces of a split on one character gives the string back. */
  lemma JoinSplitOnChar(s: string, c: char)
    ensures Join([c], SplitOn(s, {c})) == s
  {
    JoinSplitOn(s, {c}, c);
    var t := Join([c], SplitOn(s, {c}));
    assert |t| == |s|;
    assert forall i :: 0 <= i < |s| ==> t[i] == s[i];
  }
}
