/**
 * Text helpers: ASCII case folding, substring search and the decimal
 * rendering of integers that the error messages embed.
 */
module Text {

  /** ASCII lower-casing of a single character. */
  function LowerChar(c: char): char {
    if 'A' <= c <= 'Z' then (c as int + 32) as char else c
  }

  /** `s` with every ASCII upper-case letter lowered. */
  function Lower(s: string): (r: string)
    ensures |r| == |s|
    ensures forall i :: 0 <= i < |s| ==> r[i] == LowerChar(s[i])
  {
    seq(|s|, i requires 0 <= i < |s| => LowerChar(s[i]))
  }

  /** `needle` occurs in `hay` starting at offset `i`. */
  predicate OccursAt(hay: string, needle: string, i: int) {
    0 <= i <= |hay| - |needle| && hay[i..i + |needle|] == needle
  }

  /** `needle` occurs in `hay` at some offset. */
  predicate Contains(hay: string, needle: string) {
    exists i :: 0 <= i <= |hay| && OccursAt(hay, needle, i)
  }

  /** The `icontains` lookup: substring test after case folding both sides. */
  predicate ContainsIgnoreCase(hay: string, needle: string) {
    Contains(Lower(hay), Lower(needle))
  }

  /** Python's `str.isspace` for one character. */
  predicate IsSpace(c: char) {
    var n := c as int;
    || 9 <= n <= 13 || 28 <= n <= 32 || n == 0x85 || n == 0xA0 || n == 0x1680
    || 0x2000 <= n <= 0x200A || n == 0x2028 || n == 0x2029 || n == 0x202F || n == 0x205F || n == 0x3000
  }

  /** `s.lstrip()`: what is left after the leading whitespace. */
  function TrimStart(s: string): string
    decreases |s|
  {
    if s != [] && IsSpace(s[0]) then TrimStart(s[1..]) else s
  }

  /** `s.rstrip()`: what is left after the trailing whitespace. */
  function TrimEnd(s: string): string
    decreases |s|
  {
    if s != [] && IsSpace(s[|s| - 1]) then TrimEnd(s[..|s| - 1]) else s
  }

  /** `s.strip()`: leading and trailing whitespace removed. */
  function Trim(s: string): string {
    TrimEnd(TrimStart(s))
  }

  /** `lstrip` drops a whitespace prefix and stops at the first other character. */
  lemma {:induction false} TrimStartMeaning(s: string)
    ensures |TrimStart(s)| <= |s| && TrimStart(s) == s[|s| - |TrimStart(s)|..]
    ensures forall j :: 0 <= j < |s| - |TrimStart(s)| ==> IsSpace(s[j])
    ensures TrimStart(s) != [] ==> !IsSpace(TrimStart(s)[0])
    decreases |s|
  {
    if s != [] && IsSpace(s[0]) {
      TrimStartMeaning(s[1..]);
    }
  }

  /** `rstrip` drops a whitespace suffix and stops at the last other character. */
  lemma {:induction false} TrimEndMeaning(s: string)
    ensures |TrimEnd(s)| <= |s| && TrimEnd(s) == s[..|TrimEnd(s)|]
    ensures forall j :: |TrimEnd(s)| <= j < |s| ==> IsSpace(s[j])
    ensures TrimEnd(s) != [] ==> !IsSpace(TrimEnd(s)[|TrimEnd(s)| - 1])
    decreases |s|
  {
    if s != [] && IsSpace(s[|s| - 1]) {
      TrimEndMeaning(s[..|s| - 1]);
      assert s[..|s| - 1][..|TrimEnd(s)|] == s[..|TrimEnd(s)|];
    }
  }

  /** How many whitespace characters `s.strip()` removes from the front. */
  function Lead(s: string): (n: nat)
    ensures n <= |s|
  {
    TrimStartMeaning(s);
    |s| - |TrimStart(s)|
  }

  /** The stripped string is the middle of `s`, and only whitespace surrounds it. */
  lemma TrimMeaning(s: string)
    ensures Lead(s) + |Trim(s)| <= |s|
    ensures s[Lead(s)..Lead(s) + |Trim(s)|] == Trim(s)
    ensures forall j :: 0 <= j < Lead(s) ==> IsSpace(s[j])
    ensures forall j :: Lead(s) + |Trim(s)| <= j < |s| ==> IsSpace(s[j])
    ensures Trim(s) != [] ==> !IsSpace(Trim(s)[0]) && !IsSpace(Trim(s)[|Trim(s)| - 1])
  {
    var t := TrimStart(s);
    TrimStartMeaning(s);
    var i := |s| - |t|;
    assert t == s[i..];
    TrimEndWithin(s, i);
    var r := Trim(s);
    if r != [] {
      assert r[0] == t[0];
    }
  }

  /** `TrimEnd` of the suffix from `i` is that part of `s`, followed only by whitespace. */
  lemma TrimEndWithin(s: string, i: nat)
    requires i <= |s|
    ensures i + |TrimEnd(s[i..])| <= |s|
    ensures s[i..i + |TrimEnd(s[i..])|] == TrimEnd(s[i..])
    ensures forall j :: i + |TrimEnd(s[i..])| <= j < |s| ==> IsSpace(s[j])
    ensures TrimEnd(s[i..]) != [] ==> !IsSpace(TrimEnd(s[i..])[|TrimEnd(s[i..])| - 1])
  {
    var t := s[i..];
    TrimEndMeaning(t);
    var r := TrimEnd(t);
    assert s[i..][..|r|] == s[i..i + |r|];
    forall j | i + |r| <= j < |s| ensures IsSpace(s[j]) {
      assert s[j] == t[j - i];
    }
  }

  /** Stripping leaves nothing exactly when `s` is all whitespace. */
  lemma TrimBlank(s: string)
    ensures Trim(s) == "" <==> forall j :: 0 <= j < |s| ==> IsSpace(s[j])
  {
    TrimMeaning(s);
  }

  /** A string with no surrounding whitespace is left as it is. */
  lemma TrimUnpadded(s: string)
    requires s == "" || (!IsSpace(s[0]) && !IsSpace(s[|s| - 1]))
    ensures Trim(s) == s
  {
    assert TrimStart(s) == s;
    assert TrimEnd(s) == s;
  }

  /** Stripping twice strips no more than once. */
  lemma TrimIdempotent(s: string)
    ensures Trim(Trim(s)) == Trim(s)
  {
    TrimMeaning(s);
    TrimUnpadded(Trim(s));
  }

  /** Every string contains its own stripped form, whatever the case. */
  lemma ContainsIgnoreCaseTrim(s: string)
    ensures ContainsIgnoreCase(s, Trim(s))
  {
    TrimMeaning(s);
    var r := Trim(s);
    var i := Lead(s);
    var hay, needle := Lower(s), Lower(r);
    forall j | 0 <= j < |r| ensures hay[i + j] == needle[j] {
      assert s[i + j] == r[j];
    }
    assert hay[i..i + |r|] == needle;
    assert OccursAt(hay, needle, i);
  }

  /** Whitespace-only values strip to nothing; padding around a word goes. */
  lemma TrimExamples()
    ensures Trim(" \t") == ""
    ensures Trim(" a ") == "a"
  {
    TrimBlank(" \t");
    TrimUnpadded("a");
    assert TrimStart(" a ") == "a ";
    assert TrimEnd("a ") == "a";
  }

  /** The character of a decimal digit 0..9. */
  function DigitChar(d: nat): (c: char)
    requires d < 10
    ensures '0' <= c <= '9'
  {
    ('0' as int + d) as char
  }

  /** Python's `str(n)` for a natural number: decimal, no leading zeros. */
  function NatToString(n: nat): (r: string)
    ensures |r| >= 1
    ensures forall i :: 0 <= i < |r| ==> '0' <= r[i] <= '9'
    ensures |r| > 1 ==> r[0] != '0'
    decreases n
  {
    if n < 10 then [DigitChar(n)] else NatToString(n / 10) + [DigitChar(n % 10)]
  }

  /** Python's `str(i)` for any integer. */
  function IntToString(i: int): (r: string)
    ensures |r| >= 1
    ensures (r[0] == '-') <==> i < 0
  {
    if i < 0 then "-" + NatToString(-i) else NatToString(i)
  }

  /** The value of a string of decimal digits (the inverse of NatToString). */
  function DigitsValue(s: string): nat
    requires forall i :: 0 <= i < |s| ==> '0' <= s[i] <= '9'
    decreases |s|
  {
    if s == [] then 0
    else DigitsValue(s[..|s| - 1]) * 10 + (s[|s| - 1] as int - '0' as int)
  }

  /** Reading back the decimal rendering gives the number: distinct numbers render distinctly. */
  lemma {:induction false} NatToStringRoundTrip(n: nat)
    ensures DigitsValue(NatToString(n)) == n
    decreases n
  {
    var r := NatToString(n);
    if n >= 10 {
      NatToStringRoundTrip(n / 10);
      assert r[..|r| - 1] == NatToString(n / 10);
    }
  }
}
