/**
 * The parts of Python's `str` behaviour that the query runner relies on:
 * `str.strip()`, the `in` substring test, `str.join`, `str(int)` and the
 * truthiness of an `Optional[str]`.
 */
module PyText {
  import opened Wrappers

  /** Python's `str.isspace()` on one character (the Unicode White_Space set
    * plus the four ASCII separators 0x1C-0x1F). */
  predicate IsSpace(c: char) {
    c == ' ' || ('\t' <= c <= '\r') || ('\U{1C}' <= c <= '\U{1F}')
    || c == '\U{85}' || c == '\U{A0}' || c == '\U{1680}'
    || ('\U{2000}' <= c <= '\U{200A}') || c == '\U{2028}' || c == '\U{2029}'
    || c == '\U{202F}' || c == '\U{205F}' || c == '\U{3000}'
  }

  ghost predicate AllSpace(s: string) {
    forall i :: 0 <= i < |s| ==> IsSpace(s[i])
  }

  /** Neither end of `s` is white space. */
  ghost predicate IsStripped(s: string) {
    s == [] || (!IsSpace(s[0]) && !IsSpace(s[|s| - 1]))
  }

  /** `r` is what is left of `s` once white space is removed from both ends:
    * a stripped slice of `s` with only white space around it. */
  ghost predicate IsStripOf(r: string, s: string) {
    IsStripped(r) &&
    exists i, j :: 0 <= i <= j <= |s| && r == s[i..j] && AllSpace(s[..i]) && AllSpace(s[j..])
  }

  /** How many white-space characters `s` starts with. */
  function LeadingSpaces(s: string): (n: nat)
    ensures n <= |s|
    ensures forall k :: 0 <= k < n ==> IsSpace(s[k])
    ensures n < |s| ==> !IsSpace(s[n])
  {
    if s != [] && IsSpace(s[0]) then
      var n := 1 + LeadingSpaces(s[1..]);
      assert forall k :: 1 <= k < n ==> s[k] == s[1..][k - 1];
      n
    else 0
  }

  /** Where the white space at the end of `s` begins. */
  function TrailingStart(s: string): (n: nat)
    ensures n <= |s|
    ensures forall k :: n <= k < |s| ==> IsSpace(s[k])
    ensures 0 < n ==> !IsSpace(s[n - 1])
  {
    if s != [] && IsSpace(s[|s| - 1]) then
      var n := TrailingStart(s[..|s| - 1]);
      assert forall k :: n <= k < |s| - 1 ==> s[k] == s[..|s| - 1][k];
      n
    else |s|
  }

  lemma SpacesFormPrefix(s: string, i: nat)
    requires i <= |s| && forall k :: 0 <= k < i ==> IsSpace(s[k])
    ensures AllSpace(s[..i])
  {
    forall k | 0 <= k < i ensures IsSpace(s[..i][k]) { assert s[..i][k] == s[k]; }
  }

  lemma SpacesFormSuffix(s: string, j: nat)
    requires j <= |s| && forall k :: j <= k < |s| ==> IsSpace(s[k])
    ensures AllSpace(s[j..])
  {
    forall k | 0 <= k < |s| - j ensures IsSpace(s[j..][k]) { assert s[j..][k] == s[j + k]; }
  }

  /** A slice that starts and ends on a non-space character, with only white
    * space in front of it and behind it, is what stripping leaves. */
  lemma StripSlice(s: string, i: nat, j: nat)
    requires i < |s| && j <= |s|
    requires forall k :: 0 <= k < i ==> IsSpace(s[k])
    requires forall k :: j <= k < |s| ==> IsSpace(s[k])
    requires !IsSpace(s[i]) && (0 < j ==> !IsSpace(s[j - 1]))
    ensures i < j && IsStripOf(s[i..j], s)
  {
    SpacesFormPrefix(s, i);
    SpacesFormSuffix(s, j);
    var r := s[i..j];
    assert r[0] == s[i] && r[|r| - 1] == s[j - 1];
  }

  /** Cutting the leading and the trailing white space of a text that is not
    * all white space leaves a stripped slice with only white space around it. */
  lemma StripIndices(s: string)
    requires LeadingSpaces(s) < |s|
    ensures LeadingSpaces(s) < TrailingStart(s)
    ensures IsStripOf(s[LeadingSpaces(s)..TrailingStart(s)], s)
  {
    StripSlice(s, LeadingSpaces(s), TrailingStart(s));
  }

  /** A text made of white space only strips to nothing. */
  lemma StripAllSpace(s: string)
    requires LeadingSpaces(s) == |s|
    ensures IsStripOf("", s)
  {
    SpacesFormPrefix(s, |s|);
    SpacesFormSuffix(s, |s|);
    assert "" == s[|s|..|s|];
  }

  /** `str.strip()`. */
  function Strip(s: string): (r: string)
    ensures IsStripOf(r, s)
  {
    var i := LeadingSpaces(s);
    if i == |s| then StripAllSpace(s); ""
    else StripIndices(s); s[i..TrailingStart(s)]
  }

  lemma SpaceBefore(s: string, i: nat)
    requires i <= |s| && AllSpace(s[..i])
    ensures forall k :: 0 <= k < i ==> IsSpace(s[k])
  {
    forall k | 0 <= k < i ensures IsSpace(s[k]) { assert s[..i][k] == s[k]; }
  }

  lemma SpaceAfter(s: string, j: nat)
    requires j <= |s| && AllSpace(s[j..])
    ensures forall k :: j <= k < |s| ==> IsSpace(s[k])
  {
    forall k | j <= k < |s| ensures IsSpace(s[k]) { assert s[j..][k - j] == s[k]; }
  }

  /** The stripped slice starts at the first non-space character and ends
    * after the last one. */
  lemma StripBounds(r: string, s: string, i: nat, j: nat)
    requires i <= j <= |s| && r == s[i..j] && AllSpace(s[..i]) && AllSpace(s[j..]) && IsStripped(r)
    ensures forall k :: 0 <= k < i ==> IsSpace(s[k])
    ensures forall k :: j <= k < |s| ==> IsSpace(s[k])
    ensures r != [] ==> !IsSpace(s[i]) && !IsSpace(s[j - 1])
    ensures r == [] <==> i == j
  {
    SpaceBefore(s, i);
    SpaceAfter(s, j);
  }

  lemma StripOfUnique(r1: string, r2: string, s: string)
    requires IsStripOf(r1, s) && IsStripOf(r2, s)
    ensures r1 == r2
  {
    var i1, j1 :| 0 <= i1 <= j1 <= |s| && r1 == s[i1..j1] && AllSpace(s[..i1]) && AllSpace(s[j1..]);
    var i2, j2 :| 0 <= i2 <= j2 <= |s| && r2 == s[i2..j2] && AllSpace(s[..i2]) && AllSpace(s[j2..]);
    StripBounds(r1, s, i1, j1);
    StripBounds(r2, s, i2, j2);
    if r1 == [] && r2 == [] {
    } else if r1 == [] {
      assert false;
    } else if r2 == [] {
      assert false;
    } else {
      assert i1 == i2 && j1 == j2;
    }
  }

  /** A string with no white space at either end is its own strip. */
  lemma StrippedIsFixed(s: string)
    requires IsStripped(s)
    ensures Strip(s) == s
  {
    assert s[0..|s|] == s && s[..0] == [] && s[|s|..] == [];
    assert IsStripOf(s, s);
    StripOfUnique(Strip(s), s, s);
  }

  /** `s.strip().strip() == s.strip()`. */
  lemma StripIdempotent(s: string)
    ensures Strip(Strip(s)) == Strip(s)
  {
    StrippedIsFixed(Strip(s));
  }

  /** Python's `needle in haystack` on strings. */
  ghost predicate IsSubstring(needle: string, haystack: string) {
    exists i, j :: 0 <= i <= j <= |haystack| && haystack[i..j] == needle
  }

  /** Computes `needle in haystack` by trying every start position. */
  function Contains(haystack: string, needle: string): bool
    decreases |haystack|
  {
    if |needle| > |haystack| then false
    else if haystack[..|needle|] == needle then true
    else Contains(haystack[1..], needle)
  }

  /** An occurrence in the tail is an occurrence in the whole. */
  lemma SubstringOfTail(haystack: string, needle: string)
    requires haystack != [] && IsSubstring(needle, haystack[1..])
    ensures IsSubstring(needle, haystack)
  {
    var tail := haystack[1..];
    var i, j :| 0 <= i <= j <= |tail| && tail[i..j] == needle;
    assert haystack[i + 1..j + 1] == needle;
  }

  /** An occurrence that is not at the start is an occurrence in the tail. */
  lemma SubstringNotAtStart(haystack: string, needle: string)
    requires |needle| <= |haystack| && haystack[..|needle|] != needle
    requires IsSubstring(needle, haystack)
    ensures IsSubstring(needle, haystack[1..])
  {
    var i, j :| 0 <= i <= j <= |haystack| && haystack[i..j] == needle;
    if i == 0 {
      assert false;
    }
    assert haystack[1..][i - 1..j - 1] == needle;
  }

  lemma {:induction false} ContainsIsSubstring(haystack: string, needle: string)
    ensures Contains(haystack, needle) <==> IsSubstring(needle, haystack)
    decreases |haystack|
  {
    if |needle| > |haystack| {
    } else if haystack[..|needle|] == needle {
      assert haystack[0..|needle|] == needle;
    } else {
      ContainsIsSubstring(haystack[1..], needle);
      if IsSubstring(needle, haystack[1..]) {
        SubstringOfTail(haystack, needle);
      }
      if IsSubstring(needle, haystack) {
        SubstringNotAtStart(haystack, needle);
      }
    }
  }

  /** `[x for x in parts if x]`. */
  function NonEmpty(parts: seq<string>): (r: seq<string>)
    ensures forall i :: 0 <= i < |r| ==> r[i] != ""
  {
    if parts == [] then []
    else if parts[0] == "" then NonEmpty(parts[1..])
    else [parts[0]] + NonEmpty(parts[1..])
  }

  /** Filtering a pair keeps its non-empty members, in order. */
  lemma NonEmptyPair(a: string, b: string)
    ensures NonEmpty([a, b]) == (if a == "" then [] else [a]) + (if b == "" then [] else [b])
  {
    assert [a, b][1..] == [b];
    assert [b][1..] == [];
    assert NonEmpty([b]) == (if b == "" then [] else [b]);
  }

  /** `sep.join(parts)`. */
  function Join(sep: string, parts: seq<string>): string {
    if parts == [] then ""
    else if |parts| == 1 then parts[0]
    else parts[0] + sep + Join(sep, parts[1..])
  }

  /** Joining two strings puts the separator between them. */
  lemma JoinPair(sep: string, a: string, b: string)
    ensures Join(sep, [a, b]) == a + sep + b
  {
    assert [a, b][1..] == [b];
  }

  /** The truthiness of an `Optional[str]`: present and non-empty. */
  predicate Truthy(o: Option<string>) {
    o.Some? && o.value != ""
  }

  predicate IsDigit(c: char) {
    '0' <= c <= '9'
  }

  function DigitChar(d: nat): (c: char)
    requires d < 10
    ensures IsDigit(c) && c as int == '0' as int + d
  {
    ['0', '1', '2', '3', '4', '5', '6', '7', '8', '9'][d]
  }

  function DigitValue(c: char): (d: nat)
    requires IsDigit(c)
    ensures d < 10 && DigitChar(d) == c
  {
    (c as int - '0' as int)
  }

  /** One or more decimal digits, with no leading zero unless the whole
    * string is `"0"`. */
  predicate IsDecimal(d: string) {
    d != [] && (forall i :: 0 <= i < |d| ==> IsDigit(d[i])) && (d[0] == '0' ==> d == "0")
  }

  /** The decimal digits of `n`, most significant first, with no leading zero. */
  function NatToDecimal(n: nat): (s: string)
    ensures IsDecimal(s)
    ensures s == "0" <==> n == 0
  {
    if n < 10 then [DigitChar(n)] else NatToDecimal(n / 10) + [DigitChar(n % 10)]
  }

  /** What `str` produces for an `int`: the digits of its magnitude, preceded
    * by a minus sign exactly when it is negative (so never `"-"` or `"-0"`). */
  predicate IsIntLiteral(s: string) {
    IsDecimal(s) || (|s| >= 2 && s[0] == '-' && s[1..] != "0" && IsDecimal(s[1..]))
  }

  /** Python's `str(n)` for an `int`. */
  function IntToString(n: int): (s: string)
    ensures IsIntLiteral(s)
    ensures s[0] == '-' <==> n < 0
  {
    if n < 0 then
      var d := NatToDecimal(-n);
      assert ("-" + d)[1..] == d;
      "-" + d
    else NatToDecimal(n)
  }

  /** Reads a string of decimal digits (the partner of `NatToDecimal`). */
  function ParseDecimal(s: string): nat
    requires forall i :: 0 <= i < |s| ==> IsDigit(s[i])
  {
    if s == [] then 0 else ParseDecimal(s[..|s| - 1]) * 10 + DigitValue(s[|s| - 1])
  }

  /** Python's `int(s)` on the strings `str` produces. */
  function ParseInt(s: string): int
    requires IsIntLiteral(s)
  {
    if s[0] == '-' then 0 - ParseDecimal(s[1..]) else ParseDecimal(s)
  }

  lemma {:induction false} ParseNatToDecimal(n: nat)
    ensures ParseDecimal(NatToDecimal(n)) == n
  {
    if n >= 10 {
      var s, d := NatToDecimal(n), NatToDecimal(n / 10);
      assert s == d + [DigitChar(n % 10)];
      assert s[..|s| - 1] == d && s[|s| - 1] == DigitChar(n % 10);
      assert DigitValue(DigitChar(n % 10)) == n % 10;
      ParseNatToDecimal(n / 10);
    }
  }

  lemma ParseNegative(d: string)
    requires IsDecimal(d) && d != "0"
    ensures IsIntLiteral("-" + d) && ParseInt("-" + d) == 0 - ParseDecimal(d)
  {
    assert ("-" + d)[0] == '-' && ("-" + d)[1..] == d;
  }

  lemma ParseNonNegative(d: string)
    requires IsDecimal(d)
    ensures IsIntLiteral(d) && ParseInt(d) == ParseDecimal(d)
  {
    assert IsDigit(d[0]);
  }

  /** `int(str(n)) == n`: the number passed on a command line is the number given. */
  lemma ParseIntToString(n: int)
    ensures ParseInt(IntToString(n)) == n
  {
    if n < 0 {
      var d := NatToDecimal(-n);
      assert ParseInt(IntToString(n)) == 0 - ParseDecimal(d) by {
        assert IntToString(n) == "-" + d;
        ParseNegative(d);
      }
      assert ParseDecimal(d) == -n by { ParseNatToDecimal(-n); }
    } else {
      var d := NatToDecimal(n);
      assert ParseInt(IntToString(n)) == ParseDecimal(d) by {
        assert IntToString(n) == d;
        ParseNonNegative(d);
      }
      assert ParseDecimal(d) == n by { ParseNatToDecimal(n); }
    }
  }

  /** `str` is injective on integers. */
  lemma IntToStringInjective(a: int, b: int)
    requires IntToString(a) == IntToString(b)
    ensures a == b
  {
    ParseIntToString(a);
    ParseIntToString(b);
  }
}
