/**
 * The JavaScript string operations the client relies on: `trim`, `toLowerCase`,
 * `includes` and `replace(/\D/g, '')`.
 */
module Text {

  /** JavaScript white space and line terminators, as `String.prototype.trim` strips them. */
  predicate IsSpace(c: char) {
    || c == ' ' || c == '\t' || c == '\n' || c == '\r'
    || c == '\U{000B}' || c == '\U{000C}' || c == '\U{00A0}' || c == '\U{FEFF}'
    || c == '\U{1680}' || ('\U{2000}' <= c <= '\U{200A}')
    || c == '\U{2028}' || c == '\U{2029}' || c == '\U{202F}' || c == '\U{205F}' || c == '\U{3000}'
  }

  /** `s` with its leading white space removed. */
  function TrimStart(s: string): (r: string)
    ensures |r| <= |s| && r == s[|s| - |r|..]
    ensures r == [] || !IsSpace(r[0])
    ensures forall k :: 0 <= k < |s| - |r| ==> IsSpace(s[k])
  {
    if s != [] && IsSpace(s[0]) then TrimStart(s[1..]) else s
  }

  /** `s` with its trailing white space removed. */
  function TrimEnd(s: string): (r: string)
    ensures |r| <= |s| && r == s[..|r|]
    ensures r == [] || !IsSpace(r[|r| - 1])
    ensures forall k :: |r| <= k < |s| ==> IsSpace(s[k])
  {
    if s != [] && IsSpace(s[|s| - 1]) then TrimEnd(s[..|s| - 1]) else s
  }

  /**
   * `s.trim()`: it neither starts nor ends with white space, and it is empty exactly when `s`
   * is all white space; `TrimIsSlice` shows it is the slice of `s` between the white space at
   * its two ends.
   */
  function Trim(s: string): (r: string)
    ensures |r| <= |TrimStart(s)| <= |s|
    ensures r == [] || (!IsSpace(r[0]) && !IsSpace(r[|r| - 1]))
    ensures r == [] <==> forall k :: 0 <= k < |s| ==> IsSpace(s[k])
  {
    TrimFacts(s);
    TrimEnd(TrimStart(s))
  }

  /** The facts `Trim` promises, about the two passes it makes. */
  lemma TrimFacts(s: string)
    ensures |TrimEnd(TrimStart(s))| <= |TrimStart(s)| <= |s|
    ensures TrimEnd(TrimStart(s)) == [] || !IsSpace(TrimEnd(TrimStart(s))[0])
    ensures TrimEnd(TrimStart(s)) == [] <==> forall k :: 0 <= k < |s| ==> IsSpace(s[k])
  {
    var t := TrimStart(s);
    var r := TrimEnd(t);
    var n := |s| - |t|;
    assert t == s[n..];
    if r != [] {
      assert r[0] == t[0];
      assert t[0] == s[n];
    }
  }

  /** The number of white-space characters `s` starts with. */
  function Leading(s: string): (n: nat)
    ensures n <= |s|
  {
    |s| - |TrimStart(s)|
  }

  /** The trimmed text is the slice of `s` that starts after its leading white space. */
  lemma TrimIsSlice(s: string)
    ensures Leading(s) + |Trim(s)| <= |s|
    ensures forall i :: 0 <= i < |Trim(s)| ==> Trim(s)[i] == s[Leading(s) + i]
  {
    var t := TrimStart(s);
    var r := TrimEnd(t);
    var n := Leading(s);
    assert n == |s| - |t|;
    SuffixThenPrefix(s, t, r);
    assert Trim(s) == r;
  }

  /** Every character of `s` before and after its trimmed slice is white space. */
  lemma TrimDropsOnlySpace(s: string)
    ensures Leading(s) + |Trim(s)| <= |s|
    ensures forall k :: 0 <= k < Leading(s) ==> IsSpace(s[k])
    ensures forall k :: Leading(s) + |Trim(s)| <= k < |s| ==> IsSpace(s[k])
  {
    var t := TrimStart(s);
    var r := TrimEnd(t);
    var n := Leading(s);
    assert n == |s| - |t|;
    SuffixThenPrefix(s, t, r);
    assert Trim(s) == r;
  }

  /**
   * A prefix `r` of a suffix `t` of `s`, where `t` goes on with white space only, sits in `s`
   * right after the characters dropped from its front and before white space.
   */
  lemma SuffixThenPrefix(s: string, t: string, r: string)
    requires |t| <= |s| && t == s[|s| - |t|..]
    requires |r| <= |t| && r == t[..|r|]
    requires forall k :: |r| <= k < |t| ==> IsSpace(t[k])
    ensures forall i :: 0 <= i < |r| ==> r[i] == s[|s| - |t| + i]
    ensures forall k :: |s| - |t| + |r| <= k < |s| ==> IsSpace(s[k])
  {
    var n := |s| - |t|;
    forall i | 0 <= i < |r| ensures r[i] == s[n + i] {
      assert r[i] == t[i];
    }
    forall k | n + |r| <= k < |s| ensures IsSpace(s[k]) {
      assert s[k] == t[k - n];
    }
  }

  /** A string is blank (falsy once trimmed) when it holds only white space. */
  predicate IsBlank(s: string) {
    Trim(s) == ""
  }

  /** `toLowerCase` on one character; only the ASCII letters are mapped. */
  function LowerChar(c: char): char {
    if 'A' <= c <= 'Z' then (c as int + 32) as char else c
  }

  function ToLower(s: string): (r: string)
    ensures |r| == |s|
    ensures forall k :: 0 <= k < |s| ==> r[k] == LowerChar(s[k])
  {
    seq(|s|, k requires 0 <= k < |s| => LowerChar(s[k]))
  }

  /** Case-insensitive equality: `a.toLowerCase() === b.toLowerCase()`. */
  predicate EqualsIgnoreCase(a: string, b: string) {
    ToLower(a) == ToLower(b)
  }

  predicate StartsWith(s: string, prefix: string) {
    |prefix| <= |s| && s[..|prefix|] == prefix
  }

  /** `hay.includes(needle)`, computed by trying every start position in turn. */
  predicate Contains(hay: string, needle: string)
    decreases |hay|
  {
    StartsWith(hay, needle) || (hay != [] && Contains(hay[1..], needle))
  }

  /** `needle` occurs in `hay` starting at index `i`. */
  ghost predicate OccursAt(hay: string, needle: string, i: int) {
    0 <= i <= |hay| - |needle| && hay[i..i + |needle|] == needle
  }

  /** `Contains` holds exactly when `needle` occurs as a slice of `hay`. */
  lemma {:induction false} ContainsIff(hay: string, needle: string)
    ensures Contains(hay, needle) <==> exists i :: OccursAt(hay, needle, i)
    decreases |hay|
  {
    if StartsWith(hay, needle) {
      assert OccursAt(hay, needle, 0);
    } else if hay != [] {
      ContainsIff(hay[1..], needle);
      if exists i :: OccursAt(hay[1..], needle, i) {
        var i :| OccursAt(hay[1..], needle, i);
        assert hay[i + 1..i + 1 + |needle|] == hay[1..][i..i + |needle|];
        assert OccursAt(hay, needle, i + 1);
      }
      if exists i :: OccursAt(hay, needle, i) {
        var i :| OccursAt(hay, needle, i);
        assert i != 0;
        assert hay[1..][i - 1..i - 1 + |needle|] == hay[i..i + |needle|];
        assert OccursAt(hay[1..], needle, i - 1);
      }
    }
  }

  /** Every string contains the empty string, and itself. */
  lemma ContainsSelf(s: string)
    ensures Contains(s, "") && Contains(s, s)
  {
    assert StartsWith(s, "");
    assert s[..|s|] == s;
  }

  predicate IsDigit(c: char) {
    '0' <= c <= '9'
  }

  /** `s.replace(/\D/g, '')`: the ASCII digits of `s`, in order. */
  function DigitsOf(s: string): (r: string)
    ensures |r| <= |s|
    ensures forall k :: 0 <= k < |r| ==> IsDigit(r[k])
    ensures (forall k :: 0 <= k < |s| ==> IsDigit(s[k])) ==> r == s
  {
    if s == [] then []
    else (if IsDigit(s[0]) then [s[0]] else []) + DigitsOf(s[1..])
  }

  /** Appending a character to a string extends its digits by that character if it is one. */
  lemma {:induction false} DigitsOfAppend(s: string, c: char)
    ensures DigitsOf(s + [c]) == DigitsOf(s) + (if IsDigit(c) then [c] else [])
  {
    if s == [] {
      assert s + [c] == [c];
    } else {
      assert (s + [c])[1..] == s[1..] + [c];
      DigitsOfAppend(s[1..], c);
    }
  }

  /**
   * The CEP (postal code) autofill fires when the zip code, stripped of every non-digit,
   * has exactly eight digits.
   */
  predicate CepLookupFires(zip: string) {
    |DigitsOf(zip)| == 8
  }

  /** A zip code of fewer than eight characters never triggers the lookup. */
  lemma ShortCepNeverFires(zip: string)
    requires |zip| < 8
    ensures !CepLookupFires(zip)
  {
  }

  /** A non-digit anywhere in the input is ignored by the digit strip. */
  lemma {:induction false} DigitsSkipSeparator(a: string, c: char, b: string)
    requires !IsDigit(c)
    ensures DigitsOf(a + [c] + b) == DigitsOf(a + b)
  {
    if a == [] {
      assert a + [c] + b == [c] + b;
      assert ([c] + b)[1..] == b;
      assert a + b == b;
    } else {
      assert (a + [c] + b)[1..] == a[1..] + [c] + b;
      assert (a + b)[1..] == a[1..] + b;
      DigitsSkipSeparator(a[1..], c, b);
    }
  }

  /** So a formatted code such as `01310-100` fires the lookup exactly when `01310100` does. */
  lemma CepSeparatorIrrelevant(a: string, c: char, b: string)
    requires !IsDigit(c)
    ensures CepLookupFires(a + [c] + b) <==> CepLookupFires(a + b)
  {
    DigitsSkipSeparator(a, c, b);
  }

  /** Eight digits fire the lookup. */
  lemma EightDigitsFire(zip: string)
    requires |zip| == 8 && forall k :: 0 <= k < |zip| ==> IsDigit(zip[k])
    ensures CepLookupFires(zip)
  {
  }
}
