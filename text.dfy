/** The string operations the search box and the tag input rely on:
    lower-casing, substring search and trimming, on ASCII text. */
module Text {
  /** `toLowerCase` on one character: A-Z become a-z, everything else stays. */
  function LowerChar(c: char): char {
    if 'A' <= c <= 'Z' then (c as int - 'A' as int + 'a' as int) as char else c
  }

  predicate IsUpper(c: char) {
    'A' <= c <= 'Z'
  }

  function Lower(s: string): (r: string)
    ensures |r| == |s|
    ensures forall i :: 0 <= i < |s| ==> r[i] == LowerChar(s[i])
  {
    if s == [] then [] else [LowerChar(s[0])] + Lower(s[1..])
  }

  /** Lower-casing leaves no capital letter, changes nothing twice and keeps
      every other character where it was. */
  lemma LowerLaws(s: string)
    ensures forall i :: 0 <= i < |s| ==> !IsUpper(Lower(s)[i])
    ensures Lower(Lower(s)) == Lower(s)
    ensures forall i :: 0 <= i < |s| && !IsUpper(s[i]) ==> Lower(s)[i] == s[i]
  {
  }

  /** `s.startsWith(p)`. */
  predicate StartsWith(s: string, p: string) {
    |p| <= |s| && s[..|p|] == p
  }

  /** `s.includes(sub)`: `sub` starts at some position of `s`. */
  predicate Contains(s: string, sub: string)
    decreases |s|
  {
    StartsWith(s, sub) || (|s| > 0 && Contains(s[1..], sub))
  }

  /** `sub` occurs in `s` starting at index `i`. */
  predicate OccursAt(s: string, sub: string, i: int) {
    0 <= i <= |s| - |sub| && s[i..i + |sub|] == sub
  }

  /** `includes` finds `sub` exactly when it occurs at some index. */
  lemma {:induction false} ContainsMeaning(s: string, sub: string)
    ensures Contains(s, sub) <==> exists i :: OccursAt(s, sub, i)
    decreases |s|
  {
    if StartsWith(s, sub) {
      assert OccursAt(s, sub, 0);
    }
    if |s| > 0 {
      ContainsMeaning(s[1..], sub);
      if exists i :: OccursAt(s[1..], sub, i) {
        var i :| OccursAt(s[1..], sub, i);
        assert OccursAt(s, sub, i + 1);
      }
      if exists i :: OccursAt(s, sub, i) {
        var i :| OccursAt(s, sub, i);
        if i > 0 {
          assert OccursAt(s[1..], sub, i - 1);
        }
      }
    }
  }

  /** Every string contains the empty string and itself, and one that
      contains anything longer than itself contains nothing at all. */
  lemma ContainsLaws(s: string, sub: string)
    ensures Contains(s, "") && Contains(s, s)
    ensures |sub| > |s| ==> !Contains(s, sub)
  {
    ContainsMeaning(s, "");
    assert OccursAt(s, "", 0);
    ContainsMeaning(s, s);
    assert OccursAt(s, s, 0);
    ContainsMeaning(s, sub);
  }

  /** The characters `trim` removes. */
  predicate IsSpace(c: char) {
    c == ' ' || c == '\t' || c == '\n' || c == '\r' || c == '\U{B}' || c == '\U{C}'
  }

  /** The index of the first character at or after `i` that is not white space. */
  function SkipSpaces(s: string, i: nat): (lo: nat)
    requires i <= |s|
    ensures i <= lo <= |s|
    ensures forall k :: i <= k < lo ==> IsSpace(s[k])
    ensures lo < |s| ==> !IsSpace(s[lo])
    decreases |s| - i
  {
    if i < |s| && IsSpace(s[i]) then SkipSpaces(s, i + 1) else i
  }

  /** The index just past the last character before `j`, and not before `lo`,
      that is not white space. */
  function SkipSpacesBack(s: string, lo: nat, j: nat): (hi: nat)
    requires lo <= j <= |s|
    ensures lo <= hi <= j
    ensures forall k :: hi <= k < j ==> IsSpace(s[k])
    ensures hi > lo ==> !IsSpace(s[hi - 1])
    decreases j
  {
    if j > lo && IsSpace(s[j - 1]) then SkipSpacesBack(s, lo, j - 1) else j
  }

  function TrimStartIndex(s: string): nat
    ensures TrimStartIndex(s) <= |s|
  {
    SkipSpaces(s, 0)
  }

  function TrimEndIndex(s: string): nat
    ensures TrimStartIndex(s) <= TrimEndIndex(s) <= |s|
  {
    SkipSpacesBack(s, TrimStartIndex(s), |s|)
  }

  /** `s.trim()`: the text between the leading and the trailing white space. */
  function Trim(s: string): string {
    s[TrimStartIndex(s)..TrimEndIndex(s)]
  }

  /** Trimming removes only surrounding white space: everything cut off at
      either end is white space, and what is left has none at either end. */
  lemma TrimShape(s: string)
    ensures forall k :: 0 <= k < TrimStartIndex(s) || TrimEndIndex(s) <= k < |s| ==> IsSpace(s[k])
    ensures Trim(s) != [] ==> !IsSpace(Trim(s)[0]) && !IsSpace(Trim(s)[|Trim(s)| - 1])
  {
    var lo, hi := TrimStartIndex(s), TrimEndIndex(s);
    if lo < hi {
      assert Trim(s)[0] == s[lo];
      assert Trim(s)[|Trim(s)| - 1] == s[hi - 1];
    }
  }

  /** Trimming twice is trimming once. */
  lemma TrimIdempotent(s: string)
    ensures Trim(Trim(s)) == Trim(s)
  {
    var t := Trim(s);
    TrimShape(s);
    if t != [] {
      assert TrimStartIndex(t) == 0;
      assert TrimEndIndex(t) == |t|;
    } else {
      assert TrimStartIndex(t) == 0;
    }
  }

  /** A string trims to nothing exactly when it is all white space. */
  lemma BlankMeaning(s: string)
    ensures Trim(s) == [] <==> forall i :: 0 <= i < |s| ==> IsSpace(s[i])
  {
    TrimShape(s);
  }

  /** `!s.trim()`: nothing but white space. */
  predicate IsBlank(s: string) {
    Trim(s) == []
  }

  /** Lower-casing keeps white space where it is, so it never changes whether
      a string is blank. */
  lemma BlankIgnoresCase(s: string)
    ensures IsBlank(Lower(s)) <==> IsBlank(s)
  {
    BlankMeaning(s);
    var t := Lower(s);
    BlankMeaning(t);
    forall i | 0 <= i < |s|
      ensures IsSpace(t[i]) <==> IsSpace(s[i])
    {
      SpaceIgnoresCase(s[i]);
    }
  }

  lemma SpaceIgnoresCase(c: char)
    ensures IsSpace(LowerChar(c)) <==> IsSpace(c)
  {
  }

  /** `a < b` on strings: the first differing character decides, and a
      proper prefix comes first. */
  predicate JsLess(a: string, b: string)
    decreases |a|
  {
    if a == [] then b != []
    else if b == [] then false
    else if a[0] != b[0] then a[0] < b[0]
    else JsLess(a[1..], b[1..])
  }

  predicate IsDigit(c: char) {
    '0' <= c <= '9'
  }

  /** `key >= '0' && key <= '9'`. */
  predicate IsDigitKey(key: string) {
    !JsLess(key, "0") && !JsLess("9", key)
  }

  /** A one-character key passes the test exactly when it is a digit; a
      longer key passes when it starts with one of 0 to 8. */
  lemma DigitKeyMeaning(key: string)
    ensures |key| == 1 ==> (IsDigitKey(key) <==> IsDigit(key[0]))
    ensures |key| > 1 ==> (IsDigitKey(key) <==> '0' <= key[0] <= '8')
    ensures key == [] ==> !IsDigitKey(key)
  {
    if |key| > 0 {
      assert JsLess(key, "0") == if key[0] != '0' then key[0] < '0' else JsLess(key[1..], "");
      assert JsLess("9", key) == if key[0] != '9' then '9' < key[0] else JsLess("", key[1..]);
    }
  }
}
