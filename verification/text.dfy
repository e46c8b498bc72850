/** String helpers shared by the front-end pages: `toLowerCase`, `trim` and
    `includes` as JavaScript defines them, restricted to the ASCII letters
    and the ASCII / Latin-1 white space the shop's data uses. */
module Text {

  predicate IsUpper(c: char) { 'A' <= c <= 'Z' }

  function LowerChar(c: char): (d: char)
    ensures !IsUpper(d)
    ensures !IsUpper(c) ==> d == c
  {
    if IsUpper(c) then (c as int + 32) as char else c
  }

  /** `s.toLowerCase()` */
  function Lower(s: string): (r: string)
    ensures |r| == |s|
    ensures forall i :: 0 <= i < |s| ==> r[i] == LowerChar(s[i])
  {
    if s == [] then [] else [LowerChar(s[0])] + Lower(s[1..])
  }

  predicate IsLowerCase(s: string) {
    forall i :: 0 <= i < |s| ==> !IsUpper(s[i])
  }

  /** The white space that `String.prototype.trim` removes (ASCII and Latin-1 part). */
  predicate IsSpace(c: char) {
    c == ' ' || c == '\t' || c == '\n' || c == '\r' || c == '\U{000B}' || c == '\U{000C}'
    || c == '\U{00A0}' || c == '\U{FEFF}'
  }

  predicate IsTrimmed(s: string) {
    s == [] || (!IsSpace(s[0]) && !IsSpace(s[|s| - 1]))
  }

  function TrimStart(s: string): (r: string)
    ensures |r| <= |s| && r == s[|s| - |r|..]
    ensures r == [] || !IsSpace(r[0])
    ensures forall k :: 0 <= k < |s| - |r| ==> IsSpace(s[k])
  {
    if s != [] && IsSpace(s[0]) then TrimStart(s[1..]) else s
  }

  function TrimEnd(s: string): (r: string)
    ensures |r| <= |s| && r == s[..|r|]
    ensures r == [] || !IsSpace(r[|r| - 1])
    ensures forall k :: |r| <= k < |s| ==> IsSpace(s[k])
  {
    if s != [] && IsSpace(s[|s| - 1]) then TrimEnd(s[..|s| - 1]) else s
  }

  /** `s.trim()`: the slice of `s` left after removing the white space at
      either end. */
  function Trim(s: string): (r: string)
    ensures IsTrimmed(r)
    ensures exists i, j :: (0 <= i <= j <= |s| && r == s[i..j]
      && (forall k :: 0 <= k < i ==> IsSpace(s[k])) && (forall k :: j <= k < |s| ==> IsSpace(s[k])))
  {
    var t := TrimStart(s);
    var r := TrimEnd(t);
    SliceOfSuffix(s, |s| - |t|, |r|);
    r
  }

  lemma SliceOfSuffix(s: string, a: int, n: int)
    requires 0 <= a <= |s| && 0 <= n <= |s| - a
    ensures s[a..][..n] == s[a..a + n]
  {
  }

  /** `s.toLowerCase().trim()` */
  function Normalize(s: string): string {
    Trim(Lower(s))
  }

  lemma NormalizeShape(s: string)
    ensures IsLowerCase(Normalize(s)) && IsTrimmed(Normalize(s))
  {
    var l := Lower(s);
    var i, j :| 0 <= i <= j <= |l| && Normalize(s) == l[i..j];
  }

  /** A string that is already lower case and trimmed normalises to itself. */
  lemma {:induction false} NormalizeFixes(s: string)
    requires IsLowerCase(s) && IsTrimmed(s)
    ensures Normalize(s) == s
  {
    assert Lower(s) == s;
    assert TrimStart(s) == s;
    assert TrimEnd(s) == s;
  }

  /** `s.includes(sub)` */
  predicate Contains(s: string, sub: string) {
    sub <= s || (s != [] && Contains(s[1..], sub))
  }

  /** A string cannot contain a word whose first letter it lacks. */
  lemma {:induction false} ContainsFirstLetter(s: string, sub: string)
    requires sub != [] && Contains(s, sub)
    ensures sub[0] in s
  {
    if !(sub <= s) {
      ContainsFirstLetter(s[1..], sub);
    }
  }

  /** A word found at some position is contained. */
  lemma {:induction false} ContainsAt(s: string, sub: string, k: nat)
    requires k <= |s| && sub <= s[k..]
    ensures Contains(s, sub)
  {
    if k > 0 {
      assert s[1..][k - 1..] == s[k..];
      ContainsAt(s[1..], sub, k - 1);
    }
  }

  /** A string contains no word longer than itself, and a word of its own
      length only when the two are equal. */
  lemma {:induction false} ContainsLength(s: string, sub: string)
    requires Contains(s, sub)
    ensures |sub| <= |s|
    ensures |sub| == |s| ==> sub == s
  {
    if !(sub <= s) {
      ContainsLength(s[1..], sub);
    }
  }

  lemma ContainsEmpty(s: string)
    ensures Contains(s, [])
  {
  }

  lemma LowerMixedCase()
    ensures Lower(" Bit ") == " bit "
  {
  }

  lemma {:induction false} TrimStartPadded(s: string)
    requires s == " bit "
    ensures TrimStart(s) == "bit "
  {
    var t := s[1..];
    assert IsSpace(s[0]) && t == "bit ";
    assert !IsSpace(t[0]);
  }

  lemma {:induction false} TrimEndPadded(s: string)
    requires s == "bit "
    ensures TrimEnd(s) == "bit"
  {
    var t := s[..3];
    assert IsSpace(s[3]) && t == "bit";
    assert !IsSpace(t[2]);
  }

  /** Upper case letters are folded and the padding is dropped. */
  lemma {:induction false} NormalizeMixedCase()
    ensures Normalize(" Bit ") == "bit"
  {
    LowerMixedCase();
    TrimStartPadded(" bit ");
    TrimEndPadded("bit ");
  }
}
