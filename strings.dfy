/** The JavaScript string operations that slug normalisation and the title
    lookup use, restricted to ASCII case mapping: `toLowerCase`, `toUpperCase`
    and `replaceAll` with a one-character pattern. */
module Strings {

  predicate IsAsciiUpper(c: char) { 'A' <= c <= 'Z' }

  predicate IsAsciiLower(c: char) { 'a' <= c <= 'z' }

  predicate IsAsciiLetter(c: char) { IsAsciiUpper(c) || IsAsciiLower(c) }

  /** Lower-cases one character; everything but `A`..`Z` is kept. */
  function LowerChar(c: char): (d: char)
    ensures !IsAsciiUpper(d)
    ensures IsAsciiUpper(c) ==> IsAsciiLower(d)
    ensures !IsAsciiUpper(c) ==> d == c
  {
    if IsAsciiUpper(c) then (c as int + 32) as char else c
  }

  /** Upper-cases one character; everything but `a`..`z` is kept. */
  function UpperChar(c: char): (d: char)
    ensures !IsAsciiLower(d)
    ensures IsAsciiLower(c) ==> IsAsciiUpper(d)
    ensures !IsAsciiLower(c) ==> d == c
  {
    if IsAsciiLower(c) then (c as int - 32) as char else c
  }

  /** `s.toLowerCase()`: every character lower-cased in place. */
  function ToLower(s: string): (r: string)
    ensures |r| == |s|
    ensures forall k :: 0 <= k < |s| ==> r[k] == LowerChar(s[k])
  {
    if s == [] then [] else [LowerChar(s[0])] + ToLower(s[1..])
  }

  /** `s.toUpperCase()`: every character upper-cased in place. */
  function ToUpper(s: string): (r: string)
    ensures |r| == |s|
    ensures forall k :: 0 <= k < |s| ==> r[k] == UpperChar(s[k])
  {
    if s == [] then [] else [UpperChar(s[0])] + ToUpper(s[1..])
  }

  /** `s.replaceAll(from, to)` for one-character `from` and `to`: each
      occurrence of `from` becomes `to`, every other character stays put. */
  function ReplaceChar(s: string, from: char, to: char): (r: string)
    ensures |r| == |s|
    ensures forall k :: 0 <= k < |s| ==> r[k] == (if s[k] == from then to else s[k])
  {
    if s == [] then []
    else [if s[0] == from then to else s[0]] + ReplaceChar(s[1..], from, to)
  }

  /** The number of occurrences of `c` in `s`. */
  function Count(s: string, c: char): (n: nat)
    ensures n <= |s|
    ensures n == 0 <==> c !in s
  {
    if s == [] then 0 else (if s[0] == c then 1 else 0) + Count(s[1..], c)
  }

  /** `s.replaceAll(c, '')`: every occurrence of `c` deleted. */
  function RemoveChar(s: string, c: char): (r: string)
    ensures c !in r
    ensures |r| == |s| - Count(s, c)
    ensures forall k :: 0 <= k < |r| ==> r[k] in s
  {
    if s == [] then []
    else (if s[0] == c then [] else [s[0]]) + RemoveChar(s[1..], c)
  }

  /** Deleting `c` from a concatenation deletes it from each part: the kept
      characters stay in their original order. */
  lemma {:induction false} RemoveCharAppend(a: string, b: string, c: char)
    ensures RemoveChar(a + b, c) == RemoveChar(a, c) + RemoveChar(b, c)
  {
    if a == [] {
      assert a + b == b;
    } else {
      assert (a + b)[1..] == a[1..] + b;
      RemoveCharAppend(a[1..], b, c);
    }
  }

  /** Deleting a character that does not occur changes nothing. */
  lemma {:induction false} RemoveCharAbsent(s: string, c: char)
    requires c !in s
    ensures RemoveChar(s, c) == s
  {
    if s != [] {
      assert s == [s[0]] + s[1..];
      RemoveCharAbsent(s[1..], c);
    }
  }

  /** Two strings of one length that have `c` at exactly the same positions
      hold the same number of `c`s. */
  lemma {:induction false} CountSamePositions(a: string, b: string, c: char)
    requires |a| == |b|
    requires forall k :: 0 <= k < |a| ==> (a[k] == c <==> b[k] == c)
    ensures Count(a, c) == Count(b, c)
  {
    if a != [] {
      CountSamePositions(a[1..], b[1..], c);
    }
  }

  /** `LOWER(t) = UPPER(s)` can only hold when neither string contains an
      ASCII letter: the left side has no upper-case letter and the right
      side no lower-case one. */
  lemma LowerEqualsUpperOnlyWithoutLetters(t: string, s: string)
    requires ToLower(t) == ToUpper(s)
    ensures forall k :: 0 <= k < |s| ==> !IsAsciiLetter(s[k]) && !IsAsciiLetter(t[k])
  {
  }
}
