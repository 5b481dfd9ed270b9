/**
 * The two JavaScript string operations the app catalogue search relies on:
 * `String.prototype.toLowerCase` (restricted to ASCII letters) and
 * `String.prototype.includes` (substring occurrence).
 */
module JsString {

  /** True of the 26 upper-case ASCII letters. */
  predicate IsUpperAscii(c: char) {
    'A' <= c <= 'Z'
  }

  /** ASCII lower-casing of one character; every other character is kept. */
  function LowerChar(c: char): char {
    if IsUpperAscii(c) then (c as int - 'A' as int + 'a' as int) as char else c
  }

  /**
   * `s.toLowerCase()` on ASCII: each upper-case letter becomes the matching
   * lower-case letter, every other character is kept, positions unchanged.
   */
  function Lower(s: string): (r: string)
    ensures |r| == |s|
    ensures forall i :: 0 <= i < |s| && IsUpperAscii(s[i]) ==> r[i] as int == s[i] as int + 32
    ensures forall i :: 0 <= i < |s| && !IsUpperAscii(s[i]) ==> r[i] == s[i]
    ensures forall i :: 0 <= i < |r| ==> !IsUpperAscii(r[i])
  {
    seq(|s|, i requires 0 <= i < |s| => LowerChar(s[i]))
  }

  /** Lower-casing a string a second time changes nothing. */
  lemma LowerIdempotent(s: string)
    ensures Lower(Lower(s)) == Lower(s)
  {
  }

  /** Lower-casing commutes with taking a slice. */
  lemma LowerSlice(s: string, i: nat, j: nat)
    requires i <= j <= |s|
    ensures Lower(s[i..j]) == Lower(s)[i..j]
  {
  }

  /** A string is its own lower-case form exactly when it holds no upper-case ASCII letter. */
  lemma LowerFixedPoint(s: string)
    ensures Lower(s) == s <==> forall i :: 0 <= i < |s| ==> !IsUpperAscii(s[i])
  {
  }

  /** `s.includes(sub)`, written as the runtime searches: a prefix here, or further on. */
  predicate Includes(s: string, sub: string)
    decreases |s|
  {
    sub <= s || (s != [] && Includes(s[1..], sub))
  }

  /** Reference reading of an occurrence: `sub` sits in `s` from index `i`. */
  ghost predicate OccursAt(s: string, sub: string, i: int) {
    0 <= i && i + |sub| <= |s| && s[i..i + |sub|] == sub
  }

  /** Reference reading of `s.includes(sub)`: some index where `sub` occurs. */
  ghost predicate OccursIn(s: string, sub: string) {
    exists i :: OccursAt(s, sub, i)
  }

  /** The recursive search and the index-based definition agree, in both directions. */
  lemma {:induction false} IncludesIff(s: string, sub: string)
    ensures Includes(s, sub) <==> OccursIn(s, sub)
    decreases |s|
  {
    if sub <= s {
      assert OccursAt(s, sub, 0);
    } else if s != [] {
      IncludesIff(s[1..], sub);
      if Includes(s[1..], sub) {
        var i :| OccursAt(s[1..], sub, i);
        assert s[i + 1..i + 1 + |sub|] == s[1..][i..i + |sub|];
        assert OccursAt(s, sub, i + 1);
      }
      if OccursIn(s, sub) {
        var i :| OccursAt(s, sub, i);
        // i == 0 would make sub a prefix of s
        assert s[1..][i - 1..i - 1 + |sub|] == s[i..i + |sub|];
        assert OccursAt(s[1..], sub, i - 1);
      }
    }
  }

  /** Every string includes itself, so searching for a whole string finds it. */
  lemma IncludesSelf(s: string)
    ensures Includes(s, s)
  {
  }

  /** A string includes every one of its contiguous slices. */
  lemma IncludesSlice(s: string, i: nat, j: nat)
    requires i <= j <= |s|
    ensures Includes(s, s[i..j])
  {
    assert OccursAt(s, s[i..j], i);
    IncludesIff(s, s[i..j]);
  }
}
