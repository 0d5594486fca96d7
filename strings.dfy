/**
 * The two string primitives the listing search relies on: `toLowerCase`
 * (modelled on ASCII letters only) and `includes` (substring search).
 */
module Strings {

  /** ASCII lower-casing of one character; every other character is left alone. */
  function LowerChar(c: char): (r: char)
    ensures 'A' <= c <= 'Z' ==> r as int == c as int + 32
    ensures !('A' <= c <= 'Z') ==> r == c
    ensures !('A' <= r <= 'Z')
  {
    if 'A' <= c <= 'Z' then (c as int + 32) as char else c
  }

  /** `s.toLowerCase()`, character by character. */
  function Lower(s: string): (r: string)
    ensures |r| == |s|
    ensures forall i :: 0 <= i < |s| ==> r[i] == LowerChar(s[i])
  {
    if s == [] then [] else [LowerChar(s[0])] + Lower(s[1..])
  }

  lemma {:induction false} LowerIdempotent(s: string)
    ensures Lower(Lower(s)) == Lower(s)
  {
    var l := Lower(s);
    assert forall i :: 0 <= i < |l| ==> Lower(l)[i] == l[i];
  }

  /** `t` occurs in `s` at offset `i`, checked from position `j` of `t` on. */
  predicate MatchAt(s: string, t: string, i: nat, j: nat)
    requires i + |t| <= |s|
    decreases |t| - j
  {
    j >= |t| || (s[i + j] == t[j] && MatchAt(s, t, i, j + 1))
  }

  /** `t` occurs in `s` at some offset `i` or later. */
  predicate ContainsFrom(s: string, t: string, i: nat)
    decreases |s| - i
  {
    i + |t| <= |s| && (MatchAt(s, t, i, 0) || ContainsFrom(s, t, i + 1))
  }

  /** `s.includes(t)`. */
  predicate Contains(s: string, t: string)
  {
    ContainsFrom(s, t, 0)
  }

  lemma {:induction false} MatchAtIsSlice(s: string, t: string, i: nat, j: nat)
    requires i + |t| <= |s| && j <= |t|
    ensures MatchAt(s, t, i, j) <==> s[i + j..i + |t|] == t[j..]
    decreases |t| - j
  {
    if j < |t| {
      MatchAtIsSlice(s, t, i, j + 1);
      assert s[i + j..i + |t|] == [s[i + j]] + s[i + j + 1..i + |t|];
      assert t[j..] == [t[j]] + t[j + 1..];
    }
  }

  /** `t` is the window of `s` that starts at offset `k`. */
  predicate OccursAt(s: string, t: string, k: nat)
  {
    k + |t| <= |s| && s[k..k + |t|] == t
  }

  lemma {:induction false} ContainsFromIsWindow(s: string, t: string, i: nat)
    ensures ContainsFrom(s, t, i) <==> exists k: nat :: i <= k && OccursAt(s, t, k)
    decreases |s| - i
  {
    if i + |t| <= |s| {
      MatchAtIsSlice(s, t, i, 0);
      ContainsFromIsWindow(s, t, i + 1);
      if MatchAt(s, t, i, 0) {
        assert OccursAt(s, t, i);
      }
      if ContainsFrom(s, t, i + 1) {
        var k: nat :| i + 1 <= k && OccursAt(s, t, k);
        assert i <= k;
      }
      if exists k: nat :: i <= k && OccursAt(s, t, k) {
        var k: nat :| i <= k && OccursAt(s, t, k);
        if k == i {
          assert MatchAt(s, t, i, 0);
        } else {
          assert ContainsFrom(s, t, i + 1);
        }
      }
    }
  }

  /** `includes` means: some window of `s` equals `t`. */
  lemma ContainsIsWindow(s: string, t: string)
    ensures Contains(s, t) <==> exists k: nat :: OccursAt(s, t, k)
  {
    ContainsFromIsWindow(s, t, 0);
  }

  /** Every string includes the empty string. */
  lemma ContainsEmpty(s: string)
    ensures Contains(s, "")
  {
  }

  /** The UTF-16 code units JavaScript stores for one character: two outside the Basic Multilingual Plane. */
  function CodeUnits(c: char): nat
  {
    if c as int < 0x1_0000 then 1 else 2
  }

  /** JavaScript's `length` of a string, which is what zod's `.min(n)` compares. */
  function Utf16Length(s: string): (n: nat)
    ensures |s| <= n <= 2 * |s|
    ensures s == [] <==> n == 0
  {
    if s == [] then 0 else CodeUnits(s[0]) + Utf16Length(s[1..])
  }

  /** Every character of `s` lies in the Basic Multilingual Plane. */
  predicate InBmp(s: string)
  {
    forall i :: 0 <= i < |s| ==> s[i] as int < 0x1_0000
  }

  lemma {:induction false} Utf16LengthInBmp(s: string)
    requires InBmp(s)
    ensures Utf16Length(s) == |s|
  {
    if s != [] {
      assert InBmp(s[1..]) by {
        forall i | 0 <= i < |s[1..]| ensures s[1..][i] as int < 0x1_0000 {
          assert s[1..][i] == s[i + 1];
        }
      }
      Utf16LengthInBmp(s[1..]);
    }
  }

  /** A character outside the Basic Multilingual Plane is one element of a Dafny string but two code units. */
  lemma AstralCharacterCountsTwice()
    ensures |"\U{1F600}"| == 1 && Utf16Length("\U{1F600}") == 2
  {
  }
}
