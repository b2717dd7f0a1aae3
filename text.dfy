/**
 * Substring containment, the test the harness applies to the verdict text
 * (Python's `sub in s`), and the facts about it that the verdict lemmas use.
 */
module Text {

  /** `p` is a prefix of `s`. */
  predicate IsPrefix(p: string, s: string)
  {
    |p| <= |s| && s[..|p|] == p
  }

  /** `sub` occurs in `s` at some position. */
  predicate Contains(s: string, sub: string)
    decreases |s|
  {
    IsPrefix(sub, s) || (|s| > 0 && Contains(s[1..], sub))
  }

  /** `sub` occurs in `s` starting at position `i`. */
  predicate OccursAt(s: string, sub: string, i: int)
  {
    0 <= i <= |s| - |sub| && s[i..i + |sub|] == sub
  }

  /** Containment is the existence of a matching position. */
  lemma {:induction false} ContainsAt(s: string, sub: string)
    ensures Contains(s, sub) <==> exists i :: OccursAt(s, sub, i)
    decreases |s|
  {
    if |s| == 0 {
      if Contains(s, sub) {
        assert OccursAt(s, sub, 0);
      }
    } else {
      ContainsAt(s[1..], sub);
      if IsPrefix(sub, s) {
        assert OccursAt(s, sub, 0);
      }
      if Contains(s[1..], sub) {
        var i :| OccursAt(s[1..], sub, i);
        assert s[i + 1..i + 1 + |sub|] == s[1..][i..i + |sub|];
        assert OccursAt(s, sub, i + 1);
      }
      if exists i :: OccursAt(s, sub, i) {
        var i :| OccursAt(s, sub, i);
        if i > 0 {
          assert s[1..][i - 1..i - 1 + |sub|] == s[i..i + |sub|];
          assert OccursAt(s[1..], sub, i - 1);
        }
      }
    }
  }

  /** A string contains each of its prefixes. */
  lemma PrefixContained(p: string, rest: string)
    ensures Contains(p + rest, p)
  {
    assert (p + rest)[..|p|] == p;
  }

  /** Every character of an occurring `sub` is a character of `s`. */
  lemma {:induction false} ContainedChar(s: string, sub: string, k: nat)
    requires k < |sub| && Contains(s, sub)
    ensures sub[k] in s
    decreases |s|
  {
    if IsPrefix(sub, s) {
      assert s[k] == sub[k];
    } else {
      ContainedChar(s[1..], sub, k);
      assert forall x :: x in s[1..] ==> x in s;
    }
  }

  /** A string lacking one of `sub`'s characters does not contain `sub`. */
  lemma MissingChar(s: string, sub: string, k: nat)
    requires k < |sub| && sub[k] !in s
    ensures !Contains(s, sub)
  {
    if Contains(s, sub) {
      ContainedChar(s, sub, k);
    }
  }

  /** Dropping the first character of a three-piece concatenation. */
  lemma TailOfConcat(a: string, b: string, c: string)
    requires |a| > 0
    ensures (a + b + c)[1..] == a[1..] + b + c
    ensures forall k :: 0 <= k < |a| ==> (a + b + c)[k] == a[k]
  {
  }

  /**
   * When the first character of `sub` appears in `s` only at position 0,
   * `s` contains `sub` exactly when `sub` is a prefix of `s`.
   */
  lemma UniqueHead(s: string, sub: string)
    requires |sub| > 0 && |s| > 0 && sub[0] !in s[1..]
    ensures Contains(s, sub) <==> IsPrefix(sub, s)
  {
    if Contains(s, sub) && !IsPrefix(sub, s) {
      ContainedChar(s[1..], sub, 0);
    }
  }
}

/** The optional value used for absent JavaScript/Python values. */
module Wrappers {
  datatype Option<+T> = None | Some(value: T)
}
