/**
 The two string primitives the classifier is built on: lower-casing a message
 and testing whether a keyword occurs in it as a substring (Python's `k in s`).
 Lower-casing is modelled on ASCII only: 'A'..'Z' become 'a'..'z' and every
 other character is left as it is.
 */
module Text {

  predicate IsUpper(c: char) {
    'A' <= c <= 'Z'
  }

  /** ASCII lower-casing of one character. */
  function LowerChar(c: char): (r: char)
    ensures !IsUpper(r)
    ensures !IsUpper(c) ==> r == c
    ensures IsUpper(c) ==> 'a' <= r <= 'z' && r as int - c as int == 'a' as int - 'A' as int
  {
    if IsUpper(c) then (c as int - 'A' as int + 'a' as int) as char else c
  }

  /** The message as `str.lower()` leaves it: same length, each character lowered. */
  function Lower(s: string): (r: string)
    ensures |r| == |s|
    ensures forall i :: 0 <= i < |s| ==> r[i] == LowerChar(s[i])
  {
    if s == [] then [] else [LowerChar(s[0])] + Lower(s[1..])
  }

  /** A lowered string has no upper-case letter left in it. */
  lemma LowerHasNoUpper(s: string)
    ensures forall i :: 0 <= i < |Lower(s)| ==> !IsUpper(Lower(s)[i])
  {
  }

  /** Lowering twice is lowering once. */
  lemma LowerIdempotent(s: string)
    ensures Lower(Lower(s)) == Lower(s)
  {
    var once := Lower(s);
    forall i | 0 <= i < |once|
      ensures Lower(once)[i] == once[i]
    {
      assert once[i] == LowerChar(s[i]);
    }
  }

  /** Lowering works character by character, so it distributes over concatenation. */
  lemma LowerAppend(a: string, b: string)
    ensures Lower(a + b) == Lower(a) + Lower(b)
  {
    var whole := Lower(a + b);
    forall i | 0 <= i < |a + b|
      ensures whole[i] == (Lower(a) + Lower(b))[i]
    {
      if i < |a| {
        assert (a + b)[i] == a[i];
      } else {
        assert (a + b)[i] == b[i - |a|];
      }
    }
  }

  /** `k` starts at position `i` of `s`. */
  predicate OccursAt(s: string, k: string, i: nat) {
    i <= |s| && k <= s[i..]
  }

  /**
   Python's `k in s` for strings: plain substring containment, with no regard
   for word boundaries. The empty keyword occurs in every string.
   */
  predicate Contains(s: string, k: string): (r: bool)
    ensures r <==> exists i: nat :: OccursAt(s, k, i)
    decreases |s|
  {
    if k <= s then
      assert OccursAt(s, k, 0);
      true
    else if s == [] then
      assert forall i: nat :: OccursAt(s, k, i) ==> i == 0;
      false
    else
      var r := Contains(s[1..], k);
      assert forall i: nat :: OccursAt(s, k, i + 1) <==> OccursAt(s[1..], k, i) by {
        forall i: nat ensures OccursAt(s, k, i + 1) <==> OccursAt(s[1..], k, i) {
          if i + 1 <= |s| {
            assert s[i + 1..] == s[1..][i..];
          }
        }
      }
      assert (exists i: nat :: OccursAt(s, k, i)) ==> exists i: nat :: OccursAt(s[1..], k, i) by {
        if i: nat :| OccursAt(s, k, i) {
          assert i != 0;
          assert OccursAt(s[1..], k, i - 1);
        }
      }
      r
  }

  /** A keyword found in `m` is still found when text is added on either side. */
  lemma ContainsInContext(p: string, m: string, q: string, k: string)
    requires Contains(m, k)
    ensures Contains(p + m + q, k)
  {
    var i: nat :| OccursAt(m, k, i);
    var s := p + m + q;
    assert s[|p| + i..] == m[i..] + q;
    assert OccursAt(s, k, |p| + i);
  }

  /** Python's `any(k in s for k in ks)`: some keyword of the list occurs in `s`. */
  predicate ContainsAny(s: string, ks: seq<string>): (r: bool)
    ensures r <==> exists j :: 0 <= j < |ks| && Contains(s, ks[j])
  {
    if ks == [] then false
    else
      assert forall j :: 0 < j < |ks| ==> ks[j] == ks[1..][j - 1];
      Contains(s, ks[0]) || ContainsAny(s, ks[1..])
  }

  /** A keyword with a character that `s` lacks cannot occur in `s`. */
  lemma MissingCharRulesOut(s: string, k: string, c: char)
    requires c in k && c !in s
    ensures !Contains(s, k)
  {
  }

  /**
   No keyword of `ks` occurs in `s` when each one has a character (named
   position by position in `absent`) from a set `missing` of characters
   that `s` lacks.
   */
  lemma MissingCharsRuleOutAll(s: string, ks: seq<string>, absent: seq<char>, missing: set<char>)
    requires |absent| == |ks|
    requires forall j :: 0 <= j < |ks| ==> absent[j] in ks[j] && absent[j] in missing
    requires forall i :: 0 <= i < |s| ==> s[i] !in missing
    ensures !ContainsAny(s, ks)
  {
    forall j | 0 <= j < |ks|
      ensures !Contains(s, ks[j])
    {
      MissingCharRulesOut(s, ks[j], absent[j]);
    }
  }

  /**
   A keyword holding two adjacent characters that are never adjacent in `s`
   cannot occur in `s`. `a` is the position of the pair in the keyword.
   */
  lemma MissingPairRulesOut(s: string, k: string, a: nat)
    requires a + 1 < |k|
    requires forall i :: 0 <= i < |s| - 1 ==> !(s[i] == k[a] && s[i + 1] == k[a + 1])
    ensures !Contains(s, k)
  {
  }

  /**
   No keyword of `ks` occurs in `s` when each one holds, at the position named
   in `at`, a pair of adjacent characters from a set `missing` of pairs that
   are never adjacent in `s`.
   */
  lemma MissingPairsRuleOutAll(s: string, ks: seq<string>, at: seq<nat>, missing: set<(char, char)>)
    requires |at| == |ks|
    requires forall j :: 0 <= j < |ks| ==>
      at[j] + 1 < |ks[j]| && (ks[j][at[j]], ks[j][at[j] + 1]) in missing
    requires forall i :: 0 <= i < |s| - 1 ==> (s[i], s[i + 1]) !in missing
    ensures !ContainsAny(s, ks)
  {
    forall j | 0 <= j < |ks|
      ensures !Contains(s, ks[j])
    {
      MissingPairRulesOut(s, ks[j], at[j]);
    }
  }
}
