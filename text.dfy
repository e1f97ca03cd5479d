/**
 * The two .NET string operations the controller relies on, restricted to the
 * behaviour it observes: ordinal `String.Contains` (device-model test in
 * `Awake`) and `String.ToLower` (the `error` field test in `GetBanner`).
 */
module Text {

  /** `sub` occurs in `s` starting at index `i`. */
  predicate OccursAt(s: string, sub: string, i: nat)
  {
    i + |sub| <= |s| && s[i..i + |sub|] == sub
  }

  /** Ordinal substring test: true exactly when `sub` occurs somewhere in `s`. */
  function Contains(s: string, sub: string): (b: bool)
    ensures b <==> exists i: nat :: OccursAt(s, sub, i)
    decreases |s|
  {
    if |sub| > |s| then
      false
    else if s[..|sub|] == sub then
      assert OccursAt(s, sub, 0);
      true
    else
      ContainsShift(s, sub);
      Contains(s[1..], sub)
  }

  /** When `sub` is not a prefix of `s`, its occurrences in `s` are those in `s[1..]`, shifted by one. */
  lemma ContainsShift(s: string, sub: string)
    requires |sub| <= |s| && s[..|sub|] != sub
    ensures |s| > 0
    ensures (exists i: nat :: OccursAt(s, sub, i)) <==> (exists j: nat :: OccursAt(s[1..], sub, j))
  {
    if i: nat :| OccursAt(s, sub, i) {
      assert i != 0;
      assert s[1..][i - 1..i - 1 + |sub|] == s[i..i + |sub|];
      assert OccursAt(s[1..], sub, i - 1);
    }
    if j: nat :| OccursAt(s[1..], sub, j) {
      assert s[1..][j..j + |sub|] == s[j + 1..j + 1 + |sub|];
      assert OccursAt(s, sub, j + 1);
    }
  }

  /** `Char.ToLower` on the ASCII letters; every other character is left as it is. */
  function LowerChar(c: char): char
  {
    if 'A' <= c <= 'Z' then (c as int + 32) as char else c
  }

  /** `String.ToLower`: lower-cases character by character and keeps the length. */
  function Lower(s: string): (r: string)
    ensures |r| == |s|
    ensures forall i :: 0 <= i < |s| ==> r[i] == LowerChar(s[i])
  {
    if s == [] then [] else [LowerChar(s[0])] + Lower(s[1..])
  }

  /** The upper-case form of a lower-case ASCII letter. */
  function UpperChar(c: char): char
    requires 'a' <= c <= 'z'
  {
    (c as int - 32) as char
  }

  /** Exactly a lower-case letter and its upper-case form lower-case to that letter. */
  lemma LowerCharTo(c: char, lower: char)
    requires 'a' <= lower <= 'z'
    ensures LowerChar(c) == lower <==> c == lower || c == UpperChar(lower)
  {
  }

  /** `w` consists of lower-case ASCII letters only. */
  predicate LowerWord(w: string)
  {
    forall i :: 0 <= i < |w| ==> 'a' <= w[i] <= 'z'
  }

  /** `s` spells the lower-case word `w`, each letter in either case. */
  predicate SpellsIgnoringCase(s: string, w: string)
    requires LowerWord(w)
  {
    |s| == |w| && forall i :: 0 <= i < |s| ==> s[i] == w[i] || s[i] == UpperChar(w[i])
  }

  /** Lower-casing gives a lower-case word exactly when the input spells it in any mix of cases. */
  lemma LowerEquals(s: string, w: string)
    requires LowerWord(w)
    ensures Lower(s) == w <==> SpellsIgnoringCase(s, w)
  {
    if |s| == |w| {
      forall i | 0 <= i < |s|
        ensures Lower(s)[i] == w[i] <==> s[i] == w[i] || s[i] == UpperChar(w[i])
      {
        LowerCharTo(s[i], w[i]);
      }
      if Lower(s) != w {
        var i :| 0 <= i < |s| && Lower(s)[i] != w[i];
      }
    }
  }

  /**
   * `s.ToLower().Equals("false")` accepts exactly the 32 spellings of "false"
   * that differ only in the case of their letters.
   */
  lemma LowerIsFalse(s: string)
    ensures LowerWord("false")
    ensures Lower(s) == "false" <==> SpellsIgnoringCase(s, "false")
  {
    LowerEquals(s, "false");
  }

  /** Appending in two steps is appending the concatenation. */
  lemma AppendAssociative<T>(a: seq<T>, b: seq<T>, c: seq<T>)
    ensures (a + b) + c == a + (b + c)
  {
  }
}
