/**
 * The repair applied to the metadata body before it is parsed: the server
 * wraps its JSON in a string literal, so the controller deletes the pattern
 * `(^")|("$)|(\\)` — a leading quote, a trailing quote and every backslash —
 * from the body.
 */
module Sanitizer {
  import opened Text

  /** The `^"` alternative: a quote at the very start. */
  predicate LeadingQuoteAt(s: string, i: nat)
  {
    i == 0 && |s| > 0 && s[0] == '"'
  }

  /**
   * The `"$` alternative. Without the multi-line option .NET's `$` matches at the
   * end of the input and also just before a final newline, so the trailing quote
   * is either the last character or the one before a final `\n`.
   */
  predicate TrailingQuoteAt(s: string, i: nat)
  {
    i < |s| && s[i] == '"' && (i == |s| - 1 || (i + 2 == |s| && s[|s| - 1] == '\n'))
  }

  /** Position `i` is deleted by the replacement. */
  predicate MatchedAt(s: string, i: nat)
    requires i < |s|
  {
    LeadingQuoteAt(s, i) || TrailingQuoteAt(s, i) || s[i] == '\\'
  }

  /** The replacement from position `i` on: matches are found in the original text, left to right. */
  function ReplaceFrom(s: string, i: nat): string
    requires i <= |s|
    decreases |s| - i
  {
    if i == |s| then [] else (if MatchedAt(s, i) then [] else [s[i]]) + ReplaceFrom(s, i + 1)
  }

  /** What backslash deletion keeps of one character. */
  function Kept(c: char): string
  {
    if c == '\\' then [] else [c]
  }

  /** Deletes every backslash and keeps all other characters in order. */
  function RemoveBackslashes(s: string): (r: string)
    ensures |r| <= |s|
    ensures '\\' !in r
  {
    if s == [] then [] else Kept(s[0]) + RemoveBackslashes(s[1..])
  }

  /** `s` begins with a quote or ends with one (possibly followed by a final newline). */
  predicate Quoted(s: string)
  {
    || (|s| > 0 && s[0] == '"')
    || (|s| > 0 && s[|s| - 1] == '"')
    || (|s| > 1 && s[|s| - 2] == '"' && s[|s| - 1] == '\n')
  }

  /** Deletes a leading quote. */
  function StripLeadingQuote(s: string): string
  {
    if |s| > 0 && s[0] == '"' then s[1..] else s
  }

  /** Deletes a trailing quote, keeping a final newline that follows it. */
  function StripTrailingQuote(t: string): string
  {
    if |t| > 0 && t[|t| - 1] == '"' then t[..|t| - 1]
    else if |t| > 1 && t[|t| - 2] == '"' && t[|t| - 1] == '\n' then t[..|t| - 2] + "\n"
    else t
  }

  /** Deletes a leading quote, then a trailing quote of what is left. */
  function Unquote(s: string): (r: string)
    ensures |r| <= |s|
  {
    StripTrailingQuote(StripLeadingQuote(s))
  }

  /**
   * The regular-expression replacement of line 283. It equals the plain reading
   * "strip the surrounding quotes, then delete every backslash".
   */
  function Sanitize(s: string): (r: string)
    ensures r == RemoveBackslashes(Unquote(s))
    ensures '\\' !in r
  {
    ReplacementIsUnquoteThenRemove(s);
    ReplaceFrom(s, 0)
  }

  lemma {:induction false} RemoveBackslashesAppend(a: string, b: string)
    ensures RemoveBackslashes(a + b) == RemoveBackslashes(a) + RemoveBackslashes(b)
    decreases |a|
  {
    if a == [] {
      assert a + b == b;
    } else {
      assert (a + b)[0] == a[0] && (a + b)[1..] == a[1..] + b;
      RemoveBackslashesAppend(a[1..], b);
      AppendAssociative(Kept(a[0]), RemoveBackslashes(a[1..]), RemoveBackslashes(b));
    }
  }

  /** One step of the replacement at a position that holds no quote to delete. */
  lemma ReplaceStep(s: string, i: nat)
    requires i < |s| && !LeadingQuoteAt(s, i) && !TrailingQuoteAt(s, i)
    ensures ReplaceFrom(s, i) == Kept(s[i]) + ReplaceFrom(s, i + 1)
  {
  }

  /** Between quote positions the replacement only deletes backslashes. */
  lemma {:induction false} ReplaceWithoutQuotes(s: string, i: nat, j: nat)
    requires i <= j <= |s|
    requires forall k: nat :: i <= k < j ==> !LeadingQuoteAt(s, k) && !TrailingQuoteAt(s, k)
    ensures ReplaceFrom(s, i) == RemoveBackslashes(s[i..j]) + ReplaceFrom(s, j)
    decreases j - i
  {
    if i < j {
      var rest, tail := RemoveBackslashes(s[i + 1..j]), ReplaceFrom(s, j);
      ReplaceWithoutQuotes(s, i + 1, j);
      ReplaceStep(s, i);
      assert s[i..j][1..] == s[i + 1..j];
      assert RemoveBackslashes(s[i..j]) == Kept(s[i]) + rest;
      AppendAssociative(Kept(s[i]), rest, tail);
    }
  }

  /** Index where the text after a leading quote starts. */
  function Start(s: string): nat
  {
    if |s| > 0 && s[0] == '"' then 1 else 0
  }

  lemma {:induction false} SkipLeadingQuote(s: string)
    ensures Start(s) <= |s|
    ensures ReplaceFrom(s, 0) == ReplaceFrom(s, Start(s))
    ensures StripLeadingQuote(s) == s[Start(s)..]
  {
  }

  lemma {:induction false} ReplaceEndingInQuote(s: string)
    requires |s| > 0 && s[|s| - 1] == '"'
    ensures ReplaceFrom(s, 0) == RemoveBackslashes(Unquote(s))
  {
    var n, lo := |s|, Start(s);
    SkipLeadingQuote(s);
    if lo < n {
      ReplaceWithoutQuotes(s, lo, n - 1);
      assert ReplaceFrom(s, n - 1) == [];
      assert s[lo..][..n - 1 - lo] == s[lo..n - 1];
    }
  }

  /** A quote before a final newline is deleted and the newline kept. */
  lemma {:induction false} ReplaceQuoteNewline(s: string)
    requires |s| > 1 && s[|s| - 2] == '"' && s[|s| - 1] == '\n'
    ensures ReplaceFrom(s, |s| - 2) == "\n"
  {
    var n := |s|;
    assert MatchedAt(s, n - 2) by { assert TrailingQuoteAt(s, n - 2); }
    assert !MatchedAt(s, n - 1);
    assert ReplaceFrom(s, n - 1) == [s[n - 1]] + ReplaceFrom(s, n);
  }

  lemma {:induction false} StripQuoteNewline(s: string)
    requires |s| > 1 && s[|s| - 2] == '"' && s[|s| - 1] == '\n'
    requires Start(s) < |s| - 1
    ensures StripTrailingQuote(s[Start(s)..]) == s[Start(s)..|s| - 2] + "\n"
  {
    var t := s[Start(s)..];
    assert t[|t| - 1] == '\n' && t[|t| - 2] == '"';
    assert t[..|t| - 2] == s[Start(s)..|s| - 2];
  }

  lemma {:induction false} ReplaceEndingInQuoteNewline(s: string)
    requires |s| > 1 && s[|s| - 2] == '"' && s[|s| - 1] == '\n'
    ensures ReplaceFrom(s, 0) == RemoveBackslashes(Unquote(s))
  {
    var n, lo := |s|, Start(s);
    SkipLeadingQuote(s);
    ReplaceQuoteNewline(s);
    if lo < n - 1 {
      var middle := s[lo..n - 2];
      StripQuoteNewline(s);
      assert Unquote(s) == middle + "\n";
      ReplaceWithoutQuotes(s, lo, n - 2);
      assert ReplaceFrom(s, 0) == RemoveBackslashes(middle) + "\n";
      RemoveBackslashesAppend(middle, "\n");
      assert RemoveBackslashes("\n") == "\n";
    } else {
      assert s[lo..] == "\n";
    }
  }

  /** Without a quote at the end, stripping a trailing quote does nothing, also after a leading quote is gone. */
  lemma {:induction false} NoTrailingQuoteToStrip(s: string)
    requires !(|s| > 0 && s[|s| - 1] == '"')
    requires !(|s| > 1 && s[|s| - 2] == '"' && s[|s| - 1] == '\n')
    ensures StripTrailingQuote(s[Start(s)..]) == s[Start(s)..]
  {
    var t := s[Start(s)..];
    assert |t| > 0 ==> t[|t| - 1] == s[|s| - 1];
    assert |t| > 1 ==> t[|t| - 2] == s[|s| - 2];
  }

  lemma {:induction false} ReplaceUnquoted(s: string)
    requires !(|s| > 0 && s[|s| - 1] == '"')
    requires !(|s| > 1 && s[|s| - 2] == '"' && s[|s| - 1] == '\n')
    ensures ReplaceFrom(s, 0) == RemoveBackslashes(Unquote(s))
  {
    var n, lo := |s|, Start(s);
    SkipLeadingQuote(s);
    NoTrailingQuoteToStrip(s);
    assert forall k: nat :: lo <= k < n ==> !TrailingQuoteAt(s, k);
    ReplaceWithoutQuotes(s, lo, n);
    assert s[lo..n] == s[lo..];
  }

  lemma ReplacementIsUnquoteThenRemove(s: string)
    ensures ReplaceFrom(s, 0) == RemoveBackslashes(Unquote(s))
  {
    if |s| > 0 && s[|s| - 1] == '"' {
      ReplaceEndingInQuote(s);
    } else if |s| > 1 && s[|s| - 2] == '"' && s[|s| - 1] == '\n' {
      ReplaceEndingInQuoteNewline(s);
    } else {
      ReplaceUnquoted(s);
    }
  }

  lemma {:induction false} RemoveBackslashesKeepsClean(s: string)
    requires '\\' !in s
    ensures RemoveBackslashes(s) == s
    decreases |s|
  {
    if s != [] {
      RemoveBackslashesKeepsClean(s[1..]);
    }
  }

  /** Unquoting deletes something exactly when there is a quote to delete. */
  lemma {:induction false} UnquoteChangesOnlyQuoted(r: string)
    ensures Unquote(r) == r <==> !Quoted(r)
  {
    if |r| > 0 && r[0] == '"' {
      assert |StripLeadingQuote(r)| < |r|;
    }
  }

  /** Unquoting only deletes characters, apart from re-appending a newline that was there. */
  lemma {:induction false} UnquoteKeepsClean(r: string)
    requires '\\' !in r
    ensures '\\' !in Unquote(r)
  {
    var t := StripLeadingQuote(r);
    assert forall c :: c in t ==> c in r;
    assert forall c :: c in StripTrailingQuote(t) ==> c in t || c == '\n';
  }

  /**
   * Sanitizing an already sanitized body changes it again exactly when the result
   * still begins or ends with a quote: a body like `\"abc` only loses its leading
   * quote on the second pass.
   */
  lemma {:induction false} SanitizeIdempotentUnlessQuoted(s: string)
    ensures Sanitize(Sanitize(s)) == Sanitize(s) <==> !Quoted(Sanitize(s))
  {
    var r := Sanitize(s);
    UnquoteKeepsClean(r);
    RemoveBackslashesKeepsClean(Unquote(r));
    UnquoteChangesOnlyQuoted(r);
  }
}
