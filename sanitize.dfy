/** The rewrites that make untrusted text safe to embed in an SQLite FTS
    MATCH expression: `strings.ToLower` on the query, the
    three regular-expression replacements that turn it into prefix terms, and
    the replacement applied to every federation, provider and chosen id.
    Go's RE2 `\w` is `[0-9A-Za-z_]` and `\s` is `[\t\n\f\r ]`. */
module Sanitize {

  predicate IsWordChar(c: char) {
    ('0' <= c <= '9') || ('A' <= c <= 'Z') || ('a' <= c <= 'z') || c == '_'
  }

  predicate IsSpaceChar(c: char) {
    c == '\t' || c == '\n' || c == '\U{C}' || c == '\r' || c == ' '
  }

  predicate IsUpperAscii(c: char) {
    'A' <= c <= 'Z'
  }

  /** `s` ends with the `* ` that closes a prefix term. */
  predicate EndsWithWildcard(s: string) {
    |s| >= 2 && s[|s| - 2] == '*' && s[|s| - 1] == ' '
  }

  /** The characters of `dotdashpling`, `[\.\-\']`. */
  predicate IsDotDashPling(c: char) {
    c == '.' || c == '-' || c == '\''
  }

  /** The two characters outside ASCII whose lower case in Go's
      `unicode.ToLower` is an ASCII letter: U+0130 (capital I with dot above)
      lowers to `i`, U+212A (Kelvin sign) to `k`. */
  predicate LowersToAscii(c: char) {
    c == '\U{130}' || c == '\U{212A}'
  }

  /** `strings.ToLower` (line 102), as far as line 141 can tell: ASCII
      capitals and the two `LowersToAscii` characters are lowered; every other
      character is kept, since its Go lower case is outside `\w` either way. */
  function ToLower(s: string): (r: string)
    ensures |r| == |s|
    ensures forall i :: 0 <= i < |r| ==> !IsUpperAscii(r[i])
    ensures forall i :: 0 <= i < |s| && IsUpperAscii(s[i]) ==> r[i] as int == s[i] as int + 32
    ensures forall i :: 0 <= i < |s| && s[i] == '\U{130}' ==> r[i] == 'i'
    ensures forall i :: 0 <= i < |s| && s[i] == '\U{212A}' ==> r[i] == 'k'
    ensures forall i :: 0 <= i < |s| && !IsUpperAscii(s[i]) && !LowersToAscii(s[i]) ==> r[i] == s[i]
    ensures forall i :: 0 <= i < |s| ==> (IsWordChar(r[i]) <==> IsWordChar(s[i]) || LowersToAscii(s[i]))
  {
    if s == [] then []
    else
      var c :=
        if IsUpperAscii(s[0]) then (s[0] as int + 32) as char
        else if s[0] == '\U{130}' then 'i'
        else if s[0] == '\U{212A}' then 'k'
        else s[0];
      [c] + ToLower(s[1..])
  }

  /** Line 140: every `.`, `-` and `'` becomes `0`, nothing else changes. */
  function ReplaceDotDashPling(s: string): (r: string)
    ensures |r| == |s|
    ensures forall i :: 0 <= i < |s| && IsDotDashPling(s[i]) ==> r[i] == '0'
    ensures forall i :: 0 <= i < |s| && !IsDotDashPling(s[i]) ==> r[i] == s[i]
  {
    if s == [] then []
    else [if IsDotDashPling(s[0]) then '0' else s[0]] + ReplaceDotDashPling(s[1..])
  }

  /** Line 141: every non-word character becomes a space; the result holds
      only word characters and spaces. */
  function ReplaceNotWord(s: string): (r: string)
    ensures |r| == |s|
    ensures forall i :: 0 <= i < |s| && IsWordChar(s[i]) ==> r[i] == s[i]
    ensures forall i :: 0 <= i < |s| && !IsWordChar(s[i]) ==> r[i] == ' '
    ensures forall i :: 0 <= i < |r| ==> IsWordChar(r[i]) || r[i] == ' '
  {
    if s == [] then []
    else [if IsWordChar(s[0]) then s[0] else ' '] + ReplaceNotWord(s[1..])
  }

  /** Line 142, the scan of `[\s]+|\z` replaced by `* `. `inRun` holds when
      the previous character was whitespace that has already produced its
      `* `; the empty `\z` match right after such a run is not replaced, as
      Go's ReplaceAll skips an empty match adjacent to the previous match
      unless it is at the start of the text. */
  function StarFrom(s: string, inRun: bool): (r: string)
    ensures r == [] || EndsWithWildcard(r)
    ensures !inRun ==> r != []
    decreases |s|
  {
    if s == [] then
      if inRun then [] else "* "
    else if IsSpaceChar(s[0]) then
      if inRun then StarFrom(s[1..], true) else "* " + StarFrom(s[1..], true)
    else
      [s[0]] + StarFrom(s[1..], false)
  }

  function StarWhitespace(s: string): (r: string)
    ensures EndsWithWildcard(r)
  {
    StarFrom(s, false)
  }

  /** Line 142 adds only `*` and spaces: every other character of its result
      is a non-whitespace character of its input. */
  lemma {:induction false} StarFromAlphabet(s: string, inRun: bool)
    ensures forall i :: 0 <= i < |StarFrom(s, inRun)| ==>
      var c := StarFrom(s, inRun)[i]; c == '*' || c == ' ' || (c in s && !IsSpaceChar(c))
    decreases |s|
  {
    if s != [] {
      StarFromAlphabet(s[1..], IsSpaceChar(s[0]));
      var r := StarFrom(s, inRun);
      var t := StarFrom(s[1..], IsSpaceChar(s[0]));
      forall i | 0 <= i < |r| ensures r[i] == '*' || r[i] == ' ' || (r[i] in s && !IsSpaceChar(r[i])) {
        if IsSpaceChar(s[0]) {
          if inRun {
            assert r == t;
          } else {
            assert r == "* " + t;
            if i >= 2 { assert r[i] == t[i - 2]; }
          }
        } else {
          assert r == [s[0]] + StarFrom(s[1..], false);
          if i >= 1 { assert r[i] == t[i - 1]; }
        }
      }
    }
  }

  /** Lines 140-142: the free-text query as an FTS prefix-term expression.
      Only word characters, `*` and spaces survive, so no quote, parenthesis
      or column qualifier can be injected, and every word character of the
      result already occurred in `q` (or is the `0` written for `.-'`). */
  function NormaliseFreeText(q: string): (r: string)
    ensures EndsWithWildcard(r)
    ensures forall i :: 0 <= i < |r| ==> IsWordChar(r[i]) || r[i] == '*' || r[i] == ' '
    ensures forall i :: 0 <= i < |r| && IsWordChar(r[i]) ==> r[i] == '0' || r[i] in q
  {
    var a := ReplaceDotDashPling(q);
    var b := ReplaceNotWord(a);
    var r := StarWhitespace(b);
    StarFromAlphabet(b, false);
    assert forall i :: 0 <= i < |r| && IsWordChar(r[i]) ==> r[i] in b;
    assert forall c :: c in b && IsWordChar(c) ==> c in a by {
      forall c | c in b && IsWordChar(c) ensures c in a {
        var k :| 0 <= k < |b| && b[k] == c;
        assert a[k] == c;
      }
    }
    assert forall c :: c in a && c != '0' ==> c in q by {
      forall c | c in a && c != '0' ensures c in q {
        var k :| 0 <= k < |a| && a[k] == c;
        assert q[k] == c;
      }
    }
    r
  }

  /** The `query` form value as the handler searches for it: lower-cased
      (line 102), then normalised (lines 140-142). */
  function FtsQuery(query: string): (r: string)
    ensures forall i :: 0 <= i < |r| ==> (IsWordChar(r[i]) && !IsUpperAscii(r[i])) || r[i] == '*' || r[i] == ' '
  {
    var lower := ToLower(query);
    var r := NormaliseFreeText(lower);
    assert forall i :: 0 <= i < |r| && r[i] in lower ==> !IsUpperAscii(r[i]);
    r
  }

  /** The dotted capital I and the Kelvin sign lower to ASCII letters, which
      line 141 keeps: `İ` searches for `i`, not for everything. */
  lemma NonAsciiCapitalsQuery()
    ensures FtsQuery("\U{130}") == "i* "
    ensures FtsQuery("\U{212A}") == "k* "
  {
    assert ToLower("\U{130}") == "i";
    assert StarFrom("i", false) == "i* " by {
      assert StarFrom("i"[1..], false) == "* ";
    }
    assert ToLower("\U{212A}") == "k";
    assert StarFrom("k", false) == "k* " by {
      assert StarFrom("k"[1..], false) == "* ";
    }
  }

  /** `notwordnorwhitespace` replaced by `0` (lines 67, 147, 157, 168):
      word and whitespace characters are kept, every other character becomes `0`. */
  function SanitiseIdentifier(s: string): (r: string)
    ensures |r| == |s|
    ensures forall i :: 0 <= i < |s| && (IsWordChar(s[i]) || IsSpaceChar(s[i])) ==> r[i] == s[i]
    ensures forall i :: 0 <= i < |s| && !(IsWordChar(s[i]) || IsSpaceChar(s[i])) ==> r[i] == '0'
  {
    if s == [] then []
    else [if IsWordChar(s[0]) || IsSpaceChar(s[0]) then s[0] else '0'] + SanitiseIdentifier(s[1..])
  }

  /** Sanitising twice is sanitising once. */
  lemma {:induction false} SanitiseIdentifierIdempotent(s: string)
    ensures SanitiseIdentifier(SanitiseIdentifier(s)) == SanitiseIdentifier(s)
  {
    var r := SanitiseIdentifier(s);
    var rr := SanitiseIdentifier(r);
    assert |rr| == |r|;
    forall i | 0 <= i < |r| ensures rr[i] == r[i] {
      assert IsWordChar(r[i]) || IsSpaceChar(r[i]);
    }
  }

  /** A sanitised id carries no FTS syntax character other than whitespace. */
  lemma SanitisedIdentifierAlphabet(s: string)
    ensures forall i :: 0 <= i < |SanitiseIdentifier(s)| ==>
      IsWordChar(SanitiseIdentifier(s)[i]) || IsSpaceChar(SanitiseIdentifier(s)[i])
  {
  }

  /** Whitespace survives sanitising, so an id with spaces becomes several
      FTS terms (here an `OR` operator between two of them). */
  lemma SanitisedIdentifierKeepsOperators()
    ensures SanitiseIdentifier("a OR b") == "a OR b"
  {
  }

  // ---------------------------------------------------------------------
  // Reference reading of line 142: each maximal whitespace-free token `t`
  // becomes the prefix term `t* `, and a leading whitespace run (or an empty
  // input) contributes one lone `* `.

  /** Length of the whitespace-free run that starts `s`. */
  function TokenLength(s: string): (n: nat)
    requires s != [] && !IsSpaceChar(s[0])
    ensures 1 <= n <= |s|
    ensures forall i :: 0 <= i < n ==> !IsSpaceChar(s[i])
    ensures n == |s| || IsSpaceChar(s[n])
  {
    if |s| == 1 || IsSpaceChar(s[1]) then 1 else 1 + TokenLength(s[1..])
  }

  /** The maximal whitespace-free runs of `s`, in order. */
  function Tokens(s: string): (ts: seq<string>)
    ensures forall k :: 0 <= k < |ts| ==> ts[k] != [] && forall i :: 0 <= i < |ts[k]| ==> !IsSpaceChar(ts[k][i])
    decreases |s|
  {
    if s == [] then []
    else if IsSpaceChar(s[0]) then Tokens(s[1..])
    else
      var n := TokenLength(s);
      [s[..n]] + Tokens(s[n..])
  }

  function PrefixTerms(ts: seq<string>): string {
    if ts == [] then "" else ts[0] + "* " + PrefixTerms(ts[1..])
  }

  /** A token of one character: its `* ` follows it directly. */
  lemma StarAfterOneChar(s: string, inRun: bool)
    requires 1 <= |s| && !IsSpaceChar(s[0])
    requires |s| == 1 || IsSpaceChar(s[1])
    ensures StarFrom(s, inRun) == s[..1] + "* " + StarFrom(s[1..], true)
  {
    var t := s[1..];
    assert StarFrom(s, inRun) == [s[0]] + StarFrom(t, false);
    assert s[..1] == [s[0]];
    if t == [] {
      assert StarFrom(t, false) == "* ";
      assert StarFrom(t, true) == [];
    } else {
      assert IsSpaceChar(t[0]);
      assert StarFrom(t, false) == "* " + StarFrom(t[1..], true);
      assert StarFrom(t, true) == StarFrom(t[1..], true);
    }
  }

  /** Putting a character back in front of a token and its `* `. */
  lemma ConsToken(s: string, n: nat, rest: string)
    requires 2 <= n <= |s|
    ensures [s[0]] + (s[1..][..n - 1] + "* " + rest) == s[..n] + "* " + rest
  {
    assert s[1..][..n - 1] == s[1..n];
    assert [s[0]] + s[1..n] == s[..n];
  }

  /** A token of `n` characters is copied and followed by one `* `; the
      whitespace after it then counts as already starred. */
  lemma {:induction false} StarAfterToken(s: string, n: nat, inRun: bool)
    requires 1 <= n <= |s|
    requires forall i :: 0 <= i < n ==> !IsSpaceChar(s[i])
    requires n == |s| || IsSpaceChar(s[n])
    ensures StarFrom(s, inRun) == s[..n] + "* " + StarFrom(s[n..], true)
    decreases n
  {
    if n == 1 {
      StarAfterOneChar(s, inRun);
    } else {
      var t := s[1..];
      assert StarFrom(s, inRun) == [s[0]] + StarFrom(t, false);
      assert forall i :: 0 <= i < n - 1 ==> !IsSpaceChar(t[i]) by {
        forall i | 0 <= i < n - 1 ensures !IsSpaceChar(t[i]) {
          assert t[i] == s[i + 1];
        }
      }
      StarAfterToken(t, n - 1, false);
      assert t[n - 1..] == s[n..];
      ConsToken(s, n, StarFrom(s[n..], true));
    }
  }

  lemma {:induction false} StarInRunIsPrefixTerms(s: string)
    ensures StarFrom(s, true) == PrefixTerms(Tokens(s))
    decreases |s|
  {
    if s == [] {
    } else if IsSpaceChar(s[0]) {
      StarInRunIsPrefixTerms(s[1..]);
    } else {
      var n := TokenLength(s);
      StarAfterToken(s, n, true);
      StarInRunIsPrefixTerms(s[n..]);
      assert Tokens(s) == [s[..n]] + Tokens(s[n..]);
    }
  }

  /** Line 142 against the token reading: `* ` for a leading whitespace run
      or an empty input, then `t* ` for each token `t`. */
  lemma {:induction false} StarWhitespaceIsPrefixTerms(s: string)
    ensures StarWhitespace(s) ==
      (if s == [] || IsSpaceChar(s[0]) then "* " else "") + PrefixTerms(Tokens(s))
  {
    if s == [] {
    } else if IsSpaceChar(s[0]) {
      StarInRunIsPrefixTerms(s[1..]);
    } else {
      var n := TokenLength(s);
      StarAfterToken(s, n, false);
      StarInRunIsPrefixTerms(s[n..]);
      assert Tokens(s) == [s[..n]] + Tokens(s[n..]);
    }
  }

  /** The empty query and an all-whitespace query both become the single
      wildcard `* `. */
  lemma {:induction false} BlankQueryIsWildcard(s: string)
    requires forall i :: 0 <= i < |s| ==> IsSpaceChar(s[i])
    ensures StarWhitespace(s) == "* "
  {
    StarWhitespaceIsPrefixTerms(s);
    BlankHasNoTokens(s);
  }

  lemma {:induction false} BlankHasNoTokens(s: string)
    requires forall i :: 0 <= i < |s| ==> IsSpaceChar(s[i])
    ensures Tokens(s) == []
    decreases |s|
  {
    if s != [] {
      BlankHasNoTokens(s[1..]);
    }
  }
}
