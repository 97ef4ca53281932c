/** The OR groups of the FTS MATCH expressions (lines 144-174): one group per
    dimension, `(` + prefix+id + ` OR ` + prefix+id ... + `)`, each id
    sanitised first. The federation group is built unconditionally; the
    provider and chosen groups only when the list's first element is not "". */
module Compose {
  import opened Sanitize
  import opened Strings

  /** The terms of one group: every value sanitised and put behind the prefix. */
  function Terms(prefix: string, values: seq<string>): seq<string> {
    seq(|values|, k requires 0 <= k < |values| => prefix + SanitiseIdentifier(values[k]))
  }

  /** The string the group loop leaves behind. An empty list leaves only the
      closing `)`; the handler's federation list can be empty when the SP's
      metadata declares no federations. */
  function OrGroup(prefix: string, values: seq<string>): string {
    (if |values| == 0 then "" else "(") + Join(Terms(prefix, values), " OR ") + ")"
  }

  /** Lines 153-162 and 164-174: no group at all when the first value is "". */
  function OptionalGroup(prefix: string, values: seq<string>): string
    requires |values| >= 1
  {
    if values[0] == "" then "" else OrGroup(prefix, values)
  }

  /** One more value adds one more term at the end. */
  lemma TermsSnoc(prefix: string, values: seq<string>, i: nat)
    requires i < |values|
    ensures Terms(prefix, values[..i + 1]) == Terms(prefix, values[..i]) + [prefix + SanitiseIdentifier(values[i])]
  {
  }

  /** The group text after `i + 1` iterations, from that after `i`. */
  lemma OpenGroupStep(prefix: string, values: seq<string>, i: nat)
    requires i < |values|
    ensures "(" + Join(Terms(prefix, values[..i + 1]), " OR ") ==
      (if i == 0 then "" else "(" + Join(Terms(prefix, values[..i]), " OR "))
      + (if i == 0 then "(" else " OR ") + prefix + SanitiseIdentifier(values[i])
  {
    TermsSnoc(prefix, values, i);
    if i > 0 {
      JoinSnoc(Terms(prefix, values[..i]), prefix + SanitiseIdentifier(values[i]), " OR ");
    }
  }

  /** The loop of lines 144-151 (and the loops of lines 155-161 and 166-172):
      `delim` is `(` for the first term and ` OR ` after it. */
  method BuildGroup(prefix: string, values: seq<string>) returns (g: string)
    ensures g == OrGroup(prefix, values)
  {
    g := "";
    var delim := "(";
    var i := 0;
    while i < |values|
      invariant 0 <= i <= |values|
      invariant delim == if i == 0 then "(" else " OR "
      invariant g == if i == 0 then "" else "(" + Join(Terms(prefix, values[..i]), " OR ")
    {
      var v := SanitiseIdentifier(values[i]);
      OpenGroupStep(prefix, values, i);
      g := g + delim + prefix + v;
      delim := " OR ";
      i := i + 1;
    }
    assert values[..i] == values;
    g := g + ")";
  }

  /** Lines 153-162 (prefix `entityid:`) and 164-174 (no prefix). */
  method BuildOptionalGroup(prefix: string, values: seq<string>) returns (g: string)
    requires |values| >= 1
    ensures g == OptionalGroup(prefix, values)
  {
    g := "";
    if values[0] != "" {
      g := BuildGroup(prefix, values);
    }
  }

  /** No character of `s` is in `bad`. */
  predicate Avoids(s: string, bad: set<char>) {
    forall i :: 0 <= i < |s| ==> s[i] !in bad
  }

  lemma {:induction false} JoinAvoids(parts: seq<string>, sep: string, bad: set<char>)
    requires Avoids(sep, bad)
    requires forall k :: 0 <= k < |parts| ==> Avoids(parts[k], bad)
    ensures Avoids(Join(parts, sep), bad)
    decreases |parts|
  {
    if |parts| > 1 {
      JoinAvoids(parts[1..], sep, bad);
      var rest := Join(parts[1..], sep);
      var j := parts[0] + sep + rest;
      forall i | 0 <= i < |j| ensures j[i] !in bad {
        if i < |parts[0]| {
          assert j[i] == parts[0][i];
        } else if i < |parts[0]| + |sep| {
          assert j[i] == sep[i - |parts[0]|];
        } else {
          assert j[i] == rest[i - |parts[0]| - |sep|];
        }
      }
    }
  }

  /** A group is well formed: for a non-empty list, `(` only at its start and
      `)` only at its end, and no `"` anywhere, whatever the values hold; for
      an empty list, the lone `)`. */
  lemma {:induction false} GroupWellFormed(prefix: string, values: seq<string>)
    requires Avoids(prefix, {'(', ')', '"'})
    ensures var g := OrGroup(prefix, values);
      && (|values| == 0 ==> g == ")")
      && (|values| > 0 ==> |g| >= 2 && g[0] == '(' && g[|g| - 1] == ')')
      && (forall i :: 0 <= i < |g| ==> g[i] != '"')
      && (forall i :: 0 < i < |g| ==> g[i] != '(')
      && (forall i :: 0 <= i < |g| - 1 ==> g[i] != ')')
  {
    var bad := {'(', ')', '"'};
    var ts := Terms(prefix, values);
    forall k | 0 <= k < |ts| ensures Avoids(ts[k], bad) {
      var v := SanitiseIdentifier(values[k]);
      assert ts[k] == prefix + v;
      forall i | 0 <= i < |ts[k]| ensures ts[k][i] !in bad {
        if i >= |prefix| {
          assert ts[k][i] == v[i - |prefix|];
        }
      }
    }
    JoinAvoids(ts, " OR ", bad);
    var inner := Join(ts, " OR ");
    var g := OrGroup(prefix, values);
    if |values| > 0 {
      assert g == "(" + inner + ")";
      forall i | 0 < i < |g| - 1 ensures g[i] !in bad {
        assert g[i] == inner[i - 1];
      }
    } else {
      assert g == inner + ")";
    }
  }

  /** The provider and chosen groups are absent exactly when the list's first
      element is "". */
  lemma {:induction false} OptionalGroupAbsentIff(prefix: string, values: seq<string>)
    requires |values| >= 1
    ensures OptionalGroup(prefix, values) == "" <==> values[0] == ""
  {
    var g := OrGroup(prefix, values);
    assert g[|g| - 1] == ')';
  }

  /** An unset `feds` parameter still yields a federation group, with one
      empty `feds:` term. */
  lemma UnsetFederationGroup()
    ensures OrGroup("feds:", [""]) == "(feds:)"
  {
    assert SanitiseIdentifier("") == "";
    assert "feds:" + "" == "feds:";
    assert Terms("feds:", [""]) == ["feds:"];
  }
}
