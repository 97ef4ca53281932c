/** `strings.Split` on a one-character separator, as the handler applies it to
    the comma-separated `feds`, `chosen` and `providerids` form values
    (lines 103, 105, 106), and the joining it undoes. */
module Strings {

  /** The parts with `sep` between consecutive ones. */
  function Join(parts: seq<string>, sep: string): string {
    if |parts| == 0 then ""
    else if |parts| == 1 then parts[0]
    else parts[0] + sep + Join(parts[1..], sep)
  }

  /** Appending a part appends a separator and the part. */
  lemma {:induction false} JoinSnoc(parts: seq<string>, x: string, sep: string)
    requires |parts| >= 1
    ensures Join(parts + [x], sep) == Join(parts, sep) + sep + x
    decreases |parts|
  {
    if |parts| > 1 {
      assert (parts + [x])[1..] == parts[1..] + [x];
      JoinSnoc(parts[1..], x, sep);
    }
  }

  /** Go's `strings.Split(s, sep)`: never empty (`""` splits into `[""]`),
      no piece contains the separator, and joining the pieces gives `s` back. */
  function Split(s: string, sep: char): (r: seq<string>)
    ensures |r| >= 1
    ensures forall k :: 0 <= k < |r| ==> sep !in r[k]
    ensures Join(r, [sep]) == s
    decreases |s|
  {
    if s == [] then [[]]
    else
      var rest := Split(s[1..], sep);
      if s[0] == sep then
        assert Join([[]] + rest, [sep]) == [sep] + Join(rest, [sep]);
        [[]] + rest
      else
        var r := [[s[0]] + rest[0]] + rest[1..];
        assert |rest| > 1 ==> Join(rest, [sep]) == rest[0] + [sep] + Join(rest[1..], [sep]);
        assert |rest| > 1 ==> Join(r, [sep]) == [s[0]] + rest[0] + [sep] + Join(rest[1..], [sep]);
        r
  }

  /** Splitting undoes joining: the separated form value and its list of
      pieces determine each other. */
  lemma {:induction false} SplitJoin(parts: seq<string>, sep: char)
    requires |parts| >= 1
    requires forall k :: 0 <= k < |parts| ==> sep !in parts[k]
    ensures Split(Join(parts, [sep]), sep) == parts
    decreases |Join(parts, [sep])|
  {
    var j := Join(parts, [sep]);
    if parts[0] == [] {
      if |parts| > 1 {
        assert j == [sep] + Join(parts[1..], [sep]);
        assert j[1..] == Join(parts[1..], [sep]);
        SplitJoin(parts[1..], sep);
        assert [[]] + parts[1..] == parts;
      }
    } else {
      var c := parts[0][0];
      var parts' := [parts[0][1..]] + parts[1..];
      assert sep !in parts'[0] by {
        assert forall x :: x in parts[0][1..] ==> x in parts[0];
      }
      assert j == [c] + Join(parts', [sep]) by {
        if |parts| > 1 {
          assert parts'[1..] == parts[1..];
        }
      }
      assert j[1..] == Join(parts', [sep]);
      SplitJoin(parts', sep);
      assert c != sep;
      assert [c] + parts'[0] == parts[0];
      assert parts'[1..] == parts[1..];
      assert [[c] + parts'[0]] + parts'[1..] == parts;
    }
  }
}
