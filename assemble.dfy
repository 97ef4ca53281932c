/** The per-row work of the handler: marking the entities the chosen query
    found (lines 190-202) and turning each data row into an `idpInfoOut`
    appended to the response (lines 219-241). A row whose JSON does not
    decode aborts the request. */
module Assemble {
  import opened Types

  /** The display-name map of one record, built by writing the entries in
      order into an empty map (lines 227, 234-236). */
  function LastWins(dns: seq<DisplayName>): map<string, string>
    decreases |dns|
  {
    if dns == [] then map[]
    else LastWins(dns[..|dns| - 1])[dns[|dns| - 1].lang := dns[|dns| - 1].value]
  }

  /** The language tags of a display-name list. */
  function Langs(dns: seq<DisplayName>): set<string> {
    set k | 0 <= k < |dns| :: dns[k].lang
  }

  /** Entry `i` is the last entry with its language tag. */
  predicate IsLastOfLang(dns: seq<DisplayName>, i: int)
    requires 0 <= i < |dns|
  {
    forall j :: i < j < |dns| ==> dns[j].lang != dns[i].lang
  }

  /** The keys are exactly the language tags of the list. */
  lemma {:induction false} LastWinsKeys(dns: seq<DisplayName>)
    ensures LastWins(dns).Keys == Langs(dns)
    decreases |dns|
  {
    if dns != [] {
      var n := |dns| - 1;
      var init := dns[..n];
      LastWinsKeys(init);
      forall x | x in Langs(dns) ensures x in Langs(init) + {dns[n].lang} {
        var k :| 0 <= k < |dns| && dns[k].lang == x;
        if k < n { assert init[k].lang == x; }
      }
      forall x | x in Langs(init) ensures x in Langs(dns) {
        var k :| 0 <= k < n && init[k].lang == x;
        assert dns[k].lang == x;
      }
    }
  }

  /** Each key holds the value of the last entry with that tag. */
  lemma {:induction false} LastWinsValues(dns: seq<DisplayName>)
    ensures forall i :: 0 <= i < |dns| && IsLastOfLang(dns, i) ==>
      dns[i].lang in LastWins(dns) && LastWins(dns)[dns[i].lang] == dns[i].value
    decreases |dns|
  {
    if dns != [] {
      var n := |dns| - 1;
      var init := dns[..n];
      LastWinsValues(init);
      forall i | 0 <= i < n && IsLastOfLang(dns, i)
        ensures dns[i].lang in LastWins(dns) && LastWins(dns)[dns[i].lang] == dns[i].value
      {
        assert dns[n].lang != dns[i].lang;
        assert IsLastOfLang(init, i) by {
          forall j | i < j < n ensures init[j].lang != init[i].lang {
            assert init[j] == dns[j];
          }
        }
      }
    }
  }

  /** Lines 227 and 234-236: a fresh map, every entry written in order. */
  method DisplayNameMap(dns: seq<DisplayName>) returns (m: map<string, string>)
    ensures m == LastWins(dns)
  {
    m := map[];
    for i := 0 to |dns|
      invariant m == LastWins(dns[..i])
    {
      assert dns[..i + 1][..i] == dns[..i];
      m := m[dns[i].lang := dns[i].value];
    }
    assert dns[..|dns|] == dns;
  }

  /** The record line 232-236 makes of a decoded row. */
  function ToOut(info: IdpInfoIn): IdpInfoOut {
    IdpInfoOut(info.entityID, LastWins(info.displayNames))
  }

  /** Every row's JSON decodes. */
  predicate AllDecode(rows: seq<Row>) {
    forall k :: 0 <= k < |rows| ==> rows[k].Some?
  }

  function EntityIDs(rows: seq<Row>): set<string>
    requires AllDecode(rows)
  {
    set k | 0 <= k < |rows| :: rows[k].value.entityID
  }

  function Converted(rows: seq<Row>): seq<IdpInfoOut>
    requires AllDecode(rows)
  {
    seq(|rows|, k requires 0 <= k < |rows| => ToOut(rows[k].value))
  }

  lemma EntityIDsSnoc(rows: seq<Row>, i: nat)
    requires i < |rows| && AllDecode(rows[..i + 1])
    ensures AllDecode(rows[..i])
    ensures EntityIDs(rows[..i + 1]) == EntityIDs(rows[..i]) + {rows[i].value.entityID}
  {
    var next := rows[..i + 1];
    assert forall k :: 0 <= k < i ==> rows[..i][k] == next[k];
    forall x | x in EntityIDs(next) ensures x in EntityIDs(rows[..i]) + {rows[i].value.entityID} {
      var k :| 0 <= k < |next| && next[k].value.entityID == x;
      if k < i { assert rows[..i][k] == next[k]; }
    }
    forall x | x in EntityIDs(rows[..i]) ensures x in EntityIDs(next) {
      var k :| 0 <= k < i && rows[..i][k].value.entityID == x;
      assert next[k] == rows[..i][k];
    }
  }

  /** Lines 190-202: every entity the chosen query returns is marked true in
      `chosen`; other keys keep their value; an undecodable row aborts. */
  method MarkChosen(chosen: map<string, bool>, rows: seq<Row>) returns (out: Result<map<string, bool>>)
    ensures out.Ok? <==> AllDecode(rows)
    ensures out.Err? ==> out.error == DecodeFailed
    ensures out.Ok? ==> out.value.Keys == chosen.Keys + EntityIDs(rows)
    ensures out.Ok? ==> forall id :: id in EntityIDs(rows) ==> out.value[id]
    ensures out.Ok? ==> forall id :: id in chosen && id !in EntityIDs(rows) ==> out.value[id] == chosen[id]
  {
    var m := chosen;
    var i := 0;
    while i < |rows|
      invariant 0 <= i <= |rows|
      invariant AllDecode(rows[..i])
      invariant m.Keys == chosen.Keys + EntityIDs(rows[..i])
      invariant forall id :: id in EntityIDs(rows[..i]) ==> m[id]
      invariant forall id :: id in chosen && id !in EntityIDs(rows[..i]) ==> m[id] == chosen[id]
    {
      if rows[i].None? {
        return Err(DecodeFailed);
      }
      var f := rows[i].value;
      EntityIDsSnoc(rows, i);
      m := m[f.entityID := true];
      i := i + 1;
    }
    assert rows[..i] == rows;
    out := Ok(m);
  }

  /** What MarkChosen's postconditions say, as one map: the old map with every
      returned entity set to true. */
  lemma ChosenAsUnion(chosen: map<string, bool>, ids: set<string>, m: map<string, bool>)
    requires m.Keys == chosen.Keys + ids
    requires forall id :: id in ids ==> m[id]
    requires forall id :: id in chosen && id !in ids ==> m[id] == chosen[id]
    ensures m == chosen + map id | id in ids :: true
  {
  }

  /** Lines 219-241: each decoded row appended to `res.Idps` as its
      `idpInfoOut`, `res.Rows` counting the appends; an undecodable row aborts.
      `Rows == len(Idps)` is kept. */
  method AppendIdps(res: Response, rows: seq<Row>) returns (out: Result<Response>)
    ensures out.Ok? <==> AllDecode(rows)
    ensures out.Err? ==> out.error == DecodeFailed
    ensures out.Ok? ==> out.value == res.(idps := res.idps + Converted(rows), rows := res.rows + |rows|)
    ensures out.Ok? && res.rows == |res.idps| ==> out.value.rows == |out.value.idps|
  {
    var r := res;
    var i := 0;
    while i < |rows|
      invariant 0 <= i <= |rows|
      invariant AllDecode(rows[..i])
      invariant r == res.(idps := res.idps + Converted(rows[..i]), rows := res.rows + i)
    {
      if rows[i].None? {
        return Err(DecodeFailed);
      }
      var f := rows[i].value;
      var names := DisplayNameMap(f.displayNames);
      var x := IdpInfoOut(f.entityID, names);
      assert Converted(rows[..i + 1]) == Converted(rows[..i]) + [x];
      r := r.(idps := r.idps + [x], rows := r.rows + 1);
      i := i + 1;
    }
    assert rows[..i] == rows;
    out := Ok(r);
  }
}
