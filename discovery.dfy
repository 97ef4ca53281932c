/** The `DSBackend` handler (lines 92-250) with its I/O abstracted: the form
    values arrive as a `Request`, the stores and the SAML metadata parser as
    an `Env`, and the handler yields the response document or the error that
    aborted it. `Serve` states the outcome as a function of the request, the
    collaborators and which handles were already cached; the method follows
    the source step by step and is proved to produce exactly that outcome. */
module Discovery {
  import opened Types
  import opened Sanitize
  import opened Strings
  import opened Compose
  import opened Assemble
  import opened Handles

  /** goxml `Query1` on `mdui:DisplayName[@xml:lang=lang]`: the first match, or "". */
  function Query1(names: map<string, string>, lang: string): string {
    if lang in names then names[lang] else ""
  }

  /** Lines 108-134: no SP when no entityID was given; otherwise the SP
      handle must open and the lookup must succeed, or the request aborts. */
  function ResolveSp(req: Request, env: Env, spCached: bool): Result<Option<SpMetadata>> {
    if req.entityID == "" then Ok(None)
    else if !spCached && !env.spOpens then Err(StoreUnavailable)
    else
      match env.spLookup(req.entityID)
      case Err(e) => Err(e)
      case Ok(md) => Ok(Some(md))
  }

  /** Lines 103 and 131-133: the requested federations, replaced by the SP's
      declared ones when an SP was resolved and the first requested one is "". */
  function EffectiveFeds(requested: seq<string>, sp: Option<SpMetadata>): seq<string>
    requires |requested| >= 1
  {
    if sp.Some? && requested[0] == "" then sp.value.feds else requested
  }

  /** Lines 127-130: the SP's display names in English and Danish. */
  function SpNames(md: SpMetadata): map<string, string> {
    map l | l in {"en", "da"} :: Query1(md.uiDisplayNames, l)
  }

  /** Lines 123-130; the zero value when no SP was resolved. */
  function SpInfo(entityID: string, sp: Option<SpMetadata>): SpInfoOut {
    match sp
    case None => SpInfoOut("", map[], "")
    case Some(md) => SpInfoOut(entityID, SpNames(md), md.logo)
  }

  /** The expression of the count and data queries (lines 209, 214). */
  function SearchExpression(req: Request, feds: seq<string>): string {
    FtsQuery(req.query) + OrGroup("feds:", feds) + OptionalGroup("entityid:", Split(req.providerIDs, ','))
  }

  /** The expression of the chosen query (line 184). */
  function ChosenExpression(req: Request, feds: seq<string>): string {
    OptionalGroup("", Split(req.chosen, ',')) + OrGroup("feds:", feds)
      + OptionalGroup("entityid:", Split(req.providerIDs, ','))
  }

  /** The response as line 136 leaves it, before any search. */
  function Initial(req: Request, sp: Option<SpMetadata>): Response {
    var spok := (req.entityID == "") == sp.None?;
    Response(spok, map[], 0, 0, EffectiveFeds(Split(req.feds, ','), sp), [], "", SpInfo(req.entityID, sp))
  }

  /** Lines 209-245: the count and the data query on one expression. */
  function CountAndFetch(env: Env, expr: string, res: Response): Result<Response> {
    match env.keywordsCount(expr)
    case Err(e) => Err(e)
    case Ok(found) =>
      match env.keywordsMatch(expr)
      case Err(e) => Err(e)
      case Ok(rows) =>
        if !AllDecode(rows) then Err(DecodeFailed)
        else Ok(res.(found := found, idps := res.idps + Converted(rows), rows := res.rows + |rows|))
  }

  /** Lines 138-246: the index handle, then the chosen query, then the count
      and data queries; each step can abort the request. */
  function Search(req: Request, env: Env, idpCached: bool, res: Response): Result<Response> {
    if !idpCached && !env.idpOpens then Err(StoreUnavailable)
    else
      match env.entityidMatch(ChosenExpression(req, res.feds))
      case Err(e) => Err(e)
      case Ok(chosenRows) =>
        if !AllDecode(chosenRows) then Err(DecodeFailed)
        else
          CountAndFetch(env, SearchExpression(req, res.feds),
            res.(chosen := res.chosen + map id | id in EntityIDs(chosenRows) :: true))
  }

  /** The outcome of one request. */
  function Serve(req: Request, env: Env, spCached: bool, idpCached: bool): Result<Response> {
    match ResolveSp(req, env, spCached)
    case Err(e) => Err(e)
    case Ok(sp) =>
      var res := Initial(req, sp);
      if !res.spok then Ok(res) else Search(req, env, idpCached, res)
  }

  /** Lines 108-122: open the SP handle if needed and look the SP up. */
  method LookupSp(cache: HandleCache, req: Request, env: Env) returns (r: Result<Option<SpMetadata>>)
    requires cache.Valid()
    modifies cache`spDB
    ensures cache.Valid()
    ensures r == ResolveSp(req, env, old(cache.spDB) != null)
    ensures req.entityID == "" || old(cache.spDB) != null ==> cache.spDB == old(cache.spDB)
    ensures req.entityID != "" && old(cache.spDB) == null ==>
      (cache.spDB != null <==> env.spOpens) && (cache.spDB != null ==> fresh(cache.spDB))
  {
    r := Ok(None);
    if req.entityID != "" {
      var ok := cache.OpenSp(env.spOpens);
      if !ok {
        return Err(StoreUnavailable);
      }
      var md := env.spLookup(req.entityID);
      if md.Err? {
        return Err(md.error);
      }
      r := Ok(Some(md.value));
    }
  }

  /** Lines 127-130: the loop over `en` and `da`. */
  method SpDisplayNames(md: SpMetadata) returns (names: map<string, string>)
    ensures names == SpNames(md)
  {
    names := map[];
    var langs := ["en", "da"];
    for i := 0 to |langs|
      invariant names == map l | l in langs[..i] :: Query1(md.uiDisplayNames, l)
    {
      names := names[langs[i] := Query1(md.uiDisplayNames, langs[i])];
    }
    assert langs[..|langs|] == langs;
  }

  /** Lines 140-174: the free-text expression and the three groups, and the
      two MATCH expressions made of them. */
  method ComposeExpressions(req: Request, feds: seq<string>) returns (search: string, chosen: string)
    ensures search == SearchExpression(req, feds)
    ensures chosen == ChosenExpression(req, feds)
  {
    var query := ToLower(req.query);
    var ftsquery := ReplaceDotDashPling(query);
    ftsquery := ReplaceNotWord(ftsquery);
    ftsquery := StarWhitespace(ftsquery);
    var fedsquery := BuildGroup("feds:", feds);
    var providerIDsquery := BuildOptionalGroup("entityid:", Split(req.providerIDs, ','));
    var chosenquery := BuildOptionalGroup("", Split(req.chosen, ','));
    search := ftsquery + fedsquery + providerIDsquery;
    chosen := chosenquery + fedsquery + providerIDsquery;
  }

  /** Lines 138-245, on the response `res` built so far. */
  method RunSearch(cache: HandleCache, req: Request, env: Env, res: Response) returns (out: Result<Response>)
    requires cache.Valid()
    modifies cache`idpDB
    ensures cache.Valid()
    ensures out == Search(req, env, old(cache.idpDB) != null, res)
    ensures old(cache.idpDB) != null ==> cache.idpDB == old(cache.idpDB)
    ensures old(cache.idpDB) == null ==>
      (cache.idpDB != null <==> env.idpOpens) && (cache.idpDB != null ==> fresh(cache.idpDB))
  {
    var searchExpr, chosenExpr := ComposeExpressions(req, res.feds);

    var ok := cache.OpenIdp(env.idpOpens);
    if !ok {
      return Err(StoreUnavailable);
    }

    var r := res;
    var rows := env.entityidMatch(chosenExpr);
    if rows.Err? {
      return Err(rows.error);
    }
    var marked := MarkChosen(r.chosen, rows.value);
    if marked.Err? {
      return Err(marked.error);
    }
    ChosenAsUnion(res.chosen, EntityIDs(rows.value), marked.value);
    r := r.(chosen := marked.value);

    out := RunCountAndFetch(env, searchExpr, r);
  }

  /** Lines 209-245. */
  method RunCountAndFetch(env: Env, expr: string, res: Response) returns (out: Result<Response>)
    ensures out == CountAndFetch(env, expr, res)
  {
    var r := res;
    var found := env.keywordsCount(expr);
    if found.Err? {
      return Err(found.error);
    }
    r := r.(found := found.value);

    var rows := env.keywordsMatch(expr);
    if rows.Err? {
      return Err(rows.error);
    }
    out := AppendIdps(r, rows.value);
  }

  /** Lines 92-250. */
  method DSBackend(cache: HandleCache, req: Request, env: Env) returns (out: Result<Response>)
    requires cache.Valid()
    modifies cache
    ensures cache.Valid()
    ensures out == Serve(req, env, old(cache.spDB) != null, old(cache.idpDB) != null)
    ensures req.entityID == "" || old(cache.spDB) != null ==> cache.spDB == old(cache.spDB)
    ensures req.entityID != "" && old(cache.spDB) == null ==>
      (cache.spDB != null <==> env.spOpens) && (cache.spDB != null ==> fresh(cache.spDB))
    ensures old(cache.idpDB) != null || ResolveSp(req, env, old(cache.spDB) != null).Err? ==>
      cache.idpDB == old(cache.idpDB)
    ensures old(cache.idpDB) == null && ResolveSp(req, env, old(cache.spDB) != null).Ok? ==>
      (cache.idpDB != null <==> env.idpOpens) && (cache.idpDB != null ==> fresh(cache.idpDB))
  {
    var res := Response(false, map[], 0, 0, [], [], "", SpInfoOut("", map[], ""));
    res := res.(feds := Split(req.feds, ','));

    var sp := LookupSp(cache, req, env);
    if sp.Err? {
      return Err(sp.error);
    }
    var spMetaData := sp.value;
    if spMetaData.Some? {
      var md := spMetaData.value;
      var names := SpDisplayNames(md);
      res := res.(sp := SpInfoOut(req.entityID, names, md.logo));
      if res.feds[0] == "" {
        res := res.(feds := md.feds);
      }
    }
    res := res.(spok := (req.entityID == "") == spMetaData.None?);
    assert res == Initial(req, spMetaData);

    if res.spok {
      out := RunSearch(cache, req, env, res);
    } else {
      out := Ok(res);
    }
  }

  // ---------------------------------------------------------------------
  // What every response satisfies.

  /** `Spok` is `(entityID == "") == (spMetaData == nil)`, and every path that
      reaches line 136 makes it true: an SP that cannot be resolved aborts
      the request instead of answering `spok: false`. */
  lemma SpokOnEveryResponse(req: Request, env: Env, spCached: bool, idpCached: bool)
    ensures Serve(req, env, spCached, idpCached).Ok? ==> Serve(req, env, spCached, idpCached).value.spok
  {
  }

  /** An SP lookup failure is the request's error. */
  lemma UnknownSpAborts(req: Request, env: Env, spCached: bool, idpCached: bool)
    requires req.entityID != ""
    requires spCached || env.spOpens
    requires env.spLookup(req.entityID).Err?
    ensures Serve(req, env, spCached, idpCached) == Err(env.spLookup(req.entityID).error)
  {
  }

  /** The federations searched: the SP's declared ones exactly when an SP
      was given and resolved and the first requested federation is "";
      otherwise the requested ones. */
  lemma FederationScope(req: Request, env: Env, spCached: bool, idpCached: bool)
    requires Serve(req, env, spCached, idpCached).Ok?
    ensures var r := Serve(req, env, spCached, idpCached).value;
      if req.entityID != "" && Split(req.feds, ',')[0] == ""
      then r.feds == env.spLookup(req.entityID).value.feds
      else r.feds == Split(req.feds, ',')
  {
  }

  /** The count and the data query run on one expression, the free text
      AND-ed with the federation and provider groups; `found` is its count and
      `idps` its rows in order; `Rows == len(Idps)`. */
  lemma SearchResults(req: Request, env: Env, spCached: bool, idpCached: bool)
    requires Serve(req, env, spCached, idpCached).Ok?
    ensures var r := Serve(req, env, spCached, idpCached).value;
      var e := FtsQuery(req.query) + OrGroup("feds:", r.feds) + OptionalGroup("entityid:", Split(req.providerIDs, ','));
      && env.keywordsCount(e) == Ok(r.found)
      && env.keywordsMatch(e).Ok?
      && AllDecode(env.keywordsMatch(e).value)
      && r.idps == Converted(env.keywordsMatch(e).value)
      && r.rows == |r.idps|
  {
  }

  /** `Chosen` holds exactly the entities the chosen query returned, each
      mapped to true; that query shares the federation and provider groups. */
  lemma ChosenResults(req: Request, env: Env, spCached: bool, idpCached: bool)
    requires Serve(req, env, spCached, idpCached).Ok?
    ensures var r := Serve(req, env, spCached, idpCached).value;
      var e := OptionalGroup("", Split(req.chosen, ',')) + OrGroup("feds:", r.feds)
        + OptionalGroup("entityid:", Split(req.providerIDs, ','));
      && env.entityidMatch(e).Ok?
      && AllDecode(env.entityidMatch(e).value)
      && r.chosen.Keys == EntityIDs(env.entityidMatch(e).value)
      && (forall id :: id in r.chosen ==> r.chosen[id])
  {
  }

  /** Without an entityID no SP store is consulted: the SP part of the
      response is empty and the requested federations are kept. */
  lemma AnonymousRequest(req: Request, env: Env, spCached: bool, idpCached: bool)
    requires req.entityID == ""
    requires Serve(req, env, spCached, idpCached).Ok?
    ensures Serve(req, env, spCached, idpCached).value.sp == SpInfoOut("", map[], "")
    ensures Serve(req, env, spCached, idpCached).value.feds == Split(req.feds, ',')
  {
  }

  /** An SP that resolves is described by its logo and its `en` and `da`
      display names ("" where the metadata has none). */
  lemma ResolvedSpInfo(req: Request, env: Env, spCached: bool, idpCached: bool)
    requires req.entityID != ""
    requires Serve(req, env, spCached, idpCached).Ok?
    ensures var sp := Serve(req, env, spCached, idpCached).value.sp;
      var md := env.spLookup(req.entityID).value;
      && sp.entityID == req.entityID
      && sp.logo == md.logo
      && sp.displayNames.Keys == {"en", "da"}
      && sp.displayNames["en"] == Query1(md.uiDisplayNames, "en")
      && sp.displayNames["da"] == Query1(md.uiDisplayNames, "da")
  {
  }

  /** A request that gets past the SP lookup but cannot open the index fails
      with StoreUnavailable; a decode error in any row fails the request. */
  lemma FailFast(req: Request, env: Env, spCached: bool, idpCached: bool)
    requires ResolveSp(req, env, spCached).Ok?
    ensures !idpCached && !env.idpOpens ==> Serve(req, env, spCached, idpCached) == Err(StoreUnavailable)
    ensures var feds := EffectiveFeds(Split(req.feds, ','), ResolveSp(req, env, spCached).value);
      var m := env.keywordsMatch(SearchExpression(req, feds));
      m.Ok? && !AllDecode(m.value) ==> Serve(req, env, spCached, idpCached).Err?
  {
  }
}
