# godiscoveryservice query core, in Dafny

This project models the backend of the WAYF discovery service,
`discoveryservice.go`. The handler `DSBackend` takes a free-text query, an
optional service provider (SP) `entityID`, and comma-separated lists of
federations, chosen IdPs and provider ids. From these it builds SQLite FTS
MATCH expressions, runs three queries against the `disco` index and returns
a JSON response. The model lifts the handler's parts out as separate
members:

- **Sanitize** (`sanitize.dfy`). The ASCII lower-casing of the query, the
  three regular-expression rewrites that turn it into prefix terms
  (`[.\-']` to `0`, `[^\w]` to a space, `[\s]+|\z` to `* `), and the
  `[^\s\w]` to `0` rewrite applied to every identifier. The model follows
  Go's `ReplaceAll`: an empty `\z` match right after a whitespace run is not
  replaced. So a trailing run gives one `* `, and the empty query gives `* `.
- **Strings** (`strings.dfy`). `strings.Split` on `,`, proved to be the
  inverse of joining.
- **Compose** (`compose.dfy`). The loops that build the `(feds:a OR feds:b)`,
  `(entityid:..)` and chosen-id OR groups.
- **Assemble** (`assemble.dfy`). The loops over result rows: the chosen map,
  the per-record display-name maps (last entry per language wins), and the
  `Idps`/`Rows` accumulation.
- **Handles** (`handles.dfy`). The two cached `*sql.DB` handles as a class.
  Each is opened lazily, and `MetadataUpdated` closes and clears both.
- **Discovery** (`discovery.dfy`). The handler itself as a method, proved
  equal to the function `Serve`, with lemmas about every response.

External collaborators are parameters, gathered in the `Env` record:
- whether each `sql.Open` succeeds;
- the SP lookup, which covers hashing, `Scan`, `Inflate` and XML
  projection;
- the three `disco` queries, as functions from the MATCH expression to rows
  or an error.

A row whose JSON does not decode is `None`.

Behaviour a reader might expect that `discoveryservice.go` does not have:
- An SP `entityID` that does not resolve aborts the request with the lookup
  error (lines 119-121). There is no `spok: false` response. On every path
  that reaches line 136, `Spok` is true.
- Empty groups are not omitted. An unset `feds` parameter yields the group
  `(feds:)`. An SP that declares no federations yields the bare `)`.
- There is no prioritized result set and no per-record relevance flag.
  `Chosen` maps each entity the chosen query returns to `true`.

Identifiers keep their whitespace through sanitising. An id such as
`a OR b` therefore becomes several FTS terms inside its group
(`SanitisedIdentifierKeepsOperators`). The free-text query cannot do this:
it is lower-cased and holds only word characters, `*` and spaces
(`FtsQuery`).

## Model

| member | source | states |
|---|---|---|
| `Sanitize.ToLower` | discoveryservice.go:102 | same length; no upper-case ASCII letter remains; ASCII capitals are lowered by 32; `İ` (U+0130) becomes `i` and the Kelvin sign (U+212A) becomes `k`; every other character is kept; a character of the result is a word character exactly when the input's is one or is one of those two |
| `Sanitize.NonAsciiCapitalsQuery` | discoveryservice.go:102-142 | the query `İ` searches for `i* ` and the Kelvin sign for `k* ` |
| `Sanitize.ReplaceDotDashPling` | discoveryservice.go:140 | same length; each `.`, `-`, `'` becomes `0`; every other character is unchanged |
| `Sanitize.ReplaceNotWord` | discoveryservice.go:141 | same length; word characters are kept and every other character becomes a space, so the result holds only word characters and spaces |
| `Sanitize.StarFrom` | discoveryservice.go:142 | the `[\s]+\|\z` scan yields either nothing or a string ending in `* `; outside a whitespace run it is never empty |
| `Sanitize.StarWhitespace` | discoveryservice.go:142 | the result always ends with `* ` |
| `Sanitize.StarFromAlphabet` | discoveryservice.go:142 | every character of the result is `*`, a space, or a non-whitespace character of the input |
| `Sanitize.StarWhitespaceIsPrefixTerms` | discoveryservice.go:142 | the result is `t* ` for each maximal whitespace-free token `t` in order, preceded by one lone `* ` exactly when the input is empty or starts with whitespace |
| `Sanitize.BlankQueryIsWildcard` | discoveryservice.go:142 | an empty or all-whitespace input becomes exactly `* ` |
| `Sanitize.NormaliseFreeText` | discoveryservice.go:140-142 | the FTS text holds only word characters, `*` and spaces (no quote, parenthesis or `:`); it ends with `* `; every word character in it is `0` or occurs in the query |
| `Sanitize.FtsQuery` | discoveryservice.go:102-142 | the lower-cased, normalised query holds only lower-case word characters, `*` and spaces, so no upper-case FTS operator can appear |
| `Sanitize.SanitiseIdentifier` | discoveryservice.go:67 | same length; word and whitespace characters are kept; every other character becomes `0` |
| `Sanitize.SanitiseIdentifierIdempotent` | discoveryservice.go:147 | sanitising a sanitised identifier changes nothing |
| `Sanitize.SanitisedIdentifierAlphabet` | discoveryservice.go:67 | a sanitised identifier holds only word and whitespace characters |
| `Sanitize.SanitisedIdentifierKeepsOperators` | discoveryservice.go:67 | `a OR b` passes through unchanged |
| `Strings.Split` | discoveryservice.go:103 | `strings.Split` on `,` never returns an empty list, so `[0]` is always defined; no piece contains `,`; joining the pieces with `,` gives the input back |
| `Strings.SplitJoin` | discoveryservice.go:105 | splitting a join of comma-free pieces gives the same pieces back, so a value and its pieces determine each other |
| `Compose.BuildGroup` | discoveryservice.go:144-151 | the loop with its `delim` builds `(` + the sanitised prefixed terms joined by ` OR ` + `)`; an empty list gives just `)` |
| `Compose.BuildOptionalGroup` | discoveryservice.go:153-174 | the provider and chosen groups are `""` when the first id is `""`, and the full OR group otherwise |
| `Compose.GroupWellFormed` | discoveryservice.go:144-151 | for a non-empty list the group has `(` only at its start and `)` only at its end, and no `"` whatever the ids hold; for an empty list it is `)` |
| `Compose.OptionalGroupAbsentIff` | discoveryservice.go:153-174 | the optional group is empty if and only if the first id is `""` |
| `Compose.UnsetFederationGroup` | discoveryservice.go:144-151 | the feds list `[""]` of an unset parameter gives the group `(feds:)` |
| `Assemble.LastWinsKeys` | discoveryservice.go:234-236 | the display-name map's keys are exactly the list's language tags |
| `Assemble.LastWinsValues` | discoveryservice.go:234-236 | each language tag maps to the value of the last entry with that tag |
| `Assemble.DisplayNameMap` | discoveryservice.go:227-236 | the loop starting from a fresh map yields the last-writer-wins map |
| `Assemble.MarkChosen` | discoveryservice.go:190-202 | succeeds exactly when every row decodes, and fails with DecodeFailed otherwise; the keys become the old keys plus the returned entity ids; every returned id maps to true; other keys keep their value |
| `Assemble.AppendIdps` | discoveryservice.go:219-241 | succeeds exactly when every row decodes; `Idps` gains the converted rows in order; `Rows` grows by the number of rows, so `Rows == len(Idps)` is preserved |
| `Handles.Db.Close` | discoveryservice.go:75-81 | a closed handle is no longer open |
| `Handles.HandleCache.constructor` | discoveryservice.go:68 | both handles start absent |
| `Handles.HandleCache.MetadataUpdated` | discoveryservice.go:72-83 | both cached handles are closed and both become absent; when neither was present nothing changes, so a second call is a no-op |
| `Handles.HandleCache.OpenSp` | discoveryservice.go:109-114 | a present SP handle is reused; an absent one is opened (fresh) when `sql.Open` succeeds and stays absent when it fails; cached handles are never closed ones |
| `Handles.HandleCache.OpenIdp` | discoveryservice.go:176-182 | the same lazy-open discipline for the IdP index handle |
| `Discovery.LookupSp` | discoveryservice.go:108-122 | no SP without an entityID; otherwise a failed open or lookup is the request's error; the SP handle changes only when it was absent and an entityID was given |
| `Discovery.SpDisplayNames` | discoveryservice.go:127-130 | the loop over `en` and `da` gives the map of both tags to their `Query1` values |
| `Discovery.ComposeExpressions` | discoveryservice.go:140-174 | the search expression is free text + feds group + provider group; the chosen expression is chosen group + feds group + provider group |
| `Discovery.RunCountAndFetch` | discoveryservice.go:209-245 | the count and data queries run on the same expression; any query error or undecodable row aborts; otherwise `found` is set and the rows are appended |
| `Discovery.RunSearch` | discoveryservice.go:138-245 | builds the free-text and group expressions, opens the index if needed, and runs the chosen, count and data queries, yielding exactly `Search`; the index handle changes only when it was absent |
| `Discovery.DSBackend` | discoveryservice.go:92-250 | the handler's outcome equals `Serve` for the handles cached on entry; the cached handles stay open; each is opened at most once and only when absent |
| `Discovery.SpokOnEveryResponse` | discoveryservice.go:136 | every successful response has `spok` true |
| `Discovery.UnknownSpAborts` | discoveryservice.go:119-121 | a failed SP lookup is the request's error, not a `spok: false` response |
| `Discovery.FederationScope` | discoveryservice.go:131-133 | the searched federations are the SP's declared ones exactly when an entityID was given and the first requested federation is `""`; otherwise they are the requested ones |
| `Discovery.SearchResults` | discoveryservice.go:209-241 | count and data queries use the same expression (free text + feds group + provider group); `found` is that count; `idps` are that query's rows converted in order; `rows == len(idps)` |
| `Discovery.ChosenResults` | discoveryservice.go:184-202 | the chosen query uses chosen group + feds group + provider group; `Chosen`'s keys are exactly its entity ids, all mapped to true |
| `Discovery.AnonymousRequest` | discoveryservice.go:108-134 | without an entityID the SP part is empty and the requested federations are kept |
| `Discovery.ResolvedSpInfo` | discoveryservice.go:123-130 | a resolved SP is reported with its entityID, its logo, and display names keyed exactly `en` and `da` (each `""` when missing) |
| `Discovery.FailFast` | discoveryservice.go:176-245 | an index that cannot be opened aborts with StoreUnavailable; an undecodable data row aborts the request |

## Left out

- HTTP handling is not modelled: `r.ParseForm`, writing the response, `DSTiming`, and `json.Marshal` of the response. The request arrives as a `Request` value, and the response is returned as a value.
- The JSON distinction between a nil and an empty map or slice is not modelled. For example, `Sp.DisplayNames` is nil when no SP is given; the model uses the empty map.
- SQL execution and SQLite FTS `MATCH` semantics are not modelled, including the `limit 10` and `limit 100` row caps. Queries are `Env` functions from the MATCH expression to rows, so the model puts no bound on the number of rows.
- `json.Unmarshal` is not modelled. A row is its decoded `idpInfoIn`, or `None` when decoding fails.
- Errors from `Query`, `Scan` and `rows.Err` all become the query's error. When a query both fails and has an undecodable row, the model reports the query error; Go reports whichever comes first while scanning.
- SHA-1 hashing and hex encoding of the entityID, `gosaml.Inflate`, and goxml's XPath queries are not modelled. The SP lookup is an `Env` function by entityID that returns the logo, the UIInfo display names per language, and the declared federations. `Query1` is a map lookup that defaults to `""`.
- `string2Latin` is not part of this model. The `query` value is taken after it.
- `Sanitize.ToLower`: Go's full Unicode case mapping is not modelled. Only ASCII capitals, `İ` (U+0130, to `i`) and the Kelvin sign (U+212A, to `k`) are lowered. Every other non-ASCII character is kept as it is. Go would lower some of them, but its lower case is again outside `\w`, so line 141 turns it into a space in both.
- The `sync.Mutex` is not modelled, because every request and invalidation holds it. The cache is a single-threaded object.
- `Config`'s data-source names are not modelled. Each `sql.Open` outcome is a boolean in `Env`.
- The model's `Db` has no notion of queries in flight. Go's `Close` waits for them, but the lock is held by both the handler and `MetadataUpdated`, and the handler's deferred `rows.Close` runs before it unlocks, so no query is running when a handle is closed.
