/** Values exchanged by the discovery service handler: its request, the
    records it decodes, the response it assembles, and the outcomes of the
    external collaborators (SQLite stores, SAML metadata parsing) it calls. */
module Types {

  /** Request-fatal errors. Every one of them aborts the handler. */
  datatype Failure =
    | StoreUnavailable  // sql.Open failed
    | SpNotFound        // QueryRow(..).Scan found no metadata for the SP
    | QueryFailed       // Query, Scan or rows.Err failed
    | DecodeFailed      // json.Unmarshal of a row failed

  datatype Result<T> = Ok(value: T) | Err(error: Failure)

  datatype Option<T> = None | Some(value: T)

  /** One `{lang, value}` entry of an indexed IdP's display-name list. */
  datatype DisplayName = DisplayName(lang: string, value: string)

  /** `idpInfoIn`: the JSON column of a `disco` row, as decoded. */
  datatype IdpInfoIn = IdpInfoIn(entityID: string, displayNames: seq<DisplayName>)

  /** `idpInfoOut`: the record returned to the caller, display names keyed by language. */
  datatype IdpInfoOut = IdpInfoOut(entityID: string, displayNames: map<string, string>)

  /** `spInfoOut`: what the response says about the requesting service provider. */
  datatype SpInfoOut = SpInfoOut(entityID: string, displayNames: map<string, string>, logo: string)

  /** A row returned by a `disco` query: its JSON column decoded, or None when
      `json.Unmarshal` rejects it. */
  type Row = Option<IdpInfoIn>

  /** The fields the handler projects out of an SP's SAML metadata:
      the UIInfo logo, the first UIInfo DisplayName per xml:lang, and the
      `wayf:feds` values of the entity's extensions, in document order. */
  datatype SpMetadata = SpMetadata(logo: string, uiDisplayNames: map<string, string>, feds: seq<string>)

  /** The JSON response document. */
  datatype Response = Response(
    spok: bool,
    chosen: map<string, bool>,
    found: int,
    rows: int,
    feds: seq<string>,
    idps: seq<IdpInfoOut>,
    logo: string,
    sp: SpInfoOut)

  /** The form values the handler reads; a missing parameter is "".
      `query` is the value after string2Latin. */
  datatype Request = Request(
    entityID: string,
    query: string,
    feds: string,
    chosen: string,
    providerIDs: string)

  /** The outcomes of everything outside the handler's own code. */
  datatype Env = Env(
    spOpens: bool,                              // sql.Open of the SP metadata store succeeds
    idpOpens: bool,                             // sql.Open of the disco index succeeds
    spLookup: string -> Result<SpMetadata>,     // hash lookup, Scan, Inflate and XML parsing, by entityID
    entityidMatch: string -> Result<seq<Row>>,  // select json from disco where entityid MATCH ? limit 10
    keywordsCount: string -> Result<nat>,       // select count(*) c from disco where keywords MATCH ?
    keywordsMatch: string -> Result<seq<Row>>)  // select json from disco where keywords MATCH ? limit 100
}
