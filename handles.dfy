/** The package-level store handles `spDB` and `idpDB` (line 68): opened
    lazily by the handler (lines 109-114, 176-182) and closed and cleared
    together by `MetadataUpdated` (lines 72-83). Every request and every
    invalidation hold the package lock, so the cache is modelled as a
    single-threaded object. */
module Handles {

  /** A `*sql.DB`: open from `sql.Open` until `Close`. */
  class Db {
    var open: bool

    constructor ()
      ensures open
    {
      open := true;
    }

    method Close()
      modifies this
      ensures !open
    {
      open := false;
    }
  }

  class HandleCache {
    var spDB: Db?
    var idpDB: Db?

    /** A cached handle is never a closed one. */
    ghost predicate Valid()
      reads this, spDB, idpDB
    {
      && (spDB != null ==> spDB.open)
      && (idpDB != null ==> idpDB.open)
    }

    /** Both handles start absent (nil). */
    constructor ()
      ensures Valid()
      ensures spDB == null && idpDB == null
    {
      spDB := null;
      idpDB := null;
    }

    /** Lines 72-83: close whichever handles are open and clear both. A
        second call finds nothing to close and changes nothing. */
    method MetadataUpdated()
      requires Valid()
      modifies this, spDB, idpDB
      ensures Valid()
      ensures spDB == null && idpDB == null
      ensures old(spDB) != null ==> !old(spDB).open
      ensures old(idpDB) != null ==> !old(idpDB).open
      ensures old(spDB) == null && old(idpDB) == null ==> unchanged(this)
    {
      if spDB != null {
        spDB.Close();
        spDB := null;
      }
      if idpDB != null {
        idpDB.Close();
        idpDB := null;
      }
    }

    /** Lines 109-114: reuse the cached SP handle, or open one when it is
        absent. `opens` is whether `sql.Open` succeeds; on failure the handle
        stays absent, so the next request tries again. Returns whether a
        handle is available. */
    method OpenSp(opens: bool) returns (ok: bool)
      requires Valid()
      modifies this`spDB
      ensures Valid()
      ensures old(spDB) != null ==> ok && spDB == old(spDB)
      ensures old(spDB) == null ==> ok == opens && (ok ==> spDB != null && fresh(spDB)) && (!ok ==> spDB == null)
      ensures ok <==> spDB != null
    {
      if spDB == null {
        if opens {
          spDB := new Db();
        }
      }
      ok := spDB != null;
    }

    /** Lines 176-182, the same discipline for the IdP index handle. */
    method OpenIdp(opens: bool) returns (ok: bool)
      requires Valid()
      modifies this`idpDB
      ensures Valid()
      ensures old(idpDB) != null ==> ok && idpDB == old(idpDB)
      ensures old(idpDB) == null ==> ok == opens && (ok ==> idpDB != null && fresh(idpDB)) && (!ok ==> idpDB == null)
      ensures ok <==> idpDB != null
    {
      if idpDB == null {
        if opens {
          idpDB := new Db();
        }
      }
      ok := idpDB != null;
    }
  }
}
