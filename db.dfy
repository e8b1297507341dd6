/**
 * `DB` of src/db.rs, as far as the crate keeps state of its own: the
 * column-family registry it builds at open time and updates through
 * `create_cf` and `drop_cf`. Every engine call is replaced by a parameter
 * carrying the engine's reply.
 */
module Db {
  import opened Wrappers
  import opened Handles
  import opened Utils
  import opened ColumnFamilies

  /** The message of `create_cf` when the name has a NUL (it differs from the path message). */
  const CfNameConversionError: string := "Failed to convert path to CString when opening rocksdb"

  class DB {
    const inner: Ptr
    var cfs: map<string, ColumnFamily>
    const path: string

    constructor (inner: Ptr, cfs: map<string, ColumnFamily>, path: string)
      ensures this.inner == inner && this.cfs == cfs && this.path == path
    {
      this.inner := inner;
      this.cfs := cfs;
      this.path := path;
    }

    /**
     * `DB::open_cf`: on success a new database whose registry is the one
     * `OpenOutcome` describes; otherwise the first error met, and no database.
     */
    static method OpenCf(path: string, cfs: seq<string>, engine: Result<OpenReply, Error>)
      returns (r: Result<DB, Error>)
      requires OpenRequires(path, cfs, engine)
      ensures r.Success? <==> OpenOutcome(path, cfs, engine).Success?
      ensures r.Failure? ==> r.error == OpenOutcome(path, cfs, engine).error
      ensures r.Success? ==> fresh(r.value) && r.value.path == path
      ensures r.Success? ==> (r.value.inner, r.value.cfs) == OpenOutcome(path, cfs, engine).value
    {
      var outcome := OpenWithFamilies(path, cfs, engine);
      if outcome.Failure? {
        return Failure(outcome.error);
      }
      var db := new DB(outcome.value.0, outcome.value.1, path);
      return Success(db);
    }

    /** `DB::open`: `open_cf` with no families, so the registry starts empty. */
    static method Open(path: string, engine: Result<OpenReply, Error>) returns (r: Result<DB, Error>)
      ensures r.Success? <==> NUL !in path && engine.Success? && engine.value.db != NULL
      ensures NUL in path ==> r == Failure(Error(PathConversionError))
      ensures NUL !in path && engine.Failure? ==> r == Failure(engine.error)
      ensures NUL !in path && engine.Success? && engine.value.db == NULL ==> r == Failure(Error(InitError))
      ensures r.Success? ==> fresh(r.value) && r.value.inner == engine.value.db && r.value.cfs == map[]
    {
      r := OpenCf(path, [], engine);
    }

    /**
     * `create_cf`: a name with a NUL is refused before the engine is called;
     * an engine error is passed on; otherwise the new handle is registered
     * under `name` (replacing any earlier entry) and returned. Nothing else
     * in the registry changes.
     */
    method CreateCf(name: string, engine: Result<Ptr, Error>) returns (r: Result<ColumnFamily, Error>)
      modifies this
      ensures NUL in name ==> r == Failure(Error(CfNameConversionError)) && cfs == old(cfs)
      ensures NUL !in name && engine.Failure? ==> r == Failure(engine.error) && cfs == old(cfs)
      ensures NUL !in name && engine.Success? ==>
        r == Success(ColumnFamily(engine.value)) && cfs == old(cfs)[name := ColumnFamily(engine.value)]
      ensures r.Success? ==> CfHandle(name) == Some(r.value)
    {
      if NUL in name {
        return Failure(Error(CfNameConversionError));
      }
      if engine.Failure? {
        return Failure(engine.error);
      }
      var cf := ColumnFamily(engine.value);
      cfs := cfs[name := cf];
      return Success(cf);
    }

    /**
     * `drop_cf`: an unknown name is an error and changes nothing. A known
     * name is removed from the registry BEFORE the engine is asked to drop
     * the family, so it stays removed even when the engine then fails.
     */
    method DropCf(name: string, engine: Result<(), Error>) returns (r: Result<(), Error>)
      modifies this
      ensures name !in old(cfs) ==> r == Failure(InvalidFamilyError(name)) && cfs == old(cfs)
      ensures name in old(cfs) ==> r == engine && cfs == old(cfs) - {name}
      ensures name in old(cfs) ==> CfHandle(name) == None
      ensures forall other :: other != name ==> CfHandle(other) == old(CfHandle(other))
    {
      if name in cfs {
        cfs := cfs - {name};
        return engine;
      }
      return Failure(InvalidFamilyError(name));
    }

    /** `cf_handle`: the registered handle, or nothing for an unknown name. */
    function CfHandle(name: string): (h: Option<ColumnFamily>)
      reads this
      ensures h.Some? <==> name in cfs
      ensures h.Some? ==> h.value == cfs[name]
    {
      if name in cfs then Some(cfs[name]) else None
    }
  }
}
