/**
 * `OptimisticTransactionDB` of src/optimistic_txn_db.rs: the same
 * column-family registry as `DB`, kept in a plain map the database owns,
 * with two differences from src/db.rs: `create_cf` converts the name with
 * `to_cpath` (and so reports the path message), and `drop_cf` looks the name
 * up without removing it, so the entry survives the drop.
 */
module OptimisticTxnDb {
  import opened Wrappers
  import opened Handles
  import opened Utils
  import opened ColumnFamilies

  class OptimisticTransactionDB {
    const inner: Ptr
    var cfs: map<string, ColumnFamily>

    constructor (inner: Ptr, cfs: map<string, ColumnFamily>)
      ensures this.inner == inner && this.cfs == cfs
    {
      this.inner := inner;
      this.cfs := cfs;
    }

    /** `open`: path conversion, the engine's open, the null check; the registry starts empty. */
    static method Open(path: string, engine: Result<Ptr, Error>) returns (r: Result<OptimisticTransactionDB, Error>)
      ensures r.Success? <==> NUL !in path && engine.Success? && engine.value != NULL
      ensures NUL in path ==> r == Failure(Error(PathConversionError))
      ensures NUL !in path && engine.Failure? ==> r == Failure(engine.error)
      ensures NUL !in path && engine.Success? && engine.value == NULL ==> r == Failure(Error(InitError))
      ensures r.Success? ==> fresh(r.value) && r.value.inner == engine.value && r.value.cfs == map[]
    {
      var cpath := ToCPath(path);
      if cpath.Failure? {
        return Failure(cpath.error);
      }
      if engine.Failure? {
        return Failure(engine.error);
      }
      if engine.value == NULL {
        return Failure(Error(InitError));
      }
      var db := new OptimisticTransactionDB(engine.value, map[]);
      return Success(db);
    }

    /** `open_cf`: the registry `OpenOutcome` describes, or the first error met. */
    static method OpenCf(path: string, cfs: seq<string>, engine: Result<OpenReply, Error>)
      returns (r: Result<OptimisticTransactionDB, Error>)
      requires OpenRequires(path, cfs, engine)
      ensures r.Success? <==> OpenOutcome(path, cfs, engine).Success?
      ensures r.Failure? ==> r.error == OpenOutcome(path, cfs, engine).error
      ensures r.Success? ==> fresh(r.value)
      ensures r.Success? ==> (r.value.inner, r.value.cfs) == OpenOutcome(path, cfs, engine).value
    {
      var outcome := OpenWithFamilies(path, cfs, engine);
      if outcome.Failure? {
        return Failure(outcome.error);
      }
      var db := new OptimisticTransactionDB(outcome.value.0, outcome.value.1);
      return Success(db);
    }

    /**
     * `create_cf`: the name goes through `to_cpath` first; an engine error is
     * passed on; otherwise the handle is registered under `name` and
     * returned, every other entry unchanged.
     */
    method CreateCf(name: string, engine: Result<Ptr, Error>) returns (r: Result<ColumnFamily, Error>)
      modifies this
      ensures NUL in name ==> r == Failure(Error(PathConversionError)) && cfs == old(cfs)
      ensures NUL !in name && engine.Failure? ==> r == Failure(engine.error) && cfs == old(cfs)
      ensures NUL !in name && engine.Success? ==>
        r == Success(ColumnFamily(engine.value)) && cfs == old(cfs)[name := ColumnFamily(engine.value)]
      ensures r.Success? ==> CfHandle(name) == Some(r.value)
    {
      var cname := ToCPath(name);
      if cname.Failure? {
        return Failure(cname.error);
      }
      if engine.Failure? {
        return Failure(engine.error);
      }
      var cf := ColumnFamily(engine.value);
      cfs := cfs[name := cf];
      return Success(cf);
    }

    /** `cf_handle`: the registered handle, or nothing for an unknown name. */
    function CfHandle(name: string): (h: Option<ColumnFamily>)
      reads this
      ensures h.Some? <==> name in cfs
      ensures h.Some? ==> h.value == cfs[name]
    {
      if name in cfs then Some(cfs[name]) else None
    }

    /**
     * `drop_cf`: an unknown name is an error. A known name is dropped in the
     * engine but NOT removed from the registry: `cf_handle` still returns
     * its handle afterwards, whatever the engine replied.
     */
    method DropCf(name: string, engine: Result<(), Error>) returns (r: Result<(), Error>)
      modifies this
      ensures cfs == old(cfs)
      ensures name !in cfs ==> r == Failure(InvalidFamilyError(name))
      ensures name in cfs ==> r == engine && CfHandle(name) == Some(cfs[name])
    {
      if name in cfs {
        return engine;
      }
      return Failure(InvalidFamilyError(name));
    }
  }

  /**
   * The registry part of the test that reopens a store with families "cf1"
   * and "cf2": when the engine opens both, both handles can be looked up, and
   * so can "default".
   */
  method ReopenWithTwoFamilies(path: string, engine: Result<OpenReply, Error>)
    returns (db: Result<OptimisticTransactionDB, Error>)
    requires NUL !in path
    requires engine.Success? ==> |engine.value.cfHandles| == 3
    ensures db.Success? ==> db.value.CfHandle("cf1").Some? && db.value.CfHandle("cf2").Some?
    ensures db.Success? ==> db.value.CfHandle(DefaultFamily).Some?
  {
    assert PrepareCfNames(["cf1", "cf2"]) == ["cf1", "cf2", DefaultFamily];
    db := OptimisticTransactionDB.OpenCf(path, ["cf1", "cf2"], engine);
    if db.Success? {
      OpenRegistryContents(path, ["cf1", "cf2"], engine);
    }
  }
}
