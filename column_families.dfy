/**
 * The part of opening a database with column families that src/db.rs
 * (`DB::open_cf`) and src/optimistic_txn_db.rs
 * (`OptimisticTransactionDB::open_cf`) share line for line: preparing the
 * list of family names to open, and turning the handles the engine filled in
 * into the name-to-handle registry.
 */
module ColumnFamilies {
  import opened Wrappers
  import opened Handles
  import opened Utils

  const DefaultFamily: string := "default"

  const NullHandleError: string := "Received null column family handle from DB."

  const InitError: string := "Could not initialize database."

  /** What `drop_cf` reports for a name that is not registered. */
  function InvalidFamilyError(name: string): Error {
    Error("Invalid column family: " + name)
  }

  predicate NoNulNames(names: seq<string>) {
    forall i :: 0 <= i < |names| ==> NUL !in names[i]
  }

  /**
   * What `open_cf` demands of its caller and of the engine: every family
   * name must convert to a C string (it is unwrapped, so a NUL panics), and
   * the engine fills exactly one handle per name it was given. Both matter
   * only once the path has converted and the list is not empty.
   */
  predicate OpenRequires(path: string, cfs: seq<string>, engine: Result<OpenReply, Error>) {
    NUL !in path && cfs != [] ==>
      && NoNulNames(cfs)
      && (engine.Success? ==> |engine.value.cfHandles| == |PrepareCfNames(cfs)|)
  }

  /** `cfs_v`: the requested names, with "default" appended when it is missing. */
  function PrepareCfNames(cfs: seq<string>): (names: seq<string>)
    ensures DefaultFamily in names
    ensures (set n | n in names) == (set n | n in cfs) + {DefaultFamily}
    ensures |cfs| <= |names| && names[..|cfs|] == cfs
    ensures DefaultFamily in cfs ==> names == cfs
    ensures DefaultFamily !in cfs ==> names == cfs + [DefaultFamily]
  {
    if DefaultFamily in cfs then cfs else cfs + [DefaultFamily]
  }

  /**
   * The registry that inserting `names[i] -> handles[i]` in order into an
   * empty map produces; a name listed twice keeps its later handle.
   */
  function ZipMap(names: seq<string>, handles: seq<Ptr>): (m: map<string, ColumnFamily>)
    requires |names| == |handles|
    ensures m.Keys == (set n | n in names)
  {
    if names == [] then map[]
    else
      var k := |names| - 1;
      ZipMap(names[..k], handles[..k])[names[k] := ColumnFamily(handles[k])]
  }

  /** Every name is registered with the handle of its last occurrence in the list. */
  lemma {:induction false} ZipMapLastWins(names: seq<string>, handles: seq<Ptr>, i: nat)
    requires |names| == |handles| && i < |names|
    requires forall j :: i < j < |names| ==> names[j] != names[i]
    ensures ZipMap(names, handles)[names[i]] == ColumnFamily(handles[i])
  {
    var k := |names| - 1;
    if i < k {
      ZipMapLastWins(names[..k], handles[..k], i);
    }
  }

  /**
   * The two loops of `open_cf` after the engine call: the first rejects the
   * open as soon as any returned handle is null, so that nothing is
   * registered; the second inserts every name with its handle.
   */
  method RegisterHandles(names: seq<string>, handles: seq<Ptr>)
    returns (r: Result<map<string, ColumnFamily>, Error>)
    requires |names| == |handles|
    ensures r.Failure? <==> NULL in handles
    ensures r.Failure? ==> r.error == Error(NullHandleError)
    ensures r.Success? ==> r.value == ZipMap(names, handles)
    ensures r.Success? ==> r.value.Keys == (set n | n in names)
  {
    var i := 0;
    while i < |handles|
      invariant 0 <= i <= |handles|
      invariant NULL !in handles[..i]
    {
      if handles[i] == NULL {
        return Failure(Error(NullHandleError));
      }
      i := i + 1;
    }
    assert handles[..i] == handles;
    var cfMap: map<string, ColumnFamily> := map[];
    i := 0;
    while i < |names|
      invariant 0 <= i <= |names|
      invariant cfMap == ZipMap(names[..i], handles[..i])
    {
      assert names[..i + 1][..i] == names[..i] && handles[..i + 1][..i] == handles[..i];
      cfMap := cfMap[names[i] := ColumnFamily(handles[i])];
      i := i + 1;
    }
    assert names[..i] == names && handles[..i] == handles;
    return Success(cfMap);
  }

  /**
   * The outcome of `open_cf`, check by check: the path conversion, the
   * engine's own error, the null-handle check (non-empty list only), the
   * null database check, and on success the database pointer with its
   * registry (empty for an empty list).
   */
  function OpenOutcome(path: string, cfs: seq<string>, engine: Result<OpenReply, Error>)
    : Result<(Ptr, map<string, ColumnFamily>), Error>
    requires OpenRequires(path, cfs, engine)
  {
    if NUL in path then Failure(Error(PathConversionError))
    else if engine.Failure? then Failure(engine.error)
    else if cfs != [] && NULL in engine.value.cfHandles then Failure(Error(NullHandleError))
    else if engine.value.db == NULL then Failure(Error(InitError))
    else if cfs == [] then Success((engine.value.db, map[]))
    else Success((engine.value.db, ZipMap(PrepareCfNames(cfs), engine.value.cfHandles)))
  }

  /**
   * `open_cf` after the directory is created: converts the path, lets the
   * engine open the database (with the prepared family list when one was
   * given), and builds the registry from the returned handles.
   */
  method OpenWithFamilies(path: string, cfs: seq<string>, engine: Result<OpenReply, Error>)
    returns (r: Result<(Ptr, map<string, ColumnFamily>), Error>)
    requires OpenRequires(path, cfs, engine)
    ensures r == OpenOutcome(path, cfs, engine)
  {
    var cpath := ToCPath(path);
    if cpath.Failure? {
      return Failure(cpath.error);
    }
    if engine.Failure? {
      return Failure(engine.error);
    }
    var db := engine.value.db;
    var cfMap: map<string, ColumnFamily> := map[];
    if cfs != [] {
      var cfsV := PrepareCfNames(cfs);
      var registered := RegisterHandles(cfsV, engine.value.cfHandles);
      if registered.Failure? {
        return Failure(registered.error);
      }
      cfMap := registered.value;
    }
    if db == NULL {
      return Failure(Error(InitError));
    }
    return Success((db, cfMap));
  }

  /**
   * The registry an open produces: empty for an empty list; otherwise exactly
   * the listed names and "default". Any null handle fails the open with the
   * null-handle error, and no registry exists.
   */
  lemma OpenRegistryContents(path: string, cfs: seq<string>, engine: Result<OpenReply, Error>)
    requires OpenRequires(path, cfs, engine)
    ensures OpenOutcome(path, cfs, engine).Success? && cfs == [] ==> OpenOutcome(path, cfs, engine).value.1 == map[]
    ensures OpenOutcome(path, cfs, engine).Success? && cfs != [] ==>
      OpenOutcome(path, cfs, engine).value.1.Keys == (set n | n in cfs) + {DefaultFamily}
    ensures NUL !in path && engine.Success? && cfs != [] && NULL in engine.value.cfHandles ==>
      OpenOutcome(path, cfs, engine) == Failure(Error(NullHandleError))
    ensures OpenOutcome(path, cfs, engine).Success? <==>
      NUL !in path && engine.Success? && engine.value.db != NULL && (cfs != [] ==> NULL !in engine.value.cfHandles)
  {
  }

  /** Each requested family is registered with the handle the engine returned at the position of the name's last occurrence in the list. */
  lemma OpenRegistersEachHandle(path: string, cfs: seq<string>, engine: Result<OpenReply, Error>, i: nat)
    requires OpenRequires(path, cfs, engine)
    requires OpenOutcome(path, cfs, engine).Success? && cfs != []
    requires i < |cfs| && forall j :: i < j < |cfs| ==> cfs[j] != cfs[i]
    ensures OpenOutcome(path, cfs, engine).value.1[cfs[i]] == ColumnFamily(engine.value.cfHandles[i])
  {
    var names := PrepareCfNames(cfs);
    assert forall j :: i < j < |names| ==> names[j] != names[i] by {
      forall j | i < j < |names|
        ensures names[j] != names[i]
      {
        if j >= |cfs| {
          assert names[j] == DefaultFamily && DefaultFamily !in cfs;
        }
      }
    }
    ZipMapLastWins(names, engine.value.cfHandles, i);
  }
}
