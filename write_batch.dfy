/**
 * `WriteBatch` of src/db.rs: an ordered log of staged operations that the
 * engine later applies in one atomic write. Staging never fails (each call
 * returns `Ok(())`) and appends exactly one operation; `len` is the number
 * of staged operations.
 */
module WriteBatches {
  import opened Wrappers
  import opened Handles
  import opened ByteKeys

  /** One staged operation; `cf == None` targets the default family. */
  datatype BatchOp =
    | Put(cf: Option<ColumnFamily>, key: Key, value: Value)
    | Merge(cf: Option<ColumnFamily>, key: Key, value: Value)
    | Delete(cf: Option<ColumnFamily>, key: Key)

  class WriteBatch {
    var ops: seq<BatchOp>

    /** `WriteBatch::default`: a new, empty batch. */
    constructor ()
      ensures ops == [] && Len() == 0 && IsEmpty()
    {
      ops := [];
    }

    /** `len`: how many operations are staged. */
    function Len(): (n: nat)
      reads this
      ensures n == |ops|
    {
      |ops|
    }

    /** `is_empty`: `len() == 0`, which holds exactly when nothing is staged. */
    predicate IsEmpty()
      reads this
      ensures IsEmpty() <==> Len() == 0
      ensures IsEmpty() <==> ops == []
    {
      Len() == 0
    }

    method Put(key: Key, value: Value)
      modifies this
      ensures ops == old(ops) + [BatchOp.Put(None, key, value)]
      ensures Len() == old(Len()) + 1 && !IsEmpty()
    {
      ops := ops + [BatchOp.Put(None, key, value)];
    }

    method PutCf(cf: ColumnFamily, key: Key, value: Value)
      modifies this
      ensures ops == old(ops) + [BatchOp.Put(Some(cf), key, value)]
      ensures Len() == old(Len()) + 1 && !IsEmpty()
    {
      ops := ops + [BatchOp.Put(Some(cf), key, value)];
    }

    method Merge(key: Key, value: Value)
      modifies this
      ensures ops == old(ops) + [BatchOp.Merge(None, key, value)]
      ensures Len() == old(Len()) + 1 && !IsEmpty()
    {
      ops := ops + [BatchOp.Merge(None, key, value)];
    }

    method MergeCf(cf: ColumnFamily, key: Key, value: Value)
      modifies this
      ensures ops == old(ops) + [BatchOp.Merge(Some(cf), key, value)]
      ensures Len() == old(Len()) + 1 && !IsEmpty()
    {
      ops := ops + [BatchOp.Merge(Some(cf), key, value)];
    }

    method Delete(key: Key)
      modifies this
      ensures ops == old(ops) + [BatchOp.Delete(None, key)]
      ensures Len() == old(Len()) + 1 && !IsEmpty()
    {
      ops := ops + [BatchOp.Delete(None, key)];
    }

    method DeleteCf(cf: ColumnFamily, key: Key)
      modifies this
      ensures ops == old(ops) + [BatchOp.Delete(Some(cf), key)]
      ensures Len() == old(Len()) + 1 && !IsEmpty()
    {
      ops := ops + [BatchOp.Delete(Some(cf), key)];
    }
  }
}
