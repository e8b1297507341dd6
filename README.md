# exonum_rocksdb wrapper core, modelled in Dafny

The crate wraps the RocksDB C library. Most of it forwards calls to the
engine. This model covers the logic the wrapper owns itself:

- **The directional iterator** (`DBIterator`, src/db.rs). It holds a raw
  engine cursor, a travel direction and a "just seeked" flag. The first
  `next` after a positioning call yields the entry the cursor landed on.
  Every later `next` makes exactly one raw step.
- **The raw cursor** (`DBRawIterator`). It is modelled abstractly from its
  documentation. The key space is a strictly increasing sequence of byte
  strings, in unsigned lexicographic order, with their values. The cursor is
  either on one entry or invalid.
- **The column-family registry** of `DB` (src/db.rs) and of
  `OptimisticTransactionDB` (src/optimistic_txn_db.rs). Each is a name to
  handle map. It is built at open time and changed by `create_cf`.
  `DB::drop_cf` removes an entry. `OptimisticTransactionDB::drop_cf` leaves
  the registry as it is.
- **The write batch.** It is an ordered log of staged put, merge and delete
  operations. `len` is the number of staged operations.
- **`to_cpath` and `get_cf_names`** (src/utils.rs). A path converts to a C
  string exactly when it has no NUL.

Engine calls are replaced by parameters that carry the engine's reply: an
error message, a database pointer, a list of family handles. A raw pointer is
a `nat`, and 0 is the null pointer. The crate's `Error` and `ColumnFamily`
types come from src/lib.rs, which is not part of this model. They are
rebuilt from their uses (module `Handles`).

Files:
- `wrappers.dfy`: Option and Result.
- `handles.dfy`: pointers, errors, column-family handles, the engine's open reply.
- `byte_keys.dfy`: bytes, keys and the lexicographic order.
- `utils.dfy`: src/utils.rs.
- `iterators.dfy`: the raw cursor and the directional iterator.
- `column_families.dfy`: the open logic that both database types share line for line.
- `db.dfy`: `DB`.
- `write_batch.dfy`: `WriteBatch`.
- `optimistic_txn_db.dfy`: `OptimisticTransactionDB`.

How the iterator is proved: `SetModeState`, `NextState` and `Yield` state the
iterator's state machine as functions. `Collect` is everything that repeated
`next` calls yield before the first `None`. The class methods are proved
against these functions. The lemmas then compute `Collect` for every mode.

## Model

| member | source | states |
|---|---|---|
| Utils.ToCPath | src/utils.rs:25-35 | Conversion succeeds iff the path has no NUL. On success the C string's content equals the path. On failure the error is exactly "Failed to convert path to CString when opening DB." |
| Utils.ToCPathRoundTrip | src/utils.rs:25-27 | Conversion succeeds iff a C reader, reading the NUL-terminated buffer, gets back exactly the path. A path with a NUL would otherwise be silently truncated. |
| Utils.GetCfNames | src/utils.rs:37-58 | A path with a NUL returns `to_cpath`'s error whatever the engine would reply, so the engine is never consulted. Otherwise the engine's listing or error is returned unchanged. |
| Iterators.LowerBound | src/db.rs:333-336 | Returns the index of the first key not below the target, or the number of keys if there is none. Every key before that index is below the target. |
| Iterators.LowerBoundSplits | src/db.rs:333-336 | In a sorted key space, every key from the lower bound onwards is at or above the target. |
| Iterators.SeekLandsOnFirstAtLeast | src/db.rs:333-336 | `seek` makes the cursor valid iff some key is at or above the target. It then lands on the first such key: every earlier key is below the target, every later key is at or above it. |
| Iterators.SeekExactOrNext | src/db.rs:333-336 | In a sorted key space, `seek` to a key that is present lands on that key. `seek` to an absent key that has a successor lands on a key above the target. |
| Iterators.RawIterator.constructor | src/db.rs:226-228 | A new raw cursor walks the given key space and is not valid until it is seeked. |
| Iterators.RawIterator.IsValid | src/db.rs:242-245 | `valid` holds iff the cursor is on an entry of the key space. |
| Iterators.RawIterator.SeekToFirst | src/db.rs:247-288 | Lands on the smallest key. The cursor is valid iff the key space is non-empty. |
| Iterators.RawIterator.SeekToLast | src/db.rs:290-331 | Lands on the largest key. The cursor is valid iff the key space is non-empty. |
| Iterators.RawIterator.Seek | src/db.rs:333-371 | Lands on the first key at or above the target. If every key is below the target, the cursor becomes invalid. |
| Iterators.RawIterator.Next | src/db.rs:411-418 | Moves one entry forward. Past the last entry the cursor becomes invalid. |
| Iterators.RawIterator.Prev | src/db.rs:420-427 | Moves one entry back. Before the first entry the cursor becomes invalid. |
| Iterators.RawIterator.Key | src/db.rs:429-451 | Returns `None` exactly when the cursor is not valid. Otherwise returns the key at the cursor. |
| Iterators.RawIterator.Value | src/db.rs:453-475 | Returns `None` exactly when the cursor is not valid. Otherwise returns the value at the cursor. |
| Iterators.DBIterator.constructor | src/db.rs:487-495 | A new iterator over the key space, left in the state `set_mode(mode)` produces. |
| Iterators.DBIterator.SetMode | src/db.rs:512-530 | `Start` means first key and Forward. `End` means last key and Reverse. `From(k, dir)` seeks to the first key at or above `k` even when `dir` is Reverse, then takes direction `dir`. Every mode raises `just_seeked`. |
| Iterators.DBIterator.IsValid | src/db.rs:532-534 | Valid iff the raw cursor is on an entry. |
| Iterators.DBIterator.Next | src/db.rs:540-561 | With `just_seeked` set, the cursor does not move and the flag is cleared. Otherwise the cursor makes exactly one raw `next` (Forward) or `prev` (Reverse). The result is the entry under the cursor, and it is `Some` iff the cursor is valid. |
| Iterators.CollectForward | src/db.rs:540-561 | From a forward state on entry `i`, the items yielded are the entries from `i` on if the flag is set, and from `i + 1` on if it is not. |
| Iterators.CollectReverse | src/db.rs:540-561 | From a reverse state on entry `i`, the items yielded are entries `i` down to 0 if the flag is set, and `i - 1` down to 0 if it is not. |
| Iterators.IterateFromStart | src/db.rs:185-188 | From `Start`, every entry is yielded exactly once, in strictly increasing key order. The count equals the number of keys. |
| Iterators.IterateFromEnd | src/db.rs:189-192 | From `End`, every entry is yielded exactly once, in strictly decreasing key order. |
| Iterators.IterateFromKeyForward | src/db.rs:193-196 | From `From(k, Forward)`, the first item is the first key at or above `k`, followed by every later entry. No yielded key is below `k`. |
| Iterators.IterateFromKeyReverse | src/db.rs:522-526 | From `From(k, Reverse)`, the items are the first key at or above `k` and every entry before it, in decreasing order. If every key is below `k`, nothing is yielded. |
| Iterators.Drain | src/db.rs:185-196 | A `for` loop over the iterator gathers exactly `Collect` of its starting state, and the loop terminates. |
| Iterators.IterateAll | src/db.rs:1394-1401 | A fresh iterator from `Start`, drained, yields every entry in key order. From `End` it yields every entry in strictly decreasing key order. |
| ColumnFamilies.PrepareCfNames | src/db.rs:681-685 | The names to open are the requested list followed by "default" if it was absent. The list is unchanged if "default" was present. The set of names is the requested set plus "default". |
| ColumnFamilies.ZipMap | src/db.rs:726-731 | Inserting each name with its handle, in order, registers exactly the listed names. |
| ColumnFamilies.ZipMapLastWins | src/db.rs:726-731 | A name is registered with the handle of its last occurrence in the list. |
| ColumnFamilies.RegisterHandles | src/db.rs:716-731 | Fails iff some returned handle is null, with "Received null column family handle from DB.", and then nothing is registered. Otherwise the registry maps the listed names, and only them, to their handles. |
| ColumnFamilies.OpenWithFamilies | src/db.rs:654-743 | Open proceeds check by check: path conversion, then the engine's error, then null handles (non-empty list only), then "Could not initialize database." for a null database. On success it returns the database pointer and the registry. |
| ColumnFamilies.OpenRegistryContents | src/db.rs:676-736 | An empty list gives an empty registry. A non-empty list gives a registry whose names are exactly the list plus "default". Any null handle fails the open with the null-handle error. The open succeeds iff every check passes. |
| ColumnFamilies.OpenRegistersEachHandle | src/optimistic_txn_db.rs:117-119 | Each requested family is registered with the handle the engine returned at the position of that name's last occurrence in the list. |
| Db.DB.OpenCf | src/db.rs:654-743 | On success, a new database with the registry described above. Otherwise the first error met, and no database. |
| Db.DB.Open | src/db.rs:643-645 | Opening without families gives an empty registry. It fails on a bad path, an engine error or a null database. |
| Db.DB.CreateCf | src/db.rs:855-877 | A name with a NUL fails with "Failed to convert path to CString when opening rocksdb" and changes nothing. An engine error is passed on and changes nothing. Otherwise the handle is registered under the name, replacing any earlier one, and `cf_handle` returns it. Other entries are unchanged. |
| Db.DB.DropCf | src/db.rs:879-890 | An unknown name fails with "Invalid column family: name" and changes nothing. A known name is removed, and only that entry. The engine's reply is returned, and the entry stays removed even when the engine fails. |
| Db.DB.CfHandle | src/db.rs:892-895 | Returns the registered handle, or `None` iff the name is not registered. |
| WriteBatches.WriteBatch.constructor | src/db.rs:1171-1175 | A new batch has `len == 0` and is empty. |
| WriteBatches.WriteBatch.Len | src/db.rs:1081-1083 | `len` is the number of staged operations. |
| WriteBatches.WriteBatch.IsEmpty | src/db.rs:1085-1087 | `is_empty` holds iff `len() == 0`, which is iff nothing is staged. |
| WriteBatches.WriteBatch.Put | src/db.rs:1089-1101 | Appends exactly one put to the log. `len` grows by one and the batch is not empty. |
| WriteBatches.WriteBatch.PutCf | src/db.rs:1103-1115 | Appends exactly one family-scoped put. `len` grows by one. |
| WriteBatches.WriteBatch.Merge | src/db.rs:1117-1128 | Appends exactly one merge. `len` grows by one. |
| WriteBatches.WriteBatch.MergeCf | src/db.rs:1130-1142 | Appends exactly one family-scoped merge. `len` grows by one. |
| WriteBatches.WriteBatch.Delete | src/db.rs:1144-1156 | Appends exactly one delete. `len` grows by one and the batch is not empty. |
| WriteBatches.WriteBatch.DeleteCf | src/db.rs:1158-1168 | Appends exactly one family-scoped delete. `len` grows by one. |
| OptimisticTxnDb.OptimisticTransactionDB.Open | src/optimistic_txn_db.rs:35-56 | Opening gives an empty registry. It fails with `to_cpath`'s error, the engine's error, or "Could not initialize database." for a null database. |
| OptimisticTxnDb.OptimisticTransactionDB.OpenCf | src/optimistic_txn_db.rs:58-133 | The same checks and registry as `DB::open_cf`. An empty list leaves the registry empty. A null handle fails before anything is registered. |
| OptimisticTxnDb.OptimisticTransactionDB.CreateCf | src/optimistic_txn_db.rs:147-160 | A name with a NUL fails through `to_cpath` and changes nothing. An engine error changes nothing. Otherwise name maps to handle, `cf_handle` returns it, and other entries are unchanged. |
| OptimisticTxnDb.OptimisticTransactionDB.CfHandle | src/optimistic_txn_db.rs:162-164 | Returns the registered handle, or `None` iff the name is not registered. |
| OptimisticTxnDb.OptimisticTransactionDB.DropCf | src/optimistic_txn_db.rs:166-177 | An unknown name fails with "Invalid column family: name". The registry never changes: after dropping a known name, `cf_handle` still returns its handle. |
| OptimisticTxnDb.ReopenWithTwoFamilies | test/test_optimistic_txn.rs:67-73 | Reopening with "cf1" and "cf2" succeeds only if both handles, and "default", can be looked up. |

## Behaviour worth knowing

- A caller might expect a dropped family's handle to stop resolving.
  `OptimisticTransactionDB::drop_cf` looks the name up with `get` and never
  removes it (src/optimistic_txn_db.rs:166-177). `cf_handle` keeps returning
  the dropped handle. The model does the same (`OptimisticTransactionDB.DropCf`).
- A caller might expect `create_cf` to refuse a null handle from the engine.
  Neither `create_cf` checks for one (src/db.rs:855-877,
  src/optimistic_txn_db.rs:147-160). They only pass on an engine error.
  Whatever handle the engine returns is registered, null or not. The model
  does the same.
- `DB::drop_cf` removes the entry before it asks the engine to drop the
  family (src/db.rs:879-890). An engine failure therefore leaves the name
  unregistered.
- The doc comment of `WriteBatch::delete` (src/db.rs:1144-1146) says it
  returns an error if the key was not found. The code always returns
  `Ok(())`, and the model follows the code (`WriteBatch.Delete` always
  appends and cannot fail).
- A caller might expect `From(k, Reverse)` to yield only keys at or below
  `k`. The code seeks forward in both directions (src/db.rs:522-526, with a
  TODO at line 523). When `k` is absent, the first item is the next key
  above `k`, followed by every smaller key in decreasing order. When every
  key is below `k`, nothing is yielded. `IterateFromKeyReverse` proves this.
- The crate keeps no transaction state of its own (no active, committed or
  rolled-back flag), so none is modelled.

## Left out

- Engine-call wrappers are not modelled: get, put, delete, merge, write,
  snapshots, compaction, destroy and repair. They only forward to the engine.
  Their meaning (visibility, durability, how a batch is applied) is the
  engine's.
- src/transaction_db/mod.rs, src/transaction_db/transaction.rs and
  transactions in general are not modelled. Conflict detection, locking,
  deadlocks and expiration are engine-internal and concurrent.
- The iterator factories (`iterator`, `iterator_cf`, `raw_iterator`, and
  those on snapshots and transactions) are not modelled. Each one creates a
  cursor over some key space, which the model takes as the `KeySpace`
  parameter. `new_cf` only wraps the cursor in `Ok`.
- The zero-copy accessors `key_inner` and `value_inner` are folded into
  `Key` and `Value`. They return the same bytes. The rule that the borrowed
  view dies at the next move is a lifetime rule, not modelled.
- Stepping an invalid raw cursor is left undefined by the engine. The model
  treats it as a no-op: the cursor stays invalid. This only matters for
  `next` calls after the iterator has returned `None`.
- A new raw cursor is modelled as invalid until it is seeked. The engine
  promises nothing about a new cursor's position.
- `fs::create_dir_all` in `DB::open_cf` is not modelled, nor its "Failed to
  create RocksDB directory" error. The model assumes the directory can be
  created.
- Paths are modelled by their `to_string_lossy` text. Replacing invalid
  UTF-8 is a standard-library conversion and is not modelled. A NUL byte and
  a NUL character are the same thing in UTF-8.
- `get_cf_names` decodes the engine's C-string list. That decoding is not
  modelled: the listing is a parameter passed through unchanged.
- `open_cf` unwraps the C-string conversion of every family name, so a name
  with a NUL panics. The model makes this a precondition (`OpenRequires`).
  It applies only when the path converts and the list is non-empty. Another
  precondition: the engine returns one handle per name.
- `DB::open` calls the engine's open without a family list. The model reuses
  the open reply and ignores its handle list in that case.
- `OptimisticTransactionDB`'s `base_db` pointer is not modelled: it comes
  from a further engine call and only feeds engine calls. Option objects
  passed to open and `create_cf` are not modelled: they are opaque to the
  wrapper.
- The write-batch staging functions always return `Ok(())`. The model's
  staging methods return nothing.
- The `Arc<RwLock<…>>` around `DB`'s registry, `Send` and `Sync`, the
  `Drop` impls, `DBVector` and `to_utf8` are not modelled. They are about
  concurrency, memory or text decoding, not the wrapper's logic.
- `Into<DBRawIterator>` only hands back the inner cursor and is not modelled.
