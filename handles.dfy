/**
 * Native handles and the error type shared by every component.
 *
 * The crate's `Error` and `ColumnFamily` types are declared in src/lib.rs,
 * which is not part of this model; they are reconstructed here from their
 * uses in src/db.rs and src/optimistic_txn_db.rs: an error carries a
 * human-readable message, a column family wraps one raw engine pointer.
 */
module Handles {

  /** A raw pointer returned by the engine; the address 0 is the null pointer. */
  type Ptr = nat

  const NULL: Ptr := 0

  /** `Error::new(message)`: every fallible operation reports one of these. */
  datatype Error = Error(message: string)

  /** A copyable capability naming one column family of an open database. */
  datatype ColumnFamily = ColumnFamily(inner: Ptr)

  /**
   * What the engine hands back from opening a database: the database pointer
   * and, when families were requested, one handle per requested name, in
   * order (a null handle when it could not open that family).
   */
  datatype OpenReply = OpenReply(db: Ptr, cfHandles: seq<Ptr>)
}
