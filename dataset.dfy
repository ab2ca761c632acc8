/**
 * The per-device dataset file, seen abstractly: absent, present but not readable
 * as an array of records, or an array of records in append order.
 */
module Dataset {
  import opened Records

  /**
   * `Unparsable` covers every stored text whose parse fails or does not yield an
   * array (an array's `push` is then not available either).
   */
  datatype Storage = Missing | Unparsable | Array(records: seq<Record>)

  /** The dataset as it stands after a reset: an empty array. */
  const Empty: Storage := Array([])

  /**
   * The file after one store of `rec`. The read-modify-rewrite succeeds when the
   * file holds an array and both the read and the rewrite of the extended array go
   * through (`rewriteOk`; false stands for a failure of either); every other path
   * ends in the fallback, which writes the one-element array.
   */
  function AfterStore(file: Storage, rec: Record, rewriteOk: bool): (r: Storage)
    ensures r.Array? && |r.records| >= 1 && r.records[|r.records| - 1] == rec
    ensures file.Array? && rewriteOk ==> r.records[..|r.records| - 1] == file.records
    ensures !(file.Array? && rewriteOk) ==> |r.records| == 1
  {
    match file
    case Array(existing) =>
      var extended := existing + [rec];
      if rewriteOk then Array(extended) else Array([rec])
    case _ => Array([rec])
  }

  /** The file after one successful store per record of `recs`, in order (one per tick). */
  function StoreAll(file: Storage, recs: seq<Record>): Storage
    decreases |recs|
  {
    if recs == [] then file
    else AfterStore(StoreAll(file, recs[..|recs| - 1]), recs[|recs| - 1], true)
  }

  /** Storing onto an array keeps its records, in order, and adds `recs` after them in tick order. */
  lemma {:induction false} StoreAllAppends(existing: seq<Record>, recs: seq<Record>)
    ensures StoreAll(Array(existing), recs) == Array(existing + recs)
    decreases |recs|
  {
    if recs != [] {
      var init := recs[..|recs| - 1];
      StoreAllAppends(existing, init);
      assert existing + init + [recs[|recs| - 1]] == existing + recs;
    }
  }

  /** n stores after a reset leave exactly those n records, in tick order. */
  lemma StoreAllFromEmpty(recs: seq<Record>)
    ensures StoreAll(Empty, recs) == Array(recs)
  {
    StoreAllAppends([], recs);
    assert [] + recs == recs;
  }

  /**
   * A missing or unparsable file is discarded by the first store; the records of
   * the following stores are the only content afterwards.
   */
  lemma {:induction false} StoreAllAfterFailure(file: Storage, recs: seq<Record>)
    requires !file.Array? && recs != []
    ensures StoreAll(file, recs) == Array(recs)
    decreases |recs|
  {
    var init := recs[..|recs| - 1];
    if init == [] {
      assert recs == [recs[0]];
    } else {
      StoreAllAfterFailure(file, init);
      assert init + [recs[|recs| - 1]] == recs;
    }
  }

  /** A store right after a reset yields exactly the one record, whether or not its rewrite succeeds. */
  lemma ResetThenStore(rec: Record, rewriteOk: bool)
    ensures AfterStore(Empty, rec, rewriteOk) == Array([rec])
  {
  }
}
