/** The surroundings of the importer: the context that ends once, and the faults of the store. */
module World {
  import R = Rows

  datatype StoreError = Stored | MetaRecord | Rows

  /** What can fail: reading and writing the meta record or rows, and opening a store. */
  datatype Operation = ReadMeta | WriteMeta | ReadRows | WriteRows | Opening

  /** An entry in the history of a store: a day block was stored, storing it on its own failed, or the
      store could not be opened. */
  datatype Attempt = Done(point: string, energy: R.Energy) | Refused(point: string, energy: R.Energy, error: StoreError) | Unopened

  class Context {
    var ended: bool            // the dispatcher closes; never taken back
    var faults: nat            // store operations that failed so far
    ghost var last: Operation  // the one that failed last

    constructor ()
      ensures !ended && faults == 0
    {
      ended, faults := false, 0;
    }

    /** ctx.Err() != nil: the context may have ended at any moment before. */
    method Ended() returns (r: bool)
      modifies this`ended
      ensures r == ended && (old(ended) ==> ended)
    {
      if * {
        ended := true;
      }
      r := ended;
    }

    /** A read or write of the store fails or not. */
    method Fails(ghost op: Operation) returns (r: bool)
      modifies this
      ensures (old(ended) ==> ended)
      ensures faults == old(faults) + if r then 1 else 0
      ensures last == if r then op else old(last)
    {
      r := *;
      if * {
        ended := true;
      }
      if r {
        faults, last := faults + 1, op;
      }
    }
  }
}
