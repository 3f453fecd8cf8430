/** The part of `asyncio.Queue` the scraper uses: an unbounded FIFO of batches
    and the counter of unfinished tasks that `join` waits on. */
module AsyncQueue {
  import opened Json

  class Queue {
    /** The batches waiting to be taken, oldest first. */
    var batches: seq<Json>
    /** Items put and not yet marked done with `task_done`. */
    var unfinished: nat

    constructor ()
      ensures batches == [] && unfinished == 0
    {
      batches := [];
      unfinished := 0;
    }

    method Empty() returns (empty: bool)
      ensures empty <==> batches == []
    {
      empty := batches == [];
    }

    method Put(batch: Json)
      modifies this
      ensures batches == old(batches) + [batch]
      ensures unfinished == old(unfinished) + 1
    {
      batches := batches + [batch];
      unfinished := unfinished + 1;
    }

    /** Takes the oldest batch. The counter is untouched: only `task_done`
        lowers it. */
    method Get() returns (batch: Json)
      requires batches != []
      modifies this
      ensures batch == old(batches)[0]
      ensures batches == old(batches)[1..]
      ensures unfinished == old(unfinished)
    {
      batch := batches[0];
      batches := batches[1..];
    }

    /** `task_done`: lowers the counter, or fails (Python's ValueError) when
        there is no unfinished task. */
    method TaskDone() returns (ok: bool)
      modifies this
      ensures ok <==> old(unfinished) > 0
      ensures batches == old(batches)
      ensures unfinished == if ok then old(unfinished) - 1 else old(unfinished)
    {
      ok := unfinished > 0;
      if ok {
        unfinished := unfinished - 1;
      }
    }

    /** `join` returns at once exactly when no task is unfinished; otherwise it
        waits for a `task_done` that, in a program with a single task, never
        comes. */
    method Join() returns (returned: bool)
      ensures returned <==> unfinished == 0
    {
      returned := unfinished == 0;
    }
  }
}
