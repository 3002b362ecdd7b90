/** The usage buffer: a bounded queue, a batching consumer that retries, and a
    synchronous write when the queue is full or closing. */
module UsageBuffer {

  function Flatten<R>(batches: seq<seq<R>>): seq<R> {
    if batches == [] then [] else Flatten(batches[..|batches| - 1]) + batches[|batches| - 1]
  }

  lemma FlattenSnoc<R>(batches: seq<seq<R>>, b: seq<R>)
    ensures Flatten(batches + [b]) == Flatten(batches) + b
  {
    assert (batches + [b])[..|batches|] == batches;
  }

  /** Persists a batch whole or not at all. It fails as often as it likes, but only
      `failures` more times. */
  class Writer<R> {
    var stored: seq<seq<R>>
    var failures: nat

    constructor (failures: nat)
      ensures stored == [] && this.failures == failures
    {
      stored, this.failures := [], failures;
    }

    method WriteBatch(records: seq<R>) returns (ok: bool)
      modifies this
      ensures ok ==> stored == old(stored) + [records] && failures == old(failures)
      ensures !ok ==> stored == old(stored) && failures < old(failures)
    {
      var fail: bool := *;
      if fail && failures > 0 {
        failures := failures - 1;
        return false;
      }
      stored := stored + [records];
      return true;
    }
  }

  class Buffer<R> {
    const writer: Writer<R>
    const capacity: nat
    const batchSize: nat
    var queue: seq<R>
    var closed: bool
    var lost: seq<R>

    ghost predicate Valid()
      reads this
    {
      0 < capacity && 0 < batchSize && |queue| <= capacity
    }

    constructor (writer: Writer<R>, capacity: int, batchSize: int)
      ensures Valid() && this.writer == writer && queue == [] && lost == [] && !closed
      ensures this.capacity == if capacity <= 0 then 10000 else capacity
      ensures this.batchSize == if batchSize <= 0 then 500 else batchSize
    {
      this.writer := writer;
      this.capacity := if capacity <= 0 then 10000 else capacity;
      this.batchSize := if batchSize <= 0 then 500 else batchSize;
      queue, closed, lost := [], false, [];
    }

    /** A record that is accepted is either queued or already stored; one that is
        refused was tried to be stored. */
    method Add(record: R) returns (ok: bool)
      requires Valid()
      modifies this`queue, writer
      ensures Valid()
      ensures !old(closed) && |old(queue)| < capacity ==>
        ok && queue == old(queue) + [record] && writer.stored == old(writer.stored)
      ensures old(closed) || |old(queue)| == capacity ==>
        && queue == old(queue)
        && writer.stored == old(writer.stored) + (if ok then [[record]] else [])
      ensures writer.failures <= old(writer.failures) && (!ok ==> writer.failures < old(writer.failures))
    {
      if closed {
        ok := writer.WriteBatch([record]);
        return;
      }
      if |queue| < capacity {
        queue := queue + [record];
        return true;
      }
      ok := writer.WriteBatch([record]);
    }

    /** Retries until the batch is stored, or until a retry finds the buffer's
        context cancelled and the last attempt fails as well. */
    method Flush(batch: seq<R>, cancellable: bool) returns (rest: seq<R>)
      modifies this`lost, writer
      ensures rest == []
      ensures writer.failures <= old(writer.failures)
      ensures
        || (writer.stored == old(writer.stored) + (if batch == [] then [] else [batch]) && lost == old(lost))
        || (cancellable && writer.stored == old(writer.stored) && lost == old(lost) + batch
            && writer.failures + 2 <= old(writer.failures))
    {
      if batch == [] {
        return batch;
      }
      while true
        invariant writer.stored == old(writer.stored) && lost == old(lost)
        invariant writer.failures <= old(writer.failures)
        decreases writer.failures
      {
        var ok := writer.WriteBatch(batch);
        if ok {
          return [];
        }
        var cancelled: bool := *;
        if cancellable && cancelled {
          rest := LastAttempt(batch);
          return;
        }
      }
    }

    method LastAttempt(batch: seq<R>) returns (rest: seq<R>)
      modifies this`lost, writer
      ensures rest == []
      ensures writer.failures <= old(writer.failures)
      ensures
        || (writer.stored == old(writer.stored) + [batch] && lost == old(lost))
        || (writer.stored == old(writer.stored) && lost == old(lost) + batch && writer.failures < old(writer.failures))
    {
      var ok := writer.WriteBatch(batch);
      if !ok {
        lost := lost + batch;
      }
      return [];
    }

    /** At shutdown, while nobody adds: it ends, everything queued is stored in
        order, in batches within the bound, and nothing is lost. */
    method DrainAndFlush(batch: seq<R>)
      requires Valid() && |batch| < batchSize
      modifies this`queue, this`lost, writer
      ensures queue == [] && lost == old(lost)
      ensures Flatten(writer.stored) == Flatten(old(writer.stored)) + batch + old(queue)
      ensures |old(writer.stored)| <= |writer.stored|
      ensures forall i :: |old(writer.stored)| <= i < |writer.stored| ==> 0 < |writer.stored[i]| <= batchSize
      ensures writer.stored[..|old(writer.stored)|] == old(writer.stored)
    {
      var held := batch;
      while queue != []
        invariant |held| < batchSize && lost == old(lost)
        invariant Flatten(writer.stored) + held + queue == Flatten(old(writer.stored)) + batch + old(queue)
        invariant |old(writer.stored)| <= |writer.stored|
        invariant writer.stored[..|old(writer.stored)|] == old(writer.stored)
        invariant forall i :: |old(writer.stored)| <= i < |writer.stored| ==> 0 < |writer.stored[i]| <= batchSize
        decreases |queue|
      {
        assert queue == [queue[0]] + queue[1..];
        assert held + queue == held + [queue[0]] + queue[1..];
        held := held + [queue[0]];
        queue := queue[1..];
        if |held| >= batchSize {
          FlattenSnoc(writer.stored, held);
          held := Flush(held, false);
        }
      }
      if |held| > 0 {
        FlattenSnoc(writer.stored, held);
        var _ := Flush(held, false);
      }
    }

    method Close()
      requires Valid()
      modifies this`closed
      ensures closed
    {
      closed := true;
    }
  }
}
