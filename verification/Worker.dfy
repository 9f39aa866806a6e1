/** worker/main.py: one OpenCV task from poll() to commit(). */
module Worker {
  import opened Collections
  import opened JobRecords
  import opened Blobs
  import opened Reconstruction
  import opened Tiling
  import opened Dispatch
  import Consumers

  /** OPERATION_MAP and the image codec. */
  datatype Toolbox = Toolbox(
    operations: map<string, Image -> Image>,
    imencode: Image -> Bytes, imdecode: Bytes -> Option<Image>)

  /**
   How producing a result goes: produce() raises, what flush() returns, whether the callback reports
   an error, and whether a message still queued after the flush reaches the broker later.
   */
  datatype Delivery = Delivery(raises: bool, stillQueued: nat, refused: bool, arrivesLate: bool)

  predicate Acknowledged(d: Delivery) {
    !d.raises && d.stillQueued == 0 && !d.refused
  }

  predicate Arrives(d: Delivery) {
    !d.raises && !d.refused && (d.stillQueued == 0 || d.arrivesLate)
  }

  /** A record on tasks.dlq. */
  datatype Parked = Parked(task: Task, attempt: int, failedBy: string, reason: string, failedAt: real)

  /** The bytes the operation makes of the task's blob; None when the fetch or the decoding raises. */
  function Output(tools: Toolbox, objects: map<string, Bytes>, task: Task): Option<Bytes>
  {
    if task.operation.None? || task.operation.value !in tools.operations || task.blobKey !in objects then None
    else
      var image := DecodeImage(tools.imdecode, objects[task.blobKey]);
      if image.None? then None else Some(tools.imencode(tools.operations[task.operation.value](image.value)))
  }

  function ResultKey(task: Task): string {
    BlobKey(task.job, "result", task.tile)
  }

  function InfoOf(task: Task): TileInfo {
    TileInfo(ResultKey(task), task.x, task.y, task.width, task.height)
  }

  /** Within the retries there is an attempt during which blob store and codec work. */
  predicate SomeAttempt(up: seq<bool>, maxRetries: int) {
    exists i :: 0 <= i <= maxRetries && i < |up| && up[i]
  }

  /** The task has a result to publish. */
  predicate Succeeds(tools: Toolbox, objects: map<string, Bytes>, task: Task, up: seq<bool>, maxRetries: int) {
    Output(tools, objects, task).Some? && SomeAttempt(up, maxRetries)
  }

  /** The blob store after a worker has handled the task. */
  function StoredBy(tools: Toolbox, objects: map<string, Bytes>, task: Task, up: seq<bool>, maxRetries: int): map<string, Bytes> {
    if Succeeds(tools, objects, task, up, maxRetries)
    then objects[ResultKey(task) := Output(tools, objects, task).value] else objects
  }

  /** The results that reach the broker when a worker handles the task. */
  function AnsweredBy(tools: Toolbox, objects: map<string, Bytes>, task: Task, up: seq<bool>, maxRetries: int,
                      delivery: Delivery, seconds: real): seq<Consumers.Message>
  {
    if Succeeds(tools, objects, task, up, maxRetries) && Arrives(delivery)
    then [MessageOf(task, seconds)] else []
  }

  class WorkerNode {
    const workerId: string
    const tools: Toolbox
    var results: seq<Consumers.Message>
    var dlq: seq<Parked>
    var committed: seq<nat>
    var processed: nat
    var failed: nat

    constructor (workerId: string, tools: Toolbox)
      ensures this.workerId == workerId && this.tools == tools
      ensures results == [] && dlq == [] && committed == [] && processed == 0 && failed == 0
    {
      this.workerId, this.tools := workerId, tools;
      results, dlq, committed, processed, failed := [], [], [], 0, 0;
    }

    /** process_tile; up[i] is whether attempt i meets no infrastructure error. */
    method ProcessTile(blobs: BlobStore, task: Task, up: seq<bool>, maxRetries: nat) returns (result: Option<TileInfo>)
      requires task.operation.Some? && |up| == maxRetries + 1
      modifies blobs, this`processed, this`failed
      ensures result == if Succeeds(tools, old(blobs.objects), task, up, maxRetries) then Some(InfoOf(task)) else None
      ensures blobs.objects == if result.Some?
                               then old(blobs.objects)[ResultKey(task) := Output(tools, old(blobs.objects), task).value]
                               else old(blobs.objects)
      ensures result.Some? <==> Output(tools, old(blobs.objects), task).Some? && exists i :: 0 <= i <= maxRetries && up[i]
      ensures processed == old(processed) + (if result.Some? then 1 else 0)
      ensures failed == old(failed) + (if result.Some? then 0 else 1)
    {
      var attempt := 0;
      while attempt <= maxRetries
        invariant attempt <= maxRetries
        invariant blobs.objects == old(blobs.objects) && processed == old(processed) && failed == old(failed)
        invariant forall i :: 0 <= i < attempt ==> !up[i] || Output(tools, blobs.objects, task).None?
        decreases maxRetries - attempt
      {
        if task.operation.value !in tools.operations {
          failed := failed + 1;
          return None;
        }
        var bytes := Output(tools, blobs.objects, task);
        if up[attempt] && bytes.Some? {
          var key := blobs.PutTile(task.job, task.tile, "result", bytes.value);
          processed := processed + 1;
          return Some(TileInfo(key, task.x, task.y, task.width, task.height));
        }
        if attempt == maxRetries {
          failed := failed + 1;
          return None;
        }
        attempt := attempt + 1;
      }
    }

    /** publish_result; a message that is still queued after the flush may yet reach the broker. */
    method PublishResult(m: Consumers.Message, delivery: Delivery) returns (ok: bool)
      modifies this`results
      ensures ok == Acknowledged(delivery)
      ensures results == old(results) + if Arrives(delivery) then [m] else []
    {
      if delivery.raises {
        return false;
      }
      if !delivery.refused && (delivery.stillQueued == 0 || delivery.arrivesLate) {
        results := results + [m];
      }
      if delivery.stillQueued > 0 {
        return false;
      }
      ok := !delivery.refused;
    }

    /**
     send_to_dlq; the task's own attempt number is recorded, 1 for an original dispatch.  The code
     does not look at what flush() returns and passes no callback, so it reports success whenever
     nothing raises, even for a record that never arrives.
     */
    method SendToDlq(task: Task, reason: string, parking: Delivery, now: real) returns (ok: bool)
      modifies this`dlq
      ensures dlq == old(dlq) + if Arrives(parking) then [Parked(task, AttemptOf(task), workerId, reason, now)] else []
      ensures Arrives(parking) ==> dlq[|old(dlq)|].attempt == if task.attempt == None then 1 else task.attempt.value
      ensures ok == !parking.raises
      ensures dlq != old(dlq) ==> ok
    {
      if parking.raises {
        return false;
      }
      if !parking.refused && (parking.stillQueued == 0 || parking.arrivesLate) {
        dlq := dlq + [Parked(task, AttemptOf(task), workerId, reason, now)];
      }
      return true;
    }

    /**
     One turn of run() for a well-formed task.  Whatever happens the commit of its offset follows,
     once; the task leaves a result or a DLQ record first, and neither only when the DLQ record does
     not get out either.  A task without `operation` raises, and is neither answered nor committed.
     */
    method Handle(blobs: BlobStore, task: Task, offset: nat, seconds: real, up: seq<bool>, maxRetries: nat,
                  delivery: Delivery, parking: Delivery, now: real, commits: bool)
      requires |up| == maxRetries + 1
      modifies this, blobs
      ensures committed == old(committed) + if task.operation.Some? && commits then [offset] else []
      ensures results == old(results) + AnsweredBy(tools, old(blobs.objects), task, up, maxRetries, delivery, seconds)
      ensures blobs.objects == StoredBy(tools, old(blobs.objects), task, up, maxRetries)
      ensures var answered := Succeeds(tools, old(blobs.objects), task, up, maxRetries) && Acknowledged(delivery);
              && |dlq| == |old(dlq)| + (if task.operation.Some? && !answered && Arrives(parking) then 1 else 0)
              && old(dlq) <= dlq
              && (|dlq| > |old(dlq)| ==>
                    && dlq[|old(dlq)|].task == task && dlq[|old(dlq)|].attempt == AttemptOf(task)
                    && dlq[|old(dlq)|].failedBy == workerId && dlq[|old(dlq)|].failedAt == now
                    && dlq[|old(dlq)|].reason == if Succeeds(tools, old(blobs.objects), task, up, maxRetries)
                                                 then "failed to publish result to Kafka" else "retries exhausted in process_tile")
      ensures task.operation.Some? && results == old(results) && dlq == old(dlq) ==> !Arrives(parking)
    {
      if task.operation.None? {
        return;
      }
      var result := ProcessTile(blobs, task, up, maxRetries);
      if result.Some? {
        var ok := PublishResult(Consumers.Message(task.job, task.tile, result.value, seconds), delivery);
        if !ok {
          var _ := SendToDlq(task, "failed to publish result to Kafka", parking, now);
        }
      } else {
        var _ := SendToDlq(task, "retries exhausted in process_tile", parking, now);
      }
      if commits {
        committed := committed + [offset];
      }
    }

    /** One turn of run() for any message; one that is not JSON is committed and leaves nothing else. */
    method HandleMessage(blobs: BlobStore, parsed: Option<Task>, offset: nat, seconds: real, up: seq<bool>, maxRetries: nat,
                         delivery: Delivery, parking: Delivery, now: real, commits: bool)
      requires |up| == maxRetries + 1
      modifies this, blobs
      ensures parsed.None? ==>
                && committed == old(committed) + (if commits then [offset] else [])
                && results == old(results) && dlq == old(dlq) && blobs.objects == old(blobs.objects)
      ensures parsed.Some? ==>
                && committed == old(committed) + (if parsed.value.operation.Some? && commits then [offset] else [])
                && results == old(results) + AnsweredBy(tools, old(blobs.objects), parsed.value, up, maxRetries, delivery, seconds)
                && blobs.objects == StoredBy(tools, old(blobs.objects), parsed.value, up, maxRetries)
                && (parsed.value.operation.Some? && results == old(results) && dlq == old(dlq) ==> !Arrives(parking))
    {
      if parsed.Some? {
        Handle(blobs, parsed.value, offset, seconds, up, maxRetries, delivery, parking, now, commits);
      } else if commits {
        committed := committed + [offset];
      }
    }
  }

  function AttemptOf(task: Task): int {
    if task.attempt.Some? then task.attempt.value else 1
  }

  /** A tile's DLQ record shows how often it had been dispatched: 1 at first, and then the reaper's number. */
  lemma AttemptsOnTheWay(id: JobId, route: Route, operation: string, g: Geometry, attempt: int)
    ensures AttemptOf(Dispatched(id, route, g).task) == 1
    ensures AttemptOf(Requeued(id, operation, g, attempt).task) == attempt
  {
  }

  /** The result message for a task. */
  function MessageOf(task: Task, seconds: real): Consumers.Message {
    Consumers.Message(task.job, task.tile, InfoOf(task), seconds)
  }
}
