/** The ways out of the dead-letter table. */
module Dlq {
  import opened Domain
  import opened Outbox
  import opened OutboxProtocol

  datatype Reply = Requeued(id: FailureId) | Cleared(id: FailureId) | NotFound | EnqueueFailed

  class DlqController {
    var box: Box

    constructor (box: Box)
      ensures this.box == box
    {
      this.box := box;
    }

    /** webhookFailure.findUnique of retry r: the controller goes on with the copy it read. */
    method FindFailure(r: nat, id: FailureId) returns (found: bool)
      requires r !in box.copies
      modifies this
      ensures found == (id in old(box.dlq))
      ensures box == if found then Fire(old(box), RetryFind(r, id)) else old(box)
    {
      if id !in box.dlq { return false; }
      box := box.(copies := box.copies[r := Copy(id, box.dlq[id])]);
      found := true;
    }

    /** queue.add with the copy, whatever has become of the row since. */
    method Enqueue(r: nat, ok: bool)
      requires r in box.copies
      modifies this
      ensures box == Fire(old(box), RetryPush(r, ok))
    {
      var copy := box.copies[r];
      box := box.(copies := box.copies - {r});
      if ok {
        box := box.(enqueued := box.enqueued + multiset{copy.failure.row}, retrying := box.retrying + {copy.id});
      }
    }

    /** webhookFailure.delete. */
    method DeleteRetried(id: FailureId)
      requires id in box.retrying
      modifies this
      ensures box == Fire(old(box), RetryDelete(id))
    {
      box := box.(dlq := box.dlq - {id}, retrying := box.retrying - {id});
    }

    /** The three statements in a row. Without interference, a retry enqueues the event of the row and deletes the row, a
        refused push leaves everything as it was, and an unknown id changes nothing. */
    method RetryFailedWebhook(r: nat, id: FailureId, ok: bool) returns (reply: Reply)
      requires r !in box.copies
      modifies this
      ensures id !in old(box.dlq) ==> reply == NotFound && box == old(box)
      ensures id in old(box.dlq) && !ok ==> reply == EnqueueFailed && box == old(box)
      ensures id in old(box.dlq) && ok ==>
                && reply == Requeued(id)
                && box == old(box).(enqueued := old(box.enqueued) + multiset{old(box.dlq)[id].row},
                                    dlq := old(box.dlq) - {id}, retrying := old(box.retrying) - {id})
    {
      var found := FindFailure(r, id);
      if !found { return NotFound; }
      Enqueue(r, ok);
      assert box.copies == old(box.copies);
      if !ok { return EnqueueFailed; }
      DeleteRetried(id);
      assert old(box.retrying) + {id} - {id} == old(box.retrying) - {id};
      reply := Requeued(id);
    }

    /** The find and the delete of a dismissal: ids are not used again, so a row that is there to delete was there to find. */
    method DismissFailedWebhook(id: FailureId) returns (reply: Reply)
      requires box.dlq.Keys <= box.buried
      modifies this
      ensures id !in old(box.dlq) ==> reply == NotFound && box == old(box)
      ensures id in old(box.dlq) ==> reply == Cleared(id) && box == Fire(old(box), Dismiss(id))
    {
      if id !in box.dlq { return NotFound; }
      box := box.(dismissed := box.dismissed + multiset{box.dlq[id].row}, dlq := box.dlq - {id});
      reply := Cleared(id);
    }
  }
}
