/** The per-account queue registry.

    The service keeps one task queue per account key, created on first use
    with `concurrency: 1` so that an account never runs two browser sessions
    at once. Queues are never removed.
 */
module Queues {
  import opened JsText

  /** Every queue is created with this concurrency. */
  const Concurrency: nat := 1

  /** A queue, identified by the order of its creation. */
  datatype QueueRef = QueueRef(id: nat, concurrency: nat)

  class QueueRegistry {
    /** The `queues` map, from account key to that account's queue. */
    var queues: map<JsString, QueueRef>
    /** How many queues have been created; the next queue's id. */
    var created: nat

    /** Every queue has concurrency 1 and an id of its own. */
    ghost predicate Valid()
      reads this
    {
      && (forall k :: k in queues ==> queues[k].id < created && queues[k].concurrency == Concurrency)
      && (forall k1, k2 :: k1 in queues && k2 in queues && queues[k1].id == queues[k2].id ==> k1 == k2)
    }

    constructor ()
      ensures Valid()
      ensures queues == map[] && created == 0
    {
      queues := map[];
      created := 0;
    }

    /** `getQueue(key)`: the queue of `key`, created on first use. */
    method GetQueue(key: JsString) returns (q: QueueRef)
      requires Valid()
      modifies this
      ensures Valid()
      ensures key in queues && queues[key] == q
      ensures key in old(queues) ==> q == old(queues)[key] && queues == old(queues) && created == old(created)
      ensures key !in old(queues) ==>
                && queues == old(queues)[key := q]
                && q.concurrency == Concurrency
                && (forall k :: k in old(queues) ==> old(queues)[k].id != q.id)
                && created == old(created) + 1
    {
      if key !in queues {
        q := QueueRef(created, Concurrency);
        queues := queues[key := q];
        created := created + 1;
      }
      q := queues[key];
    }
  }
}
