/** The in-flight call queue (apiHelper.js: ApiQueueManager) and the
    deferred results it holds. */
module CallQueue {
  import opened JsValues

  datatype PromiseState = Pending | Resolved(value: JsValue) | Rejected(reason: JsValue)

  /** A jQuery Deferred: it settles at most once, and every callback attached
      to it observes that one settlement. */
  class Deferred {
    var state: PromiseState

    constructor ()
      ensures state == Pending
    {
      state := Pending;
    }

    /** Resolving or rejecting a settled deferred changes nothing. */
    method Resolve(value: JsValue)
      modifies this
      ensures state == if old(state).Pending? then Resolved(value) else old(state)
    {
      if state.Pending? {
        state := Resolved(value);
      }
    }

    method Reject(reason: JsValue)
      modifies this
      ensures state == if old(state).Pending? then Rejected(reason) else old(state)
    {
      if state.Pending? {
        state := Rejected(reason);
      }
    }
  }

  /** The queue key `url + (hash || '')`. */
  function QueueKey(url: string, hash: Option<string>): (key: string)
    ensures !Present(hash) ==> key == url
    ensures Present(hash) ==> key == url + hash.value
  {
    url + (if hash.Some? then hash.value else "")
  }

  /** The key is not injective: the url and the hash are concatenated
      without a separator. */
  lemma QueueKeyConflates()
    ensures QueueKey("/a", Some("bc")) == QueueKey("/ab", Some("c"))
  {
  }

  class ApiQueueManager {
    var callQueue: map<string, Deferred>

    constructor ()
      ensures callQueue == map[]
    {
      callQueue := map[];
    }

    /** The queue's invariant: every queued deferred is still pending (a
        settled one has left through its `always` hook), and no deferred is
        queued under two keys. */
    predicate Valid()
      reads this, callQueue.Values
    {
      && (forall k :: k in callQueue ==> callQueue[k].state.Pending?)
      && (forall k1, k2 :: k1 in callQueue && k2 in callQueue && k1 != k2 ==> callQueue[k1] != callQueue[k2])
    }

    /** `getQueued(url, hash)`: the deferred registered under the key, if any. */
    function GetQueued(url: string, hash: Option<string>): (p: Option<Deferred>)
      reads this
      ensures p.Some? <==> QueueKey(url, hash) in callQueue
      ensures p.Some? ==> p.value == callQueue[QueueKey(url, hash)]
    {
      var key := QueueKey(url, hash);
      if key in callQueue then Some(callQueue[key]) else None
    }

    /** `addToQueue(promise, url, hash)`: register the deferred under the key. */
    method AddToQueue(p: Deferred, url: string, hash: Option<string>)
      modifies this
      ensures callQueue == old(callQueue)[QueueKey(url, hash) := p]
      ensures GetQueued(url, hash) == Some(p)
    {
      callQueue := callQueue[QueueKey(url, hash) := p];
    }

    /** The `always` hook that `addToQueue` attaches: when the deferred
        settles, with either outcome, exactly its key leaves the queue. */
    method Settled(url: string, hash: Option<string>)
      modifies this
      ensures callQueue == old(callQueue) - {QueueKey(url, hash)}
      ensures GetQueued(url, hash) == None
      ensures forall k :: k in old(callQueue) && k != QueueKey(url, hash) ==>
                k in callQueue && callQueue[k] == old(callQueue)[k]
    {
      callQueue := callQueue - {QueueKey(url, hash)};
    }
  }
}
