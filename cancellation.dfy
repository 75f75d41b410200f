/** Cancelling requests (apiHelper.js: CancellablePromise.cancel and
    ApiHelper.cancelActiveRequest). */
module Cancellation {
  import opened JsValues

  /** A jqXHR as cancellation sees it: its transport state (`readyState`,
      4 meaning the request is done) and the number of times `abort()` was
      called on it. */
  class Request {
    var readyState: int
    var aborts: nat

    constructor (readyState: int)
      ensures this.readyState == readyState && aborts == 0
    {
      this.readyState := readyState;
      aborts := 0;
    }

    /** `request.abort()`, whose effect on the transport is not modelled. */
    method Abort()
      modifies this
      ensures aborts == old(aborts) + 1 && readyState == old(readyState)
    {
      aborts := aborts + 1;
    }
  }

  /** `cancelActiveRequest(request)`: abort a request that exists and is not
      yet done; a missing request or one that is done is left alone. */
  method CancelActiveRequest(request: Request?)
    modifies request
    ensures request != null ==> request.readyState == old(request.readyState)
    ensures request != null ==>
              request.aborts == old(request.aborts) + (if old(request.readyState) < 4 then 1 else 0)
  {
    if request != null && request.readyState < 4 {
      request.Abort();
    }
  }

  /** An element of a cancellation tree: a CancellablePromise with its
      optional request and its `otherCancellables`, or an object in
      `otherCancellables` that has no `cancel` method. */
  datatype Cancellable =
    | CancellablePromise(request: Option<Request>, otherCancellables: seq<Cancellable>)
    | Uncancellable

  /** Every request that cancelling `c` may abort. */
  ghost function Requests(c: Cancellable): set<Request>
  {
    match c
    case Uncancellable => {}
    case CancellablePromise(request, others) =>
      (if request.Some? then {request.value} else {}) +
        set i, r | 0 <= i < |others| && r in Requests(others[i]) :: r
  }

  function Sum(s: seq<nat>): nat
  {
    if s == [] then 0 else Sum(s[..|s| - 1]) + s[|s| - 1]
  }

  /** How many times `r` is reached when `c` is cancelled. */
  ghost function Occurrences(c: Cancellable, r: Request): nat
  {
    match c
    case Uncancellable => 0
    case CancellablePromise(request, others) =>
      (if request == Some(r) then 1 else 0) +
        Sum(seq(|others|, i requires 0 <= i < |others| => Occurrences(others[i], r)))
  }

  ghost function OccurrencesIn(others: seq<Cancellable>, r: Request): seq<nat>
  {
    seq(|others|, i requires 0 <= i < |others| => Occurrences(others[i], r))
  }

  lemma SumSnoc(s: seq<nat>, i: nat)
    requires i < |s|
    ensures Sum(s[..i + 1]) == Sum(s[..i]) + s[i]
  {
    assert s[..i + 1][..i] == s[..i];
  }

  lemma {:induction false} SumIsZero(s: seq<nat>)
    ensures Sum(s) == 0 <==> forall i :: 0 <= i < |s| ==> s[i] == 0
  {
    if s != [] {
      SumIsZero(s[..|s| - 1]);
      assert forall i :: 0 <= i < |s| - 1 ==> s[..|s| - 1][i] == s[i];
    }
  }

  /** A request is reached by cancelling `c` exactly when it is one of the
      requests of `c`. */
  lemma {:induction false} OccursIffRequest(c: Cancellable, r: Request)
    ensures Occurrences(c, r) > 0 <==> r in Requests(c)
  {
    match c
    case Uncancellable =>
    case CancellablePromise(request, others) =>
      var counts := OccurrencesIn(others, r);
      assert Occurrences(c, r) == (if request == Some(r) then 1 else 0) + Sum(counts);
      forall i | 0 <= i < |others|
        ensures counts[i] > 0 <==> r in Requests(others[i])
      {
        OccursIffRequest(others[i], r);
      }
      SumIsZero(counts);
  }

  /** `CancellablePromise.cancel()`: abort the own request when it is not yet
      done, then cancel every other cancellable that has a `cancel` method.
      Each request that is not done is aborted once for every place it
      occurs in the tree; a request that is done is never aborted. */
  method Cancel(c: Cancellable)
    modifies Requests(c)
    ensures forall r :: r in Requests(c) && old(allocated(r)) ==> r.readyState == old(r.readyState)
    ensures forall r :: r in Requests(c) && old(allocated(r)) ==>
              r.aborts == old(r.aborts) + (if r.readyState < 4 then Occurrences(c, r) else 0)
    decreases c
  {
    if c.CancellablePromise? {
      if c.request.Some? {
        CancelActiveRequest(c.request.value);
      }
      var others := c.otherCancellables;
      for i := 0 to |others|
        invariant forall r :: r in Requests(c) && old(allocated(r)) ==> r.readyState == old(r.readyState)
        invariant forall r :: r in Requests(c) && old(allocated(r)) ==>
                    r.aborts == old(r.aborts) +
                      (if r.readyState < 4
                       then (if c.request == Some(r) then 1 else 0) + Sum(OccurrencesIn(others, r)[..i])
                       else 0)
      {
        forall r | r in Requests(others[i]) ensures r in Requests(c) { }
        ghost var before := map r | r in Requests(c) :: r.aborts;
        if others[i].CancellablePromise? {
          Cancel(others[i]);
        }
        forall r | r in Requests(c) && old(allocated(r))
          ensures r.aborts == before[r] + (if r.readyState < 4 then OccurrencesIn(others, r)[i] else 0)
        {
          if r !in Requests(others[i]) {
            OccursIffRequest(others[i], r);
          }
        }
        forall r | r in Requests(c)
          ensures Sum(OccurrencesIn(others, r)[..i + 1]) == Sum(OccurrencesIn(others, r)[..i]) + OccurrencesIn(others, r)[i]
        {
          SumSnoc(OccurrencesIn(others, r), i);
        }
      }
      assert forall r :: OccurrencesIn(others, r)[..|others|] == OccurrencesIn(others, r);
    }
  }
}
