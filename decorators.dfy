/** The decisions of the two caching decorators of apiHelper.js,
    fetchAssistData and fetchCached, as functions of the options, the stored
    caches, the queue and the time. */
module Decorators {
  import opened JsValues
  import opened Responses
  import opened TotalStorage
  import opened CallQueue

  /** The options fetchAssistData reads. */
  datatype AssistOptions = AssistOptions(
    sourceType: Option<string>,
    url: string,
    noCache: bool,
    refreshCache: bool,
    cachedOnly: bool,
    cacheType: Option<string>,
    timeout: Option<int>,
    hasErrorCallback: bool)

  /** The branch fetchAssistData takes when called. */
  datatype AssistStep =
    | NoSourceType     // errorCallback('No sourceType supplied')
    | CacheHit(data: JsValue)
    | NotAvailable     // cachedOnly miss: errorCallback(false)
    | AttachToQueued   // join the call already in flight for (url, sourceType)
    | RejectTimeout    // first in queue with timeout 0: reject with {status: -1}
    | StartFetch       // first in queue: POST to the url

  /** The fresh cached data fetchAssistData may answer with: none when
      `noCache` or `refreshCache` is set. */
  function AssistCachedData(o: AssistOptions, caches: Caches, now: int, env: Env): Option<JsValue>
    requires Present(o.sourceType)
  {
    if o.noCache || o.refreshCache then None
    else FreshLookup(NamespaceAt(caches, AssistCacheIdentifier(o.sourceType.value, o.cacheType, env)),
                     o.url, now, CacheTypeOrDefault(o.cacheType), env)
  }

  /** The branches of fetchAssistData in source order: missing source type,
      fresh cache hit, cached-only miss, joining the queued call, timeout 0,
      new fetch. `queued` says whether a call for the key
      (url, sourceType) is in the queue. */
  function AssistStepOf(o: AssistOptions, caches: Caches, queued: bool, now: int, env: Env): AssistStep
  {
    if !Present(o.sourceType) then NoSourceType
    else if AssistCachedData(o, caches, now, env).Some? then CacheHit(AssistCachedData(o, caches, now, env).value)
    else if o.cachedOnly then NotAvailable
    else if queued then AttachToQueued
    else if o.timeout == Some(0) then RejectTimeout
    else StartFetch
  }

  /** A fresh hit is served whatever else the options say: before the
      cached-only check, before the queue and before the timeout check. */
  lemma FreshHitWins(o: AssistOptions, caches: Caches, queued: bool, now: int, env: Env)
    requires Present(o.sourceType) && !o.noCache && !o.refreshCache
    requires var id := AssistCacheIdentifier(o.sourceType.value, o.cacheType, env);
             o.url in NamespaceAt(caches, id) &&
             !HasExpired(now, NamespaceAt(caches, id)[o.url].timestamp, CacheTypeOrDefault(o.cacheType), env)
    ensures AssistStepOf(o, caches, queued, now, env) ==
              CacheHit(NamespaceAt(caches, AssistCacheIdentifier(o.sourceType.value, o.cacheType, env))[o.url].data)
  {
  }

  /** Only a call that reaches the network (StartFetch) or is rejected for
      timeout 0 ever touches the queue; a cached-only call never does, and
      while a call for the key is queued no second one is started. */
  lemma QueueUse(o: AssistOptions, caches: Caches, queued: bool, now: int, env: Env)
    ensures var step := AssistStepOf(o, caches, queued, now, env);
            && (o.cachedOnly ==> step in {NoSourceType, NotAvailable} || step.CacheHit?)
            && (queued ==> step != StartFetch && step != RejectTimeout)
            && (step == StartFetch ==> !queued && !o.cachedOnly && o.timeout != Some(0))
            && (step == RejectTimeout ==> !queued && !o.cachedOnly && o.timeout == Some(0))
  {
  }

  /** A zero timeout does not keep fetchAssistData off the cache or the
      queue: a call with timeout 0 is served a fresh hit, and joins a call
      that is already queued. */
  lemma TimeoutZeroAfterCacheAndQueue(o: AssistOptions, caches: Caches, now: int, env: Env)
    requires Present(o.sourceType) && !o.cachedOnly && o.timeout == Some(0)
    ensures AssistCachedData(o, caches, now, env).Some? ==>
              AssistStepOf(o, caches, true, now, env).CacheHit? &&
              AssistStepOf(o, caches, false, now, env).CacheHit?
    ensures AssistCachedData(o, caches, now, env).None? ==>
              AssistStepOf(o, caches, true, now, env) == AttachToQueued &&
              AssistStepOf(o, caches, false, now, env) == RejectTimeout
  {
  }

  /** What a POST issued by fetchAssistData came back with. */
  datatype AjaxResult = AjaxSuccess(body: map<string, JsValue>) | AjaxFailure(xhr: JsValue)

  /** How the deferred of a fetch settles, and whether the data is cached. */
  datatype Settlement = Settlement(state: PromiseState, store: bool)

  /** The response object after `data.notFound = ...`. */
  function MarkNotFound(body: map<string, JsValue>): map<string, JsValue>
  {
    body["notFound" := NotFoundValue(body)]
  }

  /** The success and failure handlers of fetchAssistData's POST: a failure
      rejects; an erroneous success rejects unless it is a "not found"
      answer; otherwise the data resolves and is cached when `noCache` is
      off, its status is 0 and the caller's cache condition accepts it. */
  function AssistSettlement(noCache: bool, response: AjaxResult, cacheCondition: JsValue -> bool): Settlement
  {
    match response
    case AjaxFailure(xhr) => Settlement(Rejected(xhr), false)
    case AjaxSuccess(body) =>
      var data := Obj(MarkNotFound(body));
      if !Truthy(NotFoundValue(body)) && SuccessResponseIsError(data) then Settlement(Rejected(data), false)
      else Settlement(Resolved(data), !noCache && Get(data, "status") == Num(0) && cacheCondition(data))
  }

  /** Only resolved data is cached, and only when `noCache` is off, its
      status is 0 and the cache condition accepts it; data that is an error
      is cached only as a "not found" answer. A defined non-zero status is
      never cached, and no settlement is left pending. */
  lemma CachedOnlyWhenWorthy(noCache: bool, response: AjaxResult, cacheCondition: JsValue -> bool)
    ensures var s := AssistSettlement(noCache, response, cacheCondition);
            && !s.state.Pending?
            && (s.store ==>
                  && s.state.Resolved? && !noCache && response.AjaxSuccess?
                  && Get(s.state.value, "status") == Num(0) && cacheCondition(s.state.value)
                  && (SuccessResponseIsError(s.state.value) ==> Truthy(NotFoundValue(response.body))))
            && (response.AjaxSuccess? && "status" in response.body &&
                response.body["status"] != Num(0) && response.body["status"] != Undefined
                ==> s.state.Rejected? && !s.store)
  {
  }

  /** A "not found" answer (status 0, code 500, an `error` naming Hive's
      Error 10001) is cached by the generic condition even though it
      carries a traceback. */
  lemma NotFoundWithTracebackIsCached()
    ensures var body := map["status" := Num(0), "code" := Num(500), "traceback" := Str("t"),
                            "error" := Str("Error 10001")];
            AssistSettlement(false, AjaxSuccess(body), d => d != Null && GenericCacheCondition(d)).store
  {
    var body := map["status" := Num(0), "code" := Num(500), "traceback" := Str("t"),
                    "error" := Str("Error 10001")];
    assert OccursAt("Error 10001", "Error 10001", 0);
    assert Truthy(NotFoundValue(body));
  }

  /** The options fetchCached reads. */
  datatype CachedOptions = CachedOptions(
    sourceType: string,
    url: string,
    hash: Option<string>,
    refreshCache: bool,
    cacheType: Option<string>)

  /** The cache id `options.hash ? options.url + options.hash : options.url`. */
  function CachedId(url: string, hash: Option<string>): (id: string)
    ensures id == QueueKey(url, hash)
  {
    if Present(hash) then url + hash.value else url
  }

  function CachedNamespaceId(o: CachedOptions, env: Env): string
  {
    AssistCacheIdentifier(o.sourceType, o.cacheType, env)
  }

  /** The branch fetchCached takes: answer from a fresh entry, or call the
      fetch function, whose store callback keeps the namespace it was
      read from. */
  datatype CachedStep = Served(data: JsValue) | CallFetch(snapshot: Namespace)

  function FetchCachedStep(o: CachedOptions, caches: Caches, now: int, env: Env): CachedStep
  {
    var ns := NamespaceAt(caches, CachedNamespaceId(o, env));
    var id := CachedId(o.url, o.hash);
    if o.refreshCache || id !in ns || HasExpired(now, ns[id].timestamp, CacheTypeOrDefault(o.cacheType), env)
    then CallFetch(ns)
    else Served(ns[id].data)
  }

  /** fetchCached answers exactly from a fresh entry when `refreshCache` is
      off, and otherwise calls the fetch function. */
  lemma FetchCachedServesFreshEntries(o: CachedOptions, caches: Caches, now: int, env: Env)
    ensures var ns := NamespaceAt(caches, CachedNamespaceId(o, env));
            var entry := FreshLookup(ns, CachedId(o.url, o.hash), now, CacheTypeOrDefault(o.cacheType), env);
            && (FetchCachedStep(o, caches, now, env).Served? <==> !o.refreshCache && entry.Some?)
            && (FetchCachedStep(o, caches, now, env).Served? ==> FetchCachedStep(o, caches, now, env).data == entry.value)
            && (FetchCachedStep(o, caches, now, env).CallFetch? ==> FetchCachedStep(o, caches, now, env).snapshot == ns)
  {
  }

  /** What an endpoint wrapper built on fetchCached (fetchHdfsPath and its
      kind) does: its fetch function checks `timeout === 0` first. */
  datatype WrapperStep = WrapperServed(data: JsValue) | WrapperTimeoutError | WrapperRequest(snapshot: Namespace)

  function WrapperStepOf(o: CachedOptions, timeout: Option<int>, caches: Caches, now: int, env: Env): WrapperStep
  {
    match FetchCachedStep(o, caches, now, env)
    case Served(data) => WrapperServed(data)
    case CallFetch(snapshot) => if timeout == Some(0) then WrapperTimeoutError else WrapperRequest(snapshot)
  }

  /** In the wrappers the timeout check runs only on a cache miss: a fresh
      entry is served even with timeout 0, and a miss with timeout 0 sends
      no request. */
  lemma WrapperTimeoutOnlyOnMiss(o: CachedOptions, caches: Caches, now: int, env: Env)
    ensures FetchCachedStep(o, caches, now, env).Served? ==>
              WrapperStepOf(o, Some(0), caches, now, env) == WrapperServed(FetchCachedStep(o, caches, now, env).data)
    ensures FetchCachedStep(o, caches, now, env).CallFetch? ==>
              WrapperStepOf(o, Some(0), caches, now, env) == WrapperTimeoutError
  {
  }

  /** The store callback of fetchCached as written: it writes back the
      namespace it read when fetchCached was called, with the new entry. */
  function StoreFromSnapshot(caches: Caches, id: string, snapshot: Namespace, key: string, entry: CacheEntry): Caches
  {
    caches[id := snapshot[key := entry]]
  }

  /** Two overlapping fetchCached calls on different urls of one namespace:
      both read the empty namespace, and the second store erases the entry
      the first one wrote. */
  lemma OverlappingStoresLoseAnEntry(id: string, a: CacheEntry, b: CacheEntry)
    ensures var snapshot := NamespaceAt(map[], id);
            var afterFirst := StoreFromSnapshot(map[], id, snapshot, "/a", a);
            var afterSecond := StoreFromSnapshot(afterFirst, id, snapshot, "/b", b);
            "/a" in NamespaceAt(afterFirst, id) && "/a" !in NamespaceAt(afterSecond, id)
  {
  }

  /** The store the decorator evidently intends (and fetchAssistData
      performs): read the namespace at store time. Stores on different keys
      then keep each other's entries, and when nothing was written since the
      snapshot it agrees with the code as written. */
  lemma StoresCommuteOnDifferentKeys(caches: Caches, id: string, k1: string, k2: string, e1: CacheEntry, e2: CacheEntry)
    requires k1 != k2
    ensures PutEntry(PutEntry(caches, id, k1, e1), id, k2, e2) == PutEntry(PutEntry(caches, id, k2, e2), id, k1, e1)
    ensures var ns := NamespaceAt(PutEntry(PutEntry(caches, id, k1, e1), id, k2, e2), id);
            k1 in ns && ns[k1] == e1 && k2 in ns && ns[k2] == e2
    ensures StoreFromSnapshot(caches, id, NamespaceAt(caches, id), k1, e1) == PutEntry(caches, id, k1, e1)
  {
    var ns := NamespaceAt(caches, id);
    assert ns[k1 := e1][k2 := e2] == ns[k2 := e2][k1 := e1];
  }
}
