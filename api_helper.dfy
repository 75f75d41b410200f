/** The ApiHelper object of apiHelper.js as far as its cache layer goes:
    the browser storage it reads and writes, the shared call queue, and the
    databases it last listed per source type. */
module Api {
  import opened JsValues
  import opened Responses
  import opened TotalStorage
  import opened CallQueue
  import opened Decorators
  import opened TableLists

  /** What a call of fetchAssistData did before returning. */
  datatype AssistOutcome =
    | Error(message: JsValue)          // errorCallback called at once
    | Hit(data: JsValue)               // successCallback called with cached data
    | Unavailable(notified: bool)      // cached-only miss; errorCallback(false) when there is one
    | Attached(promise: Deferred)      // callbacks attached to the call in flight
    | TimedOut(promise: Deferred)      // new deferred, rejected with {status: -1}
    | Fetching(promise: Deferred)      // new deferred, queued; the POST is out

  /** The rejection value fetchAssistData uses for `timeout === 0`. */
  const TimeoutRejection: JsValue := Obj(map["status" := Num(-1)])

  /** The source types whose default namespaces clearAllCaches empties. */
  const ClearedSourceTypes: seq<string> :=
    ["hive", "impala", "hdfs", "adls", "git", "s3", "collections", "hbase", "document"]

  /** The namespaces clearAllCaches empties, for one user and host. */
  function ClearedNamespaces(env: Env): (ids: set<string>)
    ensures forall st :: st in ClearedSourceTypes ==> AssistCacheIdentifier(st, None, env) in ids
    ensures forall id :: id in ids ==> exists st :: st in ClearedSourceTypes && id == AssistCacheIdentifier(st, None, env)
  {
    {AssistCacheIdentifier("hive", None, env), AssistCacheIdentifier("impala", None, env),
     AssistCacheIdentifier("hdfs", None, env), AssistCacheIdentifier("adls", None, env),
     AssistCacheIdentifier("git", None, env), AssistCacheIdentifier("s3", None, env),
     AssistCacheIdentifier("collections", None, env), AssistCacheIdentifier("hbase", None, env),
     AssistCacheIdentifier("document", None, env)}
  }

  /** clearAllCaches leaves every optimizer namespace alone: only default
      namespaces are cleared. */
  lemma OptimizerCachesSurviveClearAll(sourceType: string, env: Env)
    ensures AssistCacheIdentifier(sourceType, Some("optimizer"), env) !in ClearedNamespaces(env)
  {
    var id := AssistCacheIdentifier(sourceType, Some("optimizer"), env);
    assert id[11] == 'o';
    forall st | st in ClearedSourceTypes ensures AssistCacheIdentifier(st, None, env) != id {
      assert AssistCacheIdentifier(st, None, env)[11] == 'd';
    }
  }

  /** `response.status == 401` in loadDatabases' error callback, for the
      spellings a status can take: the number and its decimal string. */
  predicate IsAuthFailure(response: JsValue)
  {
    response != Undefined && response != Null &&
    (Get(response, "status") == Num(401) || Get(response, "status") == Str("401"))
  }

  class ApiHelper {
    const env: Env
    const queueManager: ApiQueueManager
    /** The `hue.assist.*` storage slots. */
    var caches: Caches
    /** The `hue.user.settings.*` storage slots. */
    var settings: Settings
    /** `lastKnownDatabases`, by source type. */
    var lastKnownDatabases: map<string, seq<string>>

    /** `new ApiHelper()`: browser storage already holds what earlier pages
        wrote, the queue manager is the shared instance, and no databases
        are known yet. */
    constructor (env: Env, queueManager: ApiQueueManager, caches: Caches, settings: Settings)
      ensures this.env == env && this.queueManager == queueManager
      ensures this.caches == caches && this.settings == settings && lastKnownDatabases == map[]
    {
      this.env := env;
      this.queueManager := queueManager;
      this.caches := caches;
      this.settings := settings;
      lastKnownDatabases := map[];
    }

    /** `fetchAssistData(options)` up to the point where it returns: the
        branch is the one AssistStepOf picks, with the queue consulted under
        the key (url, sourceType). A timeout-0 call queues its deferred and
        rejects it at once, so the `always` hook takes it off the queue
        again; a new fetch leaves its pending deferred queued. The queue's
        invariant is kept. */
    method FetchAssistData(o: AssistOptions, now: int) returns (out: AssistOutcome)
      requires queueManager.Valid()
      modifies queueManager
      ensures queueManager.Valid()
      ensures var step := AssistStepOf(o, caches, old(queueManager.GetQueued(o.url, o.sourceType)).Some?, now, env);
              && (step == NoSourceType ==> out == Error(Str("No sourceType supplied")))
              && (step.CacheHit? ==> out == Hit(step.data))
              && (step == NotAvailable ==> out == Unavailable(o.hasErrorCallback))
              && (step == AttachToQueued ==> out == Attached(old(queueManager.GetQueued(o.url, o.sourceType)).value))
              && (step == RejectTimeout ==>
                    out.TimedOut? && fresh(out.promise) && out.promise.state == Rejected(TimeoutRejection))
              && (step == StartFetch ==>
                    out.Fetching? && fresh(out.promise) && out.promise.state == Pending)
              && (step != StartFetch ==> queueManager.callQueue == old(queueManager.callQueue))
              && (step == StartFetch ==>
                    queueManager.callQueue == old(queueManager.callQueue)[QueueKey(o.url, o.sourceType) := out.promise])
    {
      if !Present(o.sourceType) {
        return Error(Str("No sourceType supplied"));
      }
      if !o.noCache && !o.refreshCache {
        var ns := NamespaceAt(caches, AssistCacheIdentifier(o.sourceType.value, o.cacheType, env));
        if o.url in ns && !HasExpired(now, ns[o.url].timestamp, CacheTypeOrDefault(o.cacheType), env) {
          return Hit(ns[o.url].data);
        }
      }
      if o.cachedOnly {
        return Unavailable(o.hasErrorCallback);
      }
      var queued := queueManager.GetQueued(o.url, o.sourceType);
      if queued.Some? {
        return Attached(queued.value);
      }
      var promise := new Deferred();
      queueManager.AddToQueue(promise, o.url, o.sourceType);
      if o.timeout == Some(0) {
        promise.Reject(TimeoutRejection);
        queueManager.Settled(o.url, o.sourceType);
        return TimedOut(promise);
      }
      return Fetching(promise);
    }

    /** The POST's success or failure handler settling the deferred that
        the same fetchAssistData call queued (the handlers close over it):
        the settlement AssistSettlement describes, a cache write that
        re-reads the namespace at that moment, and, since the deferred
        settles, its `always` hook takes its key off the queue. Every other
        queued deferred stays queued and pending. */
    method SettleAssistFetch(o: AssistOptions, promise: Deferred, response: AjaxResult,
                             cacheCondition: JsValue -> bool, now: int)
      requires Present(o.sourceType)
      requires queueManager.Valid() && queueManager.GetQueued(o.url, o.sourceType) == Some(promise)
      modifies this, promise, queueManager
      ensures var s := AssistSettlement(o.noCache, response, cacheCondition);
              && caches == (if s.store
                            then PutEntry(old(caches), AssistCacheIdentifier(o.sourceType.value, o.cacheType, env),
                                          o.url, CacheEntry(now, s.state.value))
                            else old(caches))
              && old(promise.state).Pending? && promise.state == s.state
              && queueManager.callQueue == old(queueManager.callQueue) - {QueueKey(o.url, o.sourceType)}
      ensures queueManager.Valid()
      ensures settings == old(settings) && lastKnownDatabases == old(lastKnownDatabases)
    {
      var s := AssistSettlement(o.noCache, response, cacheCondition);
      if s.store {
        caches := PutEntry(caches, AssistCacheIdentifier(o.sourceType.value, o.cacheType, env),
                           o.url, CacheEntry(now, s.state.value));
      }
      if s.state.Resolved? {
        promise.Resolve(s.state.value);
      } else {
        promise.Reject(s.state.reason);
      }
      queueManager.Settled(o.url, o.sourceType);
    }

    /** `fetchCached(options)`: serve a fresh entry (resolving
        `options.promise` when one is given) or hand over to the fetch
        function. */
    method FetchCached(o: CachedOptions, promise: Deferred?, now: int) returns (step: CachedStep)
      modifies promise
      ensures step == FetchCachedStep(o, caches, now, env)
      ensures promise != null && step.Served? ==>
                promise.state == if old(promise.state).Pending? then Resolved(step.data) else old(promise.state)
      ensures promise != null && step.CallFetch? ==> promise.state == old(promise.state)
    {
      var ns := NamespaceAt(caches, CachedNamespaceId(o, env));
      var id := CachedId(o.url, o.hash);
      if o.refreshCache || id !in ns || HasExpired(now, ns[id].timestamp, CacheTypeOrDefault(o.cacheType), env) {
        return CallFetch(ns);
      }
      if promise != null {
        promise.Resolve(ns[id].data);
      }
      return Served(ns[id].data);
    }

    /** The store callback fetchCached hands to the fetch function, as
        written: it adds the entry to `snapshot`, the namespace fetchCached
        read when it was called (the `CallFetch` step), and writes that back
        whole. `accepted` is false when the storage write throws, which the
        callback swallows. */
    method StoreFetched(o: CachedOptions, snapshot: Namespace, data: JsValue, now: int, accepted: bool)
      modifies this
      ensures caches == if accepted
                        then StoreFromSnapshot(old(caches), CachedNamespaceId(o, env), snapshot,
                                               CachedId(o.url, o.hash), CacheEntry(now, data))
                        else old(caches)
      ensures settings == old(settings) && lastKnownDatabases == old(lastKnownDatabases)
    {
      if accepted {
        caches := StoreFromSnapshot(caches, CachedNamespaceId(o, env), snapshot,
                                    CachedId(o.url, o.hash), CacheEntry(now, data));
      }
    }

    /** `clearDbCache(options)`: empty the namespace, or delete the one key
        ClearDbUrl builds. */
    method ClearDbCache(sourceType: string, cacheType: Option<string>, databaseName: Option<string>,
                        tableName: Option<string>, fields: Option<seq<string>>, clearAll: bool)
      modifies this
      ensures var id := AssistCacheIdentifier(sourceType, cacheType, env);
              caches == if clearAll then ClearNamespace(old(caches), id)
                        else RemoveEntry(old(caches), id, ClearDbUrl(databaseName, tableName, fields))
      ensures settings == old(settings) && lastKnownDatabases == old(lastKnownDatabases)
    {
      var id := AssistCacheIdentifier(sourceType, cacheType, env);
      if clearAll {
        caches := ClearNamespace(caches, id);
      } else {
        caches := RemoveEntry(caches, id, ClearDbUrl(databaseName, tableName, fields));
      }
    }

    /** The `assist.clear.<source>.cache` handlers: empty the default
        namespace of one source type. */
    method ClearSourceCache(sourceType: string)
      modifies this
      ensures caches == ClearNamespace(old(caches), AssistCacheIdentifier(sourceType, None, env))
      ensures settings == old(settings) && lastKnownDatabases == old(lastKnownDatabases)
    {
      caches := ClearNamespace(caches, AssistCacheIdentifier(sourceType, None, env));
    }

    /** `clearAllCaches`: the default namespaces of hive and impala (through
        clearDbCache with clearAll) and of the seven other source types are
        emptied; every other namespace is kept. */
    method ClearAllCaches()
      modifies this
      ensures forall id :: id in ClearedNamespaces(env) ==> id in caches && caches[id] == map[]
      ensures forall id :: id !in ClearedNamespaces(env) ==> NamespaceAt(caches, id) == NamespaceAt(old(caches), id)
      ensures settings == old(settings) && lastKnownDatabases == old(lastKnownDatabases)
    {
      ClearDbCache("hive", None, None, None, None, true);
      ClearDbCache("impala", None, None, None, None, true);
      ClearSourceCache("hdfs");
      ClearSourceCache("adls");
      ClearSourceCache("git");
      ClearSourceCache("s3");
      ClearSourceCache("collections");
      ClearSourceCache("hbase");
      ClearSourceCache("document");
    }

    /** `setInTotalStorage(owner, id, value)` as written
        (SetSettingAsWritten: a falsy stored value is not removed);
        `accepted` is false when the storage write throws, which is
        swallowed. */
    method SetInTotalStorage(owner: string, id: string, value: JsValue, accepted: bool)
      modifies this
      ensures settings == if accepted then SetSettingAsWritten(old(settings), SettingsSlot(owner, env), id, value)
                          else old(settings)
      ensures caches == old(caches) && lastKnownDatabases == old(lastKnownDatabases)
    {
      if accepted {
        settings := SetSettingAsWritten(settings, SettingsSlot(owner, env), id, value);
      }
    }

    /** `getFromTotalStorage(owner, id, defaultValue)`: the stored value when
        it is defined, else the default. */
    function GetFromTotalStorage(owner: string, id: string, defaultValue: JsValue): (v: JsValue)
      reads this
      ensures var stored := SettingsAt(settings, SettingsSlot(owner, env));
              && (id in stored && stored[id] != Undefined ==> v == stored[id])
              && (id !in stored || stored[id] == Undefined ==> v == defaultValue)
    {
      GetSetting(settings, SettingsSlot(owner, env), id, defaultValue)
    }

    /** loadDatabases' success callback: the cleaned list of
        `data.databases || []` becomes the last known list of the source
        type and is handed on. */
    method LoadDatabasesSucceeded(sourceType: string, databases: Option<seq<string>>) returns (clean: seq<string>)
      modifies this
      ensures clean == CleanDatabases(if databases.Some? then databases.value else [])
      ensures lastKnownDatabases == old(lastKnownDatabases)[sourceType := clean]
      ensures caches == old(caches) && settings == old(settings)
    {
      clean := CleanDatabaseList(databases);
      lastKnownDatabases := lastKnownDatabases[sourceType := clean];
    }

    /** loadDatabases' error callback, given the failed request itself as
        its status check evidently intends: an authentication failure asks
        for credentials (None) and changes nothing; any other error forgets
        the databases of the source type and hands the request to
        `assistErrorCallback` with the caller's options, whose effects are
        returned. */
    method LoadDatabasesFailed(sourceType: string, response: JsValue, parseJson: JsValue -> Option<JsValue>,
                               hasErrorCallback: bool, silenceErrors: bool)
      returns (effects: Option<ErrorEffects>)
      requires response != Undefined && response != Null
      modifies this
      ensures effects.None? <==> IsAuthFailure(response)
      ensures effects.Some? ==> effects.value == AssistErrorCallback(response, parseJson, hasErrorCallback, silenceErrors)
      ensures lastKnownDatabases == if effects.None? then old(lastKnownDatabases)
                                    else old(lastKnownDatabases)[sourceType := []]
      ensures caches == old(caches) && settings == old(settings)
    {
      if IsAuthFailure(response) {
        return None;
      }
      lastKnownDatabases := lastKnownDatabases[sourceType := []];
      effects := Some(AssistErrorCallback(response, parseJson, hasErrorCallback, silenceErrors));
    }
  }

  /** What loadDatabases' error callback receives as written when its
      request fails: assistErrorCallback hands on the message it extracted,
      not the failed request; None when the request was aborted and the
      callback is not called. */
  function DatabasesErrorArgument(xhr: JsValue, parseJson: JsValue -> Option<JsValue>): (arg: Option<JsValue>)
    ensures arg == AssistErrorCallback(xhr, parseJson, true, true).callbackArg
    ensures arg.None? <==> ErrorMessage(xhr, parseJson).Ignored?
  {
    match ErrorMessage(xhr, parseJson)
    case Ignored => None
    case Reported(m) => Some(m)
  }

  /** As written, a listing refused with status 401 reaches the error
      callback as its response text, so the authentication branch is
      skipped and the databases are forgotten instead. */
  lemma UnauthorizedListingIsNotRecognised()
    ensures var xhr := Obj(map["status" := Num(401), "responseText" := Str("Unauthorized")]);
            var arg := DatabasesErrorArgument(xhr, (v: JsValue) => None);
            IsAuthFailure(xhr) && arg == Some(Str("Unauthorized")) && !IsAuthFailure(arg.value)
  {
  }

  /** As written, the message reaches assistErrorCallback a second time
      (with the caller's options); a string message comes out of that
      second pass unchanged. */
  lemma SecondPassKeepsStringMessage(message: string, parseJson: JsValue -> Option<JsValue>)
    ensures ErrorMessage(Str(message), parseJson) == Reported(Str(message))
  {
  }

  /** Every other value fetchAssistData passes to an error callback (a
      string message, or the `false` of a cached-only miss) is not an
      authentication failure either. */
  lemma MessagesAreNotAuthFailures(message: JsValue)
    requires message.Str? || message == Bool(false)
    ensures !IsAuthFailure(message)
  {
  }

  /** Two fetchAssistData calls for the same url and source type while the
      first is in flight: the second joins the first's deferred, one POST
      is issued, and when it succeeds with cacheable data a third call is
      answered from the cache. */
  method DuplicateCallsShareOneRequest(env: Env, o: AssistOptions, body: map<string, JsValue>, now: int)
    returns (first: AssistOutcome, second: AssistOutcome, third: AssistOutcome)
    requires Present(o.sourceType) && !o.noCache && !o.refreshCache && !o.cachedOnly && o.timeout != Some(0)
    requires "status" in body && body["status"] == Num(0) && "traceback" !in body && "code" !in body
    requires env.debugCacheTimeout.None? || env.debugCacheTimeout.value >= 0
    requires CacheTypeOrDefault(o.cacheType) in env.ttls ==> env.ttls[CacheTypeOrDefault(o.cacheType)] >= 0
    ensures first.Fetching? && second == Attached(first.promise)
    ensures first.promise.state == Resolved(Obj(MarkNotFound(body)))
    ensures third == Hit(Obj(MarkNotFound(body)))
  {
    var manager := new ApiQueueManager();
    var helper := new ApiHelper(env, manager, map[], map[]);
    assert manager.Valid();
    first := helper.FetchAssistData(o, now);
    second := helper.FetchAssistData(o, now);
    var data := Obj(MarkNotFound(body));
    assert Get(data, "status") == Num(0);
    assert !SuccessResponseIsError(data);
    helper.SettleAssistFetch(o, first.promise, AjaxSuccess(body), d => d != Null && GenericCacheCondition(d), now);
    third := helper.FetchAssistData(o, now);
  }

  /** Two overlapping fetchCached misses on `/a` and `/b` of one empty
      namespace, each stored by its callback once its data arrives: the
      second store writes back its stale snapshot and `/a` is lost. */
  method OverlappingFetchCachedMissesLoseAnEntry(env: Env, sourceType: string, now: int)
    returns (ns: Namespace)
    ensures "/b" in ns && "/a" !in ns
  {
    var manager := new ApiQueueManager();
    var helper := new ApiHelper(env, manager, map[], map[]);
    var a := CachedOptions(sourceType, "/a", None, false, None);
    var b := CachedOptions(sourceType, "/b", None, false, None);
    var stepA := helper.FetchCached(a, null, now);
    var stepB := helper.FetchCached(b, null, now);
    helper.StoreFetched(a, stepA.snapshot, Str("A"), now, true);
    helper.StoreFetched(b, stepB.snapshot, Str("B"), now, true);
    ns := NamespaceAt(helper.caches, CachedNamespaceId(a, env));
  }
}
