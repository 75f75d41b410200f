/** The slots the client keeps in browser storage through `$.totalStorage`:
    namespaced assist caches with lazy TTL expiry, and per-owner user
    settings (apiHelper.js: hasExpired, getTotalStorageUserPrefix,
    getAssistCacheIdentifier, setInTotalStorage, getFromTotalStorage and the
    key built by clearDbCache). */
module TotalStorage {
  import opened JsValues

  /** What the client reads from globals: the logged-in user name, the page's
      host name, the per-cache-type TTLs (`CACHEABLE_TTL`) and the debug
      override `hueDebug.cacheTimeout`. */
  datatype Env = Env(user: string, host: string, ttls: map<string, int>, debugCacheTimeout: Option<int>)

  /** A cache entry `{timestamp, data}`. */
  datatype CacheEntry = CacheEntry(timestamp: int, data: JsValue)

  /** The map stored under one cache identifier, from url (or url + hash) to entry. */
  type Namespace = map<string, CacheEntry>

  /** The `hue.assist.*` slots, by cache identifier. */
  type Caches = map<string, Namespace>

  /** The `hue.user.settings.*` slots, by slot key. */
  type Settings = map<string, map<string, JsValue>>

  const AssistPrefix: string := "hue.assist."
  const SettingsPrefix: string := "hue.user.settings."
  const AutocompleteApiPrefix: string := "/notebook/api/autocomplete/"

  /** `getTotalStorageUserPrefix(sourceType)`. */
  function UserPrefix(sourceType: string, env: Env): string
  {
    sourceType + "_" + env.user + "_" + env.host
  }

  /** `options.cacheType || 'default'`. */
  function CacheTypeOrDefault(cacheType: Option<string>): string
  {
    if Present(cacheType) then cacheType.value else "default"
  }

  /** `getAssistCacheIdentifier({sourceType, cacheType})`. */
  function AssistCacheIdentifier(sourceType: string, cacheType: Option<string>, env: Env): string
  {
    AssistPrefix + CacheTypeOrDefault(cacheType) + "." + UserPrefix(sourceType, env)
  }

  /** The slot `setInTotalStorage` and `getFromTotalStorage` use for an owner. */
  function SettingsSlot(owner: string, env: Env): string
  {
    SettingsPrefix + UserPrefix(owner, env)
  }

  lemma {:induction false} CancelAround(x: string, a: string, b: string, t: string)
    requires x + a + t == x + b + t
    ensures a == b
  {
    assert |a| == |b|;
    assert a == (x + a + t)[|x|..|x| + |a|];
    assert b == (x + b + t)[|x|..|x| + |b|];
  }

  /** A cache identifier and a settings slot never name the same storage
      key, so the two kinds of slot are independent. */
  lemma CachesAndSettingsDisjoint(sourceType: string, cacheType: Option<string>, owner: string, env: Env)
    ensures AssistCacheIdentifier(sourceType, cacheType, env) != SettingsSlot(owner, env)
  {
    assert AssistCacheIdentifier(sourceType, cacheType, env)[4] == 'a';
    assert SettingsSlot(owner, env)[4] == 'u';
  }

  /** For one user and host, two source types of the same cache type, or two
      cache types of the same source type, have separate namespaces. */
  lemma NamespacesSeparate(st1: string, st2: string, ct1: Option<string>, ct2: Option<string>, env: Env)
    requires st1 == st2 || CacheTypeOrDefault(ct1) == CacheTypeOrDefault(ct2)
    requires AssistCacheIdentifier(st1, ct1, env) == AssistCacheIdentifier(st2, ct2, env)
    ensures st1 == st2 && CacheTypeOrDefault(ct1) == CacheTypeOrDefault(ct2)
  {
    var t := "_" + env.user + "_" + env.host;
    if st1 == st2 {
      var tail := "." + UserPrefix(st1, env);
      assert AssistCacheIdentifier(st1, ct1, env) == AssistPrefix + CacheTypeOrDefault(ct1) + tail;
      assert AssistCacheIdentifier(st2, ct2, env) == AssistPrefix + CacheTypeOrDefault(ct2) + tail;
      CancelAround(AssistPrefix, CacheTypeOrDefault(ct1), CacheTypeOrDefault(ct2), tail);
    } else {
      var x := AssistPrefix + CacheTypeOrDefault(ct1) + ".";
      assert AssistCacheIdentifier(st1, ct1, env) == x + st1 + t;
      assert AssistCacheIdentifier(st2, ct2, env) == x + st2 + t;
      CancelAround(x, st1, st2, t);
    }
  }

  /** For one user and host, distinct owners have distinct settings slots. */
  lemma SettingsSlotsSeparate(owner1: string, owner2: string, env: Env)
    requires SettingsSlot(owner1, env) == SettingsSlot(owner2, env)
    ensures owner1 == owner2
  {
    var t := "_" + env.user + "_" + env.host;
    assert SettingsSlot(owner1, env) == SettingsPrefix + owner1 + t;
    assert SettingsSlot(owner2, env) == SettingsPrefix + owner2 + t;
    CancelAround(SettingsPrefix, owner1, owner2, t);
  }

  /** The TTL that `hasExpired` applies to a cache type: the debug override
      when it is defined, else `CACHEABLE_TTL[cacheType]`; None when neither
      exists (comparing with `undefined` is then always false). */
  function EffectiveTtl(cacheType: string, env: Env): Option<int>
  {
    if env.debugCacheTimeout.Some? then env.debugCacheTimeout
    else if cacheType in env.ttls then Some(env.ttls[cacheType])
    else None
  }

  /** `hasExpired(timestamp, cacheType)` at time `now`. */
  predicate HasExpired(now: int, timestamp: int, cacheType: string, env: Env)
  {
    if env.debugCacheTimeout.Some? then now - timestamp > env.debugCacheTimeout.value
    else cacheType in env.ttls && now - timestamp > env.ttls[cacheType]
  }

  /** An entry has expired exactly when it is strictly older than the TTL in
      effect: one exactly TTL old is still fresh, and without any TTL nothing
      expires. The debug override applies to every cache type alike. */
  lemma ExpiryIsStrict(now: int, timestamp: int, cacheType: string, env: Env)
    ensures HasExpired(now, timestamp, cacheType, env) <==>
              EffectiveTtl(cacheType, env).Some? && now - timestamp > EffectiveTtl(cacheType, env).value
    ensures env.debugCacheTimeout.Some? ==>
              forall other :: HasExpired(now, timestamp, other, env) == HasExpired(now, timestamp, cacheType, env)
  {
  }

  /** Once expired, an entry stays expired as time goes on. */
  lemma ExpiryIsMonotone(now: int, later: int, timestamp: int, cacheType: string, env: Env)
    requires now <= later && HasExpired(now, timestamp, cacheType, env)
    ensures HasExpired(later, timestamp, cacheType, env)
  {
  }

  /** `$.totalStorage(id) || {}`: a slot never written reads as empty. */
  function NamespaceAt(caches: Caches, id: string): Namespace
  {
    if id in caches then caches[id] else map[]
  }

  /** The data of an entry that exists and has not expired. */
  function FreshLookup(ns: Namespace, key: string, now: int, cacheType: string, env: Env): (r: Option<JsValue>)
    ensures r.Some? <==> key in ns && !HasExpired(now, ns[key].timestamp, cacheType, env)
    ensures r.Some? ==> r.value == ns[key].data
  {
    if key in ns && !HasExpired(now, ns[key].timestamp, cacheType, env) then Some(ns[key].data) else None
  }

  /** Read the namespace, set one key, write the namespace back. */
  function PutEntry(caches: Caches, id: string, key: string, entry: CacheEntry): Caches
  {
    caches[id := NamespaceAt(caches, id)[key := entry]]
  }

  /** Read the namespace, delete one key, write the namespace back. */
  function RemoveEntry(caches: Caches, id: string, key: string): Caches
  {
    caches[id := NamespaceAt(caches, id) - {key}]
  }

  /** `$.totalStorage(id, {})`. */
  function ClearNamespace(caches: Caches, id: string): Caches
  {
    caches[id := map[]]
  }

  /** A write read back before the TTL has passed returns the written value,
      and after it has passed reads as absent; other keys and other
      namespaces read as before. */
  lemma CacheWriteThenRead(caches: Caches, id: string, key: string, data: JsValue,
                                              written: int, now: int, cacheType: string, env: Env)
    ensures var ns := NamespaceAt(PutEntry(caches, id, key, CacheEntry(written, data)), id);
            var ttl := EffectiveTtl(cacheType, env);
            && (ttl.None? || now - written <= ttl.value ==> FreshLookup(ns, key, now, cacheType, env) == Some(data))
            && (ttl.Some? && now - written > ttl.value ==> FreshLookup(ns, key, now, cacheType, env) == None)
    ensures forall k :: k != key ==>
              FreshLookup(NamespaceAt(PutEntry(caches, id, key, CacheEntry(written, data)), id), k, now, cacheType, env)
              == FreshLookup(NamespaceAt(caches, id), k, now, cacheType, env)
    ensures forall other :: other != id ==>
              NamespaceAt(PutEntry(caches, id, key, CacheEntry(written, data)), other) == NamespaceAt(caches, other)
  {
  }

  /** Deleting one key removes exactly that key from its namespace, and
      clearing empties the namespace; no other namespace changes. */
  lemma RemoveAndClearAreLocal(caches: Caches, id: string, key: string)
    ensures NamespaceAt(RemoveEntry(caches, id, key), id) == NamespaceAt(caches, id) - {key}
    ensures NamespaceAt(ClearNamespace(caches, id), id) == map[]
    ensures forall other :: other != id ==>
              NamespaceAt(RemoveEntry(caches, id, key), other) == NamespaceAt(caches, other) &&
              NamespaceAt(ClearNamespace(caches, id), other) == NamespaceAt(caches, other)
  {
  }

  /** The key clearDbCache deletes when `clearAll` is not set:
      the autocomplete prefix, then the database name when truthy, then
      '/' and the table name when truthy, then '/' and the fields joined by
      '/' when `fields` is given and non-empty. */
  function ClearDbUrl(databaseName: Option<string>, tableName: Option<string>, fields: Option<seq<string>>): string
  {
    AutocompleteApiPrefix
      + (if Present(databaseName) then databaseName.value else "")
      + (if Present(tableName) then "/" + tableName.value else "")
      + (if fields.Some? && |fields.value| > 0 then "/" + Join(fields.value, "/") else "")
  }

  /** Without a database, table or fields, clearDbCache deletes the entry
      that loadDatabases caches (its url is the bare autocomplete prefix). */
  lemma ClearDbUrlOfDatabaseList(fields: Option<seq<string>>)
    requires fields.None? || fields == Some([])
    ensures ClearDbUrl(None, None, fields) == AutocompleteApiPrefix
    ensures ClearDbUrl(Some(""), Some(""), fields) == AutocompleteApiPrefix
  {
  }

  /** `$.totalStorage(slot) || {}`. */
  function SettingsAt(settings: Settings, slot: string): map<string, JsValue>
  {
    if slot in settings then settings[slot] else map[]
  }

  /** `getFromTotalStorage(owner, id, defaultValue)` on the owner's slot. */
  function GetSetting(settings: Settings, slot: string, id: string, defaultValue: JsValue): (r: JsValue)
    ensures var stored := SettingsAt(settings, slot);
            && (id in stored && stored[id] != Undefined ==> r == stored[id])
            && (id !in stored || stored[id] == Undefined ==> r == defaultValue)
  {
    var stored := SettingsAt(settings, slot);
    if id in stored && stored[id] != Undefined then stored[id] else defaultValue
  }

  /** `setInTotalStorage(owner, id, value)` as written: a defined value is
      stored; an undefined or null value deletes the id, but only when the
      stored value is truthy. */
  function SetSettingAsWritten(settings: Settings, slot: string, id: string, value: JsValue): Settings
  {
    var stored := SettingsAt(settings, slot);
    if value != Undefined && value != Null then settings[slot := stored[id := value]]
    else if id in stored && Truthy(stored[id]) then settings[slot := stored - {id}]
    else settings
  }

  /** The setting a falsy stored value leaves behind: after storing `false`
      and then "removing" it with null, reading still returns `false`
      instead of the default. */
  lemma FalsySettingSurvivesRemoval(slot: string, id: string)
    ensures var before := map[slot := map[id := Bool(false)]];
            var after := SetSettingAsWritten(before, slot, id, Null);
            after == before && GetSetting(after, slot, id, Bool(true)) == Bool(false)
  {
  }

  /** `setInTotalStorage` as its documentation says: undefined and null
      remove the value, whatever it is. */
  function SetSetting(settings: Settings, slot: string, id: string, value: JsValue): Settings
  {
    var stored := SettingsAt(settings, slot);
    if value != Undefined && value != Null then settings[slot := stored[id := value]]
    else if id in stored then settings[slot := stored - {id}]
    else settings
  }

  /** The settings round trip: after setting a defined, non-null value it is
      read back; after setting undefined or null the default is read back;
      every other id of every slot reads as before. */
  lemma SettingRoundTrip(settings: Settings, slot: string, id: string, value: JsValue, defaultValue: JsValue)
    ensures value != Undefined && value != Null ==>
              GetSetting(SetSetting(settings, slot, id, value), slot, id, defaultValue) == value
    ensures value == Undefined || value == Null ==>
              GetSetting(SetSetting(settings, slot, id, value), slot, id, defaultValue) == defaultValue
    ensures forall s, i, d :: s != slot || i != id ==>
              GetSetting(SetSetting(settings, slot, id, value), s, i, d) == GetSetting(settings, s, i, d)
  {
  }

  /** The code as written agrees with the documented behaviour except when
      removing a falsy stored value. */
  lemma SetSettingAgreesUnlessFalsy(settings: Settings, slot: string, id: string, value: JsValue)
    requires (value != Undefined && value != Null) ||
             id !in SettingsAt(settings, slot) || Truthy(SettingsAt(settings, slot)[id])
    ensures SetSettingAsWritten(settings, slot, id, value) == SetSetting(settings, slot, id, value)
  {
  }
}
