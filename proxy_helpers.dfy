/**
  The `switcher_api` package's helpers: the per-entry registry of managers kept
  in `hass.data[DATA]`, and the log-level service call made for an entry.
 */
module ProxyHelpers {
  import opened Wrappers
  import opened PyValues
  import opened ProxyConst
  import opened ProxyConfigManager
  import opened HomeAssistant

  /** `hass.services.async_call(domain, service, data)` */
  datatype ServiceCall = ServiceCall(domain: string, service: string, data: map<string, Value>)

  /** The key of the logger service's data: the integration's logger name. */
  const LoggerName := "custom_components." + Domain

  /** `hass.data[DATA]` once it has been created if missing. */
  function Existing<V>(registry: Option<map<string, V>>): (m: map<string, V>)
    ensures registry.None? ==> m == map[]
    ensures registry.Some? ==> m == registry.value
  {
    registry.GetOr(map[])
  }

  /** The registry after `hass.data[DATA][id] = v`, the map being created first when missing. */
  function Stored<V>(registry: Option<map<string, V>>, id: string, v: V): (m: map<string, V>)
    ensures m.Keys == Existing(registry).Keys + {id} && m[id] == v
    ensures forall k | k in m && k != id :: m[k] == Existing(registry)[k]
  {
    Existing(registry)[id := v]
  }

  /** The registry after `del hass.data[DATA][id]`, or None when that raises because `id` is missing. */
  function Cleared<V>(registry: Option<map<string, V>>, id: string): (r: Option<map<string, V>>)
    ensures r.None? <==> id !in Existing(registry)
    ensures r.Some? ==> r.value.Keys == Existing(registry).Keys - {id}
    ensures r.Some? ==> forall k | k in r.value :: r.value[k] == Existing(registry)[k]
  {
    if id in Existing(registry) then Some(Existing(registry) - {id}) else None
  }

  /** Clearing an entry just stored removes it again and leaves every other entry as it was. */
  lemma ClearUndoesStore<V>(registry: Option<map<string, V>>, id: string, v: V)
    requires id !in Existing(registry)
    ensures Cleared(Some(Stored(registry, id, v)), id) == Some(Existing(registry))
  {
    var m := Stored(registry, id, v);
    assert m - {id} == Existing(registry);
  }

  /** Storing twice under one id keeps only the later manager. */
  lemma StoreReplaces<V>(registry: Option<map<string, V>>, id: string, v: V, w: V)
    ensures Stored(Some(Stored(registry, id, v)), id, w) == Stored(registry, id, w)
  {
  }

  /** The level `handle_log_level` reads: the `log_level` option, "Default" when absent. */
  function LogLevel(options: map<string, Value>): (level: Value)
    ensures ConfLogLevel !in options ==> level == Str(LogLevelDefault)
    ensures ConfLogLevel in options ==> level == options[ConfLogLevel]
  {
    Get(options, ConfLogLevel, Str(LogLevelDefault))
  }

  /**
    The service call `handle_log_level` makes for an entry's options: none for
    the default level, one `logger.set_level` call with the lower-cased level
    otherwise.  `Err(level)` is the `lower()` that raises on a level that is not
    a string.
   */
  function LogLevelCall(options: map<string, Value>): (r: Result<Option<ServiceCall>, Value>)
    ensures r == Ok(None) <==> LogLevel(options) == Str(LogLevelDefault)
    ensures r.Err? <==> !LogLevel(options).Str?
    ensures r.Err? ==> r.error == LogLevel(options)
    ensures r.Ok? && r.value.Some? ==>
      var level := LogLevel(options).s;
      && level != LogLevelDefault
      && r.value.value == ServiceCall(DomainLogger, ServiceSetLevel, map[LoggerName := Str(Lower(level))])
  {
    var level := LogLevel(options);
    if level == Str(LogLevelDefault) then Ok(None)
    else if !level.Str? then Err(level)
    else Ok(Some(ServiceCall(DomainLogger, ServiceSetLevel, map[LoggerName := Str(Lower(level.s))])))
  }

  /** The part of `hass` the helpers use: `hass.data[DATA]` and the service calls made so far. */
  class HassData {
    /** `hass.data[DATA]`; None until a helper creates it. */
    var registry: Option<map<string, HomeAssistantManager>>
    var serviceCalls: seq<ServiceCall>

    constructor ()
      ensures registry == None && serviceCalls == []
    {
      registry := None;
      serviceCalls := [];
    }

    /**
      `clear_ha(hass, entry_id)`: creates the registry when missing, then
      removes `entryId`; `raised` is the `KeyError` of a missing id.
     */
    method ClearHa(entryId: string) returns (raised: bool)
      modifies this
      ensures raised <==> entryId !in Existing(old(registry))
      ensures raised ==> registry == Some(Existing(old(registry)))
      ensures !raised ==> registry == Cleared(old(registry), entryId)
      ensures serviceCalls == old(serviceCalls)
    {
      if registry.None? {
        registry := Some(map[]);
      }
      if entryId !in registry.value {
        raised := true;
        return;
      }
      raised := false;
      registry := Some(registry.value - {entryId});
    }

    /** `get_ha(hass, entry_id)`: the stored manager, None when the registry or the id is missing. */
    function GetHa(entryId: string): (r: Option<HomeAssistantManager>)
      reads this
      ensures r.Some? <==> registry.Some? && entryId in registry.value
      ensures r.Some? ==> r.value == registry.value[entryId]
    {
      var haData := Existing(registry);
      Lookup(haData, entryId)
    }

    /**
      `async_set_ha(hass, entry)`: a new manager, initialised from the entry,
      stored under the entry's id.
     */
    method AsyncSetHa(entry: ConfigEntry, now: int) returns (instance: HomeAssistantManager)
      modifies this
      ensures fresh(instance) && fresh(instance.configManager)
      ensures instance.configManager.configEntry == Some(entry) && instance.integrationName == Some(entry.title)
      ensures !instance.isInitialized && !instance.isUpdating
      ensures registry == Some(Stored(old(registry), entry.entryId, instance))
      ensures serviceCalls == old(serviceCalls)
    {
      if registry.None? {
        registry := Some(map[]);
      }
      instance := new HomeAssistantManager(now);
      instance.AsyncInit(entry);
      registry := Some(registry.value[entry.entryId := instance]);
    }

    /** `handle_log_level(hass, entry)`; `raised` is a level that is not a string. */
    method HandleLogLevel(entry: ConfigEntry) returns (raised: bool)
      modifies this
      ensures raised <==> LogLevelCall(entry.options).Err?
      ensures serviceCalls == old(serviceCalls) +
        (match LogLevelCall(entry.options) case Ok(Some(c)) => [c] case _ => [])
      ensures registry == old(registry)
    {
      var logLevel := Get(entry.options, ConfLogLevel, Str(LogLevelDefault));
      raised := false;
      if logLevel == Str(LogLevelDefault) {
        return;
      }
      if !logLevel.Str? {
        raised := true;
        return;
      }
      var logLevelData := map[LoggerName := Str(Lower(logLevel.s))];
      serviceCalls := serviceCalls + [ServiceCall(DomainLogger, ServiceSetLevel, logLevelData)];
    }
  }
}
