/**
  `ConfigFlowManager` of the `switcher` package.  It has no auto-off option
  and never validates options; the login check builds its own `SwitcherApi`.
  `answer` is the device's answer to that API's state request.
 */
module ClassicConfigFlow {
  import opened Wrappers
  import opened PyValues
  import opened ClassicConfigData
  import opened ClassicConfigManager
  import opened ClassicApi
  import opened DictClone

  /** `CONFIG_FLOW_DATA`, `CONFIG_FLOW_OPTIONS` and `CONFIG_FLOW_INIT`. */
  datatype Flow = FlowData | FlowOptions | FlowInit

  /** `config_entries.async_update_entry(entry, data=data)` */
  datatype EntryUpdate = EntryUpdate(entry: Option<ConfigEntry>, data: Option<map<string, Value>>)

  /** The errors `LoginError` carries when the device gave no state. */
  const InvalidServerDetails: map<string, Value> := map["base" := Str("invalid_server_details")]

  /** The entry `_update_entry` hands to the config manager. */
  function FlowEntry(data: map<string, Value>, options: Option<map<string, Value>>): (e: ConfigEntry)
    ensures e.data == data && e.options == options.GetOr(map[])
  {
    ConfigEntry("", "", data, options.GetOr(map[]))
  }

  /**
    `_valid_login`'s verdict on the state it read: the new title
    "{DEFAULT_NAME} ({host})", or the `LoginError` errors (None config: the
    host cannot be read, which raises, shown as `Err(map[])`).
   */
  function Login(k: Constants, state: Option<map<string, Value>>, config: Option<ConfigData>, other: Value -> string)
    : (r: Result<string, map<string, Value>>)
    ensures config.None? ==> r == Err(map[])
    ensures config.Some? && state.None? ==> r == Err(InvalidServerDetails)
    ensures r.Ok? <==> config.Some? && state.Some?
    ensures r.Ok? ==> r.value == k.defaultName + " (" + Format(config.value.host, other) + ")"
  {
    match config
    case None => Err(map[])
    case Some(c) =>
      if state.None? then Err(InvalidServerDetails)
      else Ok(k.defaultName + " (" + Format(c.host, other) + ")")
  }

  /**
    The state `_valid_login` reads as written: from a `SwitcherApi` created on
    the spot and never initialised, whose `get_state` therefore always fails.
   */
  lemma LoginAsWrittenAlwaysFails(k: Constants, keys: StateKeys, answer: Option<DeviceState>, config: ConfigData,
                                  other: Value -> string)
    ensures Login(k, FetchState(keys, false, answer), Some(config), other) == Err(InvalidServerDetails)
    ensures answer.Some? && answer.value.msgType == StateType && answer.value.successful ==>
      Login(k, FetchState(keys, true, answer), Some(config), other).Ok?
  {
  }

  class ConfigFlowManager {
    const keys: StateKeys
    var configManager: ConfigManager
    var configEntry: Option<ConfigEntry>
    /** `_options` and `_data`: None until the first update. */
    var options: Option<map<string, Value>>
    var data: Option<map<string, Value>>
    var title: string
    /** The `async_update_entry` calls made so far. */
    var entryUpdates: seq<EntryUpdate>

    constructor (k: Constants, keys: StateKeys)
      ensures this.keys == keys
      ensures fresh(configManager) && configManager.constants == k
      ensures configManager.configEntry == None && configManager.data == None
      ensures configEntry == None && options == None && data == None
      ensures title == k.defaultName && entryUpdates == []
    {
      this.keys := keys;
      configManager := new ConfigManager(k);
      configEntry := None;
      options := None;
      data := None;
      title := k.defaultName;
      entryUpdates := [];
    }

    /** `_get_ha(key)`: the key it looks up, the current title when none is given. */
    function HaKey(key: Option<string>): (r: string)
      reads this
      ensures key.None? ==> r == title
      ensures key.Some? ==> r == key.value
    {
      if key.None? then title else key.value
    }

    /** `_update_entry()`: building an entry from missing data raises. */
    method UpdateEntry() returns (raised: bool)
      modifies configManager
      ensures raised <==> data.None?
      ensures raised ==> unchanged(configManager)
      ensures !raised ==> configManager.configEntry == Some(FlowEntry(data.value, options))
      ensures !raised ==> configManager.data == Some(FromEntry(configManager.constants, FlowEntry(data.value, options)))
    {
      if data.None? {
        return true;
      }
      var entry := ConfigEntry("", "", data.value, if options.Some? then options.value else map[]);
      configManager.Update(entry);
      raised := false;
    }

    /**
      `_valid_login()` as written: the new `SwitcherApi` is never initialised,
      so its state request fails and the login error is raised.
     */
    method ValidLoginAsWritten(answer: Option<DeviceState>, other: Value -> string) returns (error: Option<map<string, Value>>)
      ensures configManager.data.Some? ==> error == Some(InvalidServerDetails)
      ensures configManager.data.None? ==> error == Some(map[])
    {
      var configData := configManager.data;
      var api := new SwitcherApi(keys);
      var state := FetchState(keys, api.initialized, answer);
      if configData.None? {
        return Some(map[]);
      }
      if state.None? {
        return Some(InvalidServerDetails);
      }
      error := None;
    }

    /** `_valid_login()` with the API initialised before its state is read. */
    method ValidLogin(answer: Option<DeviceState>, other: Value -> string) returns (error: Option<map<string, Value>>)
      modifies this
      ensures var r := Login(configManager.constants, GetState(keys, answer), configManager.data, other);
        && error == (if r.Ok? then None else Some(r.error))
        && title == (if r.Ok? then r.value else old(title))
      ensures configManager == old(configManager) && configEntry == old(configEntry)
      ensures options == old(options) && data == old(data) && entryUpdates == old(entryUpdates)
    {
      var configData := configManager.data;
      var api := new SwitcherApi(keys);
      api.Initialize();
      var state := FetchState(keys, api.initialized, answer);
      if configData.None? {
        return Some(map[]);
      }
      if state.None? {
        return Some(InvalidServerDetails);
      }
      title := configManager.constants.defaultName + " (" + Format(configData.value.host, other) + ")";
      error := None;
    }

    /** `_handle_data(flow)`: the login check outside the init flow, then the entry write-back in the options flow. */
    method HandleData(flow: Flow, answer: Option<DeviceState>, other: Value -> string) returns (error: Option<map<string, Value>>)
      modifies this
      ensures flow == FlowInit ==> error == None && title == old(title)
      ensures flow != FlowInit ==>
        var r := Login(configManager.constants, GetState(keys, answer), configManager.data, other);
        && error == (if r.Ok? then None else Some(r.error))
        && title == (if r.Ok? then r.value else old(title))
      ensures entryUpdates == old(entryUpdates) + (if flow == FlowOptions && error.None? then [EntryUpdate(configEntry, data)] else [])
      ensures configManager == old(configManager) && configEntry == old(configEntry)
      ensures options == old(options) && data == old(data)
    {
      error := None;
      if flow != FlowInit {
        error := ValidLogin(answer, other);
        if error.Some? {
          return;
        }
      }
      if flow == FlowOptions {
        entryUpdates := entryUpdates + [EntryUpdate(configEntry, data)];
      }
    }

    /** `update_data(data, flow)`: store a copy, update the config, then handle it. */
    method UpdateData(input: map<string, Value>, flow: Flow, answer: Option<DeviceState>, other: Value -> string)
      returns (result: Result<map<string, Value>, map<string, Value>>)
      modifies this, configManager
      ensures data == Some(input) && options == old(options) && configEntry == old(configEntry)
      ensures configManager == old(configManager)
      ensures configManager.data == Some(FromEntry(configManager.constants, FlowEntry(input, options)))
      ensures flow == FlowInit ==> result == Ok(input) && title == old(title)
      ensures flow != FlowInit ==>
        match Login(configManager.constants, GetState(keys, answer), configManager.data, other)
        case Ok(t) => result == Ok(input) && title == t
        case Err(e) => result == Err(e) && title == old(title)
      ensures entryUpdates == old(entryUpdates) + (if flow == FlowOptions && result.Ok? then [EntryUpdate(configEntry, Some(input))] else [])
    {
      var clone := CloneItems(Some(input));
      CloneIsCopy(input, clone);
      data := Some(clone);
      var raised := UpdateEntry();
      var error := HandleData(flow, answer, other);
      result := if error.Some? then Err(error.value) else Ok(clone);
    }

    /**
      `update_options(options, flow)`: store a copy and update the config; the
      login check is switched off (`validate_login = False`), so nothing else
      happens in any flow.
     */
    method UpdateOptions(input: map<string, Value>, flow: Flow) returns (newOptions: Option<map<string, Value>>)
      modifies this, configManager
      ensures options == Some(input) && data == old(data) && configEntry == old(configEntry)
      ensures title == old(title) && entryUpdates == old(entryUpdates) && configManager == old(configManager)
      ensures data.None? ==> newOptions == None && unchanged(configManager)
      ensures data.Some? ==> newOptions == Some(input)
      ensures data.Some? ==> configManager.data == Some(FromEntry(configManager.constants, FlowEntry(data.value, options)))
    {
      var clone := CloneItems(Some(input));
      CloneIsCopy(input, clone);
      options := Some(clone);
      var raised := UpdateEntry();
      if raised {
        return None;
      }
      // `validate_login` is the constant False: `_handle_data` is never reached.
      newOptions := Some(clone);
    }

    /**
      `initialize(hass, config_entry)`: a new config manager, the entry's title
      when there is an entry, then its data and options in the init flow.
     */
    method Initialize(entry: Option<ConfigEntry>)
      modifies this
      ensures configEntry == entry && entryUpdates == old(entryUpdates)
      ensures title == (if entry.Some? then entry.value.title else old(title))
      ensures data == Some(if entry.Some? then entry.value.data else map[])
      ensures options == Some(if entry.Some? then entry.value.options else map[])
      ensures fresh(configManager) && configManager.constants == old(configManager.constants)
      ensures configManager.data == Some(FromEntry(configManager.constants, FlowEntry(data.value, options)))
      ensures entry.Some? ==> configManager.data == Some(FromEntry(configManager.constants, entry.value))
    {
      configEntry := entry;
      configManager := new ConfigManager(configManager.constants);
      var entryData, entryOptions := map[], map[];
      if configEntry.Some? {
        entryData := configEntry.value.data;
        entryOptions := configEntry.value.options;
        title := configEntry.value.title;
      }
      var r := UpdateData(entryData, FlowInit, None, _ => "");
      var r' := UpdateOptions(entryOptions, FlowInit);
    }
  }
}
