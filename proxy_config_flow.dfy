/**
  `ConfigFlowManager` of the `switcher_api` package: the state behind the
  integration's config and options forms.  Calls into Home Assistant and the
  device are parameters: `stateResponse` is the device's answer to a state
  request, `parse` is `datetime.strptime(s, "%H:%M:%S")` (None when it raises),
  `ha` is the API of the manager `get_ha` finds for the flow's entry.
 */
module ProxyConfigFlow {
  import opened Wrappers
  import opened PyValues
  import opened ProxyConst
  import opened ProxyConfigData
  import opened ProxyConfigManager
  import opened ProxyApi
  import opened DictClone

  /** `CONFIG_FLOW_DATA`, `CONFIG_FLOW_OPTIONS` and `CONFIG_FLOW_INIT`. */
  datatype Flow = FlowData | FlowOptions | FlowInit

  /** The exceptions a flow step can end with. */
  datatype FlowError =
    | AutoOffError(autoOff: Value, code: string)
    | LoginError(errors: map<string, Value>)
    | Raised    // any other exception, raised by a call the flow makes

  /** A time parsed from `"%H:%M:%S"`. */
  datatype TimeOfDay = TimeOfDay(hour: int, minute: int, second: int)

  /** `config_entries.async_update_entry(entry, data=data)` */
  datatype EntryUpdate = EntryUpdate(entry: Option<ConfigEntry>, data: Option<map<string, Value>>)

  const AutoOffBelowMinimum := "auto-off-below-minimum"
  const AutoOffAboveMaximum := "auto-off-above-maximum"
  const MinAutoOffMinutes := 60
  const MaxAutoOffMinutes := 180

  /** The errors of a login that got no state from the device. */
  const InvalidServerDetails: map<string, Value> := map["base" := Str("invalid_server_details")]

  /**
    The entry `_update_entry` hands to the config manager: the flow's data and
    options (Home Assistant stores options None as an empty mapping).
   */
  function FlowEntry(data: map<string, Value>, options: Option<map<string, Value>>): (e: ConfigEntry)
    ensures e.data == data && e.options == options.GetOr(map[])
  {
    ConfigEntry("", "", data, options.GetOr(map[]))
  }

  /**
    Lines 77-82 of `update_options`: the auto-off time in whole minutes (its
    seconds are ignored) must lie in 60..180.
   */
  function CheckAutoOff(autoOff: Value, t: TimeOfDay): (r: Option<FlowError>)
    ensures r.None? <==> MinAutoOffMinutes <= t.hour * 60 + t.minute <= MaxAutoOffMinutes
    ensures t.hour * 60 + t.minute < MinAutoOffMinutes ==> r == Some(AutoOffError(autoOff, AutoOffBelowMinimum))
    ensures t.hour * 60 + t.minute > MaxAutoOffMinutes ==> r == Some(AutoOffError(autoOff, AutoOffAboveMaximum))
  {
    var totalMinutes := t.hour * 60 + t.minute;
    if totalMinutes < MinAutoOffMinutes then Some(AutoOffError(autoOff, AutoOffBelowMinimum))
    else if totalMinutes > MaxAutoOffMinutes then Some(AutoOffError(autoOff, AutoOffAboveMaximum))
    else None
  }

  /** The seconds of the auto-off time never change the verdict. */
  lemma CheckAutoOffIgnoresSeconds(autoOff: Value, t: TimeOfDay, second: int)
    ensures CheckAutoOff(autoOff, t.(second := second)) == CheckAutoOff(autoOff, t)
  {
  }

  /**
    Lines 72-84 of `update_options` in the options flow: the `auto-off` option
    is parsed and checked, and the manager is looked up.  A missing or
    non-string option makes `strptime` raise, as does an unparsable one; a
    flow without an entry, or an entry without a manager, raises when the
    manager's API is reached.
   */
  function AutoOffStep(options: map<string, Value>, parse: string -> Option<TimeOfDay>,
                       hasEntry: bool, haFound: bool): (r: Result<TimeOfDay, FlowError>)
    ensures r.Ok? ==> ConfAutoOff in options && options[ConfAutoOff].Str? && parse(options[ConfAutoOff].s) == Some(r.value)
    ensures r.Ok? ==> MinAutoOffMinutes <= r.value.hour * 60 + r.value.minute <= MaxAutoOffMinutes && hasEntry && haFound
    ensures r.Err? && r.error.AutoOffError? ==>
      && ConfAutoOff in options && options[ConfAutoOff].Str? && parse(options[ConfAutoOff].s).Some?
      && Some(r.error) == CheckAutoOff(options[ConfAutoOff], parse(options[ConfAutoOff].s).value)
    ensures r.Err? && !r.error.AutoOffError? ==> r.error == Raised
  {
    var autoOffStr := Get(options, ConfAutoOff, Null);
    if !autoOffStr.Str? then Err(Raised)
    else match parse(autoOffStr.s)
      case None => Err(Raised)
      case Some(t) =>
        match CheckAutoOff(autoOffStr, t)
        case Some(e) => Err(e)
        case None => if hasEntry && haFound then Ok(t) else Err(Raised)
  }

  /**
    `_valid_login` as intended: with the device's state (`state`) and the
    stored config, either the new title "{DEFAULT_NAME} ({ip_address})" or the
    error it raises.  Without a stored config reading its ip address raises.
   */
  function Login(state: Option<map<string, Value>>, config: Option<ConfigData>, other: Value -> string): (r: Result<string, FlowError>)
    ensures config.None? ==> r == Err(Raised)
    ensures config.Some? && state.None? ==> r == Err(LoginError(InvalidServerDetails))
    ensures r.Ok? <==> config.Some? && state.Some?
    ensures r.Ok? ==> r.value == DefaultName + " (" + Format(config.value.ipAddress, other) + ")"
  {
    match config
    case None => Err(Raised)
    case Some(c) =>
      if state.None? then Err(LoginError(InvalidServerDetails))
      else Ok(DefaultName + " (" + Format(c.ipAddress, other) + ")")
  }

  /**
    `_valid_login` as written: it calls `api.get_state()`, which this
    package's `SwitcherApi` does not define, so every call raises.
   */
  function LoginAsWritten(state: Option<map<string, Value>>, config: Option<ConfigData>, other: Value -> string): (r: Result<string, FlowError>)
    ensures r == Err(Raised)
  {
    Err(Raised)
  }

  /** A reachable device with a stored config passes the intended login but not the one as written. */
  lemma LoginAsWrittenRejectsReachableDevice(state: map<string, Value>, config: ConfigData, other: Value -> string)
    ensures Login(Some(state), Some(config), other).Ok?
    ensures LoginAsWritten(Some(state), Some(config), other).Err?
  {
  }

  /** The error of a step's result, if any. */
  function Failure<T>(r: Result<T, FlowError>): Option<FlowError> {
    match r
    case Ok(_) => None
    case Err(e) => Some(e)
  }

  class ConfigFlowManager {
    var configManager: ConfigManager
    var configEntry: Option<ConfigEntry>
    /** `_options` and `_data`: None until the first update. */
    var options: Option<map<string, Value>>
    var data: Option<map<string, Value>>
    var title: string
    /** The `async_update_entry` calls made so far. */
    var entryUpdates: seq<EntryUpdate>

    constructor ()
      ensures fresh(configManager) && configManager.configEntry == None && configManager.data == None
      ensures configEntry == None && options == None && data == None
      ensures title == DefaultName && entryUpdates == []
    {
      configManager := new ConfigManager();
      configEntry := None;
      options := None;
      data := None;
      title := DefaultName;
      entryUpdates := [];
    }

    /** `_update_entry()`: building an entry from missing data raises. */
    method UpdateEntry() returns (raised: bool)
      modifies configManager
      ensures raised <==> data.None?
      ensures raised ==> unchanged(configManager)
      ensures !raised ==> configManager.configEntry == Some(FlowEntry(data.value, options))
      ensures !raised ==> configManager.data == Some(FromEntry(FlowEntry(data.value, options)))
    {
      if data.None? {
        return true;
      }
      var entry := ConfigEntry("", "", data.value, if options.Some? then options.value else map[]);
      configManager.Update(entry);
      raised := false;
    }

    /** `_valid_login()` as intended, with the state `_get_state()` reads from the device's answer. */
    method ValidLogin(stateResponse: Option<Response>, other: Value -> string) returns (err: Option<FlowError>)
      modifies this
      ensures err == Failure(Login(Fetch(stateResponse), configManager.data, other))
      ensures title == (match Login(Fetch(stateResponse), configManager.data, other) case Ok(t) => t case Err(_) => old(title))
      ensures configManager == old(configManager) && configEntry == old(configEntry)
      ensures options == old(options) && data == old(data) && entryUpdates == old(entryUpdates)
    {
      var configData := configManager.data;
      var state := Fetch(stateResponse);
      if configData.None? {
        return Some(Raised);
      }
      if state.None? {
        return Some(LoginError(InvalidServerDetails));
      }
      title := DefaultName + " (" + Format(configData.value.ipAddress, other) + ")";
      err := None;
    }

    /** `_valid_login()` as written: the `get_state` call raises before anything changes. */
    method ValidLoginAsWritten(stateResponse: Option<Response>, other: Value -> string) returns (err: Option<FlowError>)
      ensures err == Failure(LoginAsWritten(Fetch(stateResponse), configManager.data, other))
    {
      err := Some(Raised);
    }

    /** `_handle_data(flow)`: the login check outside the init flow, then the entry write-back in the options flow. */
    method HandleData(flow: Flow, stateResponse: Option<Response>, other: Value -> string) returns (err: Option<FlowError>)
      modifies this
      ensures flow == FlowInit ==> err == None && title == old(title)
      ensures flow != FlowInit ==> err == Failure(Login(Fetch(stateResponse), configManager.data, other))
      ensures flow != FlowInit ==>
        title == (match Login(Fetch(stateResponse), configManager.data, other) case Ok(t) => t case Err(_) => old(title))
      ensures entryUpdates == old(entryUpdates) + (if flow == FlowOptions && err.None? then [EntryUpdate(configEntry, data)] else [])
      ensures configManager == old(configManager) && configEntry == old(configEntry)
      ensures options == old(options) && data == old(data)
    {
      err := None;
      if flow != FlowInit {
        err := ValidLogin(stateResponse, other);
        if err.Some? {
          return;
        }
      }
      if flow == FlowOptions {
        entryUpdates := entryUpdates + [EntryUpdate(configEntry, data)];
      }
    }

    /** `update_data(data, flow)`: store a copy, update the config, then handle it. */
    method UpdateData(input: map<string, Value>, flow: Flow, stateResponse: Option<Response>, other: Value -> string)
      returns (result: Result<map<string, Value>, FlowError>)
      modifies this, configManager
      ensures data == Some(input) && options == old(options) && configEntry == old(configEntry)
      ensures configManager == old(configManager)
      ensures configManager.data == Some(FromEntry(FlowEntry(input, options)))
      ensures flow == FlowInit ==> result == Ok(input) && title == old(title)
      ensures flow != FlowInit ==>
        match Login(Fetch(stateResponse), configManager.data, other)
        case Ok(t) => result == Ok(input) && title == t
        case Err(e) => result == Err(e) && title == old(title)
      ensures entryUpdates == old(entryUpdates) + (if flow == FlowOptions && result.Ok? then [EntryUpdate(configEntry, Some(input))] else [])
    {
      var clone := CloneItems(Some(input));
      CloneIsCopy(input, clone);
      data := Some(clone);
      var raised := UpdateEntry();
      var err := HandleData(flow, stateResponse, other);
      result := if err.Some? then Err(err.value) else Ok(clone);
    }

    /**
      `update_options(options, flow)`: store a copy and update the config
      first; in the options flow then validate the auto-off time, send it to
      the device and delete it from the caller's dict (`callerOptions`).  The
      copy returned keeps it.
     */
    method UpdateOptions(input: map<string, Value>, flow: Flow, parse: string -> Option<TimeOfDay>,
                         ha: Option<SwitcherApi>, response: Option<bool>)
      returns (result: Result<map<string, Value>, FlowError>, callerOptions: map<string, Value>)
      modifies this, configManager, if ha.Some? then {ha.value} else {}
      ensures options == Some(input) && data == old(data) && configEntry == old(configEntry)
      ensures title == old(title) && entryUpdates == old(entryUpdates) && configManager == old(configManager)
      ensures data.None? ==> result == Err(Raised) && callerOptions == input && unchanged(configManager)
      ensures data.Some? ==> configManager.data == Some(FromEntry(FlowEntry(data.value, options)))
      ensures data.Some? && flow != FlowOptions ==> result == Ok(input) && callerOptions == input
      ensures data.Some? && flow == FlowOptions ==>
        var step := AutoOffStep(input, parse, configEntry.Some?, ha.Some?);
        && result == (if step.Ok? then Ok(input) else Err(step.error))
        && callerOptions == (if step.Ok? then input - {ConfAutoOff} else input)
        && (step.Ok? ==> ha.value.sent == old(ha.value.sent) + [DeviceCall.SetAutoShutdown(step.value.hour, step.value.minute)])
      ensures (data.None? || flow != FlowOptions || AutoOffStep(input, parse, configEntry.Some?, ha.Some?).Err?) && ha.Some? ==>
        unchanged(ha.value)
    {
      var newOptions := CloneItems(Some(input));
      CloneIsCopy(input, newOptions);
      options := Some(newOptions);
      callerOptions := input;
      var raised := UpdateEntry();
      if raised {
        return Err(Raised), callerOptions;
      }
      if flow == FlowOptions {
        var step := AutoOffStep(input, parse, configEntry.Some?, ha.Some?);
        if step.Err? {
          return Err(step.error), callerOptions;
        }
        var ok := ha.value.SetAutoShutdown(step.value.hour, step.value.minute, response);
        callerOptions := callerOptions - {ConfAutoOff};
      }
      result := Ok(newOptions);
    }

    /**
      `initialize(hass, config_entry)`: a new config manager, the entry's title
      when there is an entry, then its data and options in the init flow.
     */
    method Initialize(entry: Option<ConfigEntry>)
      modifies this
      ensures configEntry == entry && entryUpdates == old(entryUpdates)
      ensures title == (if entry.Some? then entry.value.title else old(title))
      ensures data == Some(if entry.Some? then entry.value.data else map[])
      ensures options == Some(if entry.Some? then entry.value.options else map[])
      ensures fresh(configManager)
      ensures configManager.data == Some(FromEntry(FlowEntry(data.value, options)))
      ensures entry.Some? ==> configManager.data == Some(FromEntry(entry.value))
    {
      configEntry := entry;
      configManager := new ConfigManager();
      var entryData, entryOptions := map[], map[];
      if configEntry.Some? {
        entryData := configEntry.value.data;
        entryOptions := configEntry.value.options;
        title := configEntry.value.title;
      }
      var r := UpdateData(entryData, FlowInit, None, _ => "");
      var r', left := UpdateOptions(entryOptions, FlowInit, _ => None, None, None);
    }
  }
}
