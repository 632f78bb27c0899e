/** `ConfigManager` of the `switcher_api` package and the config entry it reads. */
module ProxyConfigManager {
  import opened Wrappers
  import opened PyValues
  import opened ProxyConst
  import opened ProxyConfigData

  /** A Home Assistant config entry, reduced to what the integration reads. */
  datatype ConfigEntry = ConfigEntry(
    entryId: string,
    title: string,
    data: map<string, Value>,
    options: map<string, Value>)

  /** `ConfigManager.get_basic_data(data)` */
  function GetBasicData(data: Option<map<string, Value>>): (c: ConfigData)
    ensures c.name == DefaultName && c.autoOff == Null && c.logLevel == Str(LogLevelDefault)
    ensures data.None? ==> c == Default()
    ensures data.Some? ==> c.ipAddress == (if ConfIpAddress in data.value then data.value[ConfIpAddress] else Null)
    ensures data.Some? ==> c.deviceId == (if ConfDeviceId in data.value then data.value[ConfDeviceId] else Null)
  {
    match data
    case None => Default()
    case Some(d) => Default().(ipAddress := Get(d, ConfIpAddress, Null), deviceId := Get(d, ConfDeviceId, Null))
  }

  /** The record `ConfigManager.update(entry)` builds. */
  function FromEntry(entry: ConfigEntry): (c: ConfigData)
    ensures c.name == DefaultName
    ensures c.logLevel == (if ConfLogLevel in entry.options then entry.options[ConfLogLevel] else Str(LogLevelDefault))
    ensures c.autoOff == (if ConfAutoOff in entry.options then entry.options[ConfAutoOff] else Null)
    ensures c.ipAddress == (if ConfIpAddress in entry.data then entry.data[ConfIpAddress] else Null)
    ensures c.deviceId == (if ConfDeviceId in entry.data then entry.data[ConfDeviceId] else Null)
  {
    GetBasicData(Some(entry.data)).(
      logLevel := Get(entry.options, ConfLogLevel, Str(LogLevelDefault)),
      deviceId := Get(entry.data, ConfDeviceId, Null),
      ipAddress := Get(entry.data, ConfIpAddress, Null),
      autoOff := Get(entry.options, ConfAutoOff, Null))
  }

  /**
    The entry a config flow saves for a record: the data form's fields
    (ip address, device id) and the options form's fields (auto-off, log level).
   */
  function EntryFor(c: ConfigData, entryId: string, title: string): ConfigEntry {
    ConfigEntry(entryId, title,
      map[ConfIpAddress := c.ipAddress, ConfDeviceId := c.deviceId],
      map[ConfAutoOff := c.autoOff, ConfLogLevel := c.logLevel])
  }

  /** Saving a record's fields in an entry and reading the entry back gives the record again. */
  lemma FromEntryRoundTrip(c: ConfigData, entryId: string, title: string)
    requires c.name == DefaultName
    ensures FromEntry(EntryFor(c, entryId, title)) == c
  {
  }

  class ConfigManager {
    /** `config_entry` and `data`; both are unset until the first `update`. */
    var configEntry: Option<ConfigEntry>
    var data: Option<ConfigData>

    constructor ()
      ensures configEntry == None && data == None
    {
      configEntry := None;
      data := None;
    }

    /** `update(config_entry)` */
    method Update(entry: ConfigEntry)
      modifies this
      ensures configEntry == Some(entry)
      ensures data == Some(FromEntry(entry))
    {
      var result := GetBasicData(Some(entry.data));
      result := result.(logLevel := Get(entry.options, ConfLogLevel, Str(LogLevelDefault)));
      result := result.(deviceId := Get(entry.data, ConfDeviceId, Null));
      result := result.(ipAddress := Get(entry.data, ConfIpAddress, Null));
      result := result.(autoOff := Get(entry.options, ConfAutoOff, Null));
      configEntry := Some(entry);
      data := Some(result);
    }
  }
}
