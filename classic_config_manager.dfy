/** `ConfigManager` of the `switcher` package and the config entry it reads. */
module ClassicConfigManager {
  import opened Wrappers
  import opened PyValues
  import opened ClassicConfigData

  /** A Home Assistant config entry, reduced to what the integration reads. */
  datatype ConfigEntry = ConfigEntry(
    entryId: string,
    title: string,
    data: map<string, Value>,
    options: map<string, Value>)

  /** `ConfigManager.get_basic_data(data)` */
  function GetBasicData(k: Constants, data: Option<map<string, Value>>): (c: ConfigData)
    ensures c.name == k.defaultName && c.phoneId == k.defaultPhoneId && c.devicePassword == k.defaultDevicePassword
    ensures c.logLevel == Str(k.logLevelDefault)
    ensures data.None? ==> c == Default(k)
    ensures data.Some? ==> c.host == (if ConfHost in data.value then data.value[ConfHost] else Null)
    ensures data.Some? ==> c.deviceId == (if ConfDeviceId in data.value then data.value[ConfDeviceId] else Null)
  {
    match data
    case None => Default(k)
    case Some(d) => Default(k).(host := Get(d, ConfHost, Null), deviceId := Get(d, ConfDeviceId, Null))
  }

  /** The record `ConfigManager.update(entry)` builds. */
  function FromEntry(k: Constants, entry: ConfigEntry): (c: ConfigData)
    ensures c.name == k.defaultName
    ensures c.phoneId == k.defaultPhoneId && c.devicePassword == k.defaultDevicePassword
    ensures c.logLevel == (if k.confLogLevel in entry.options then entry.options[k.confLogLevel] else Str(k.logLevelDefault))
    ensures c.host == (if ConfHost in entry.data then entry.data[ConfHost] else Null)
    ensures c.deviceId == (if ConfDeviceId in entry.data then entry.data[ConfDeviceId] else Null)
  {
    GetBasicData(k, Some(entry.data)).(
      logLevel := Get(entry.options, k.confLogLevel, Str(k.logLevelDefault)),
      deviceId := Get(entry.data, ConfDeviceId, Null),
      host := Get(entry.data, ConfHost, Null))
  }

  /** The entry a config flow saves for a record: host and device id as data, the log level as an option. */
  function EntryFor(k: Constants, c: ConfigData, entryId: string, title: string): ConfigEntry {
    ConfigEntry(entryId, title,
      map[ConfHost := c.host, ConfDeviceId := c.deviceId],
      map[k.confLogLevel := c.logLevel])
  }

  /**
    Saving a record in an entry and reading it back gives the record again,
    provided its name and credentials are the defaults, which `update` never changes.
   */
  lemma FromEntryRoundTrip(k: Constants, c: ConfigData, entryId: string, title: string)
    requires c.name == k.defaultName && c.phoneId == k.defaultPhoneId && c.devicePassword == k.defaultDevicePassword
    ensures FromEntry(k, EntryFor(k, c, entryId, title)) == c
  {
  }

  class ConfigManager {
    const constants: Constants
    /** `config_entry` and `data`; both are unset until the first `update`. */
    var configEntry: Option<ConfigEntry>
    var data: Option<ConfigData>

    constructor (k: Constants)
      ensures constants == k && configEntry == None && data == None
    {
      constants := k;
      configEntry := None;
      data := None;
    }

    /** `update(config_entry)` */
    method Update(entry: ConfigEntry)
      modifies this
      ensures configEntry == Some(entry)
      ensures data == Some(FromEntry(constants, entry))
    {
      var result := GetBasicData(constants, Some(entry.data));
      result := result.(logLevel := Get(entry.options, constants.confLogLevel, Str(constants.logLevelDefault)));
      result := result.(deviceId := Get(entry.data, ConfDeviceId, Null));
      result := result.(host := Get(entry.data, ConfHost, Null));
      configEntry := Some(entry);
      data := Some(result);
    }
  }
}
