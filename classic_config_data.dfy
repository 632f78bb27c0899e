/**
  The `ConfigData` record of the `switcher` package.  That package's constants
  file is not part of this model, so its default values and key names are a
  `Constants` record the caller supplies.
 */
module ClassicConfigData {
  import opened PyValues

  /** The `switcher` package's constants that its core uses. */
  datatype Constants = Constants(
    defaultName: string,
    defaultPhoneId: string,
    defaultDeviceId: string,
    defaultDevicePassword: string,
    logLevelDefault: string,
    confLogLevel: string)

  const ConfName := "name"
  const ConfHost := "host"
  const ConfDeviceId := "device_id"

  datatype ConfigData = ConfigData(
    name: string,
    host: Value,
    phoneId: string,
    deviceId: Value,
    devicePassword: string,
    logLevel: Value)

  /** `ConfigData()` */
  function Default(k: Constants): (c: ConfigData)
    ensures c.name == k.defaultName && c.host == Str("")
    ensures c.phoneId == k.defaultPhoneId
    ensures c.deviceId == Str(k.defaultDeviceId)
    ensures c.devicePassword == k.defaultDevicePassword
    ensures c.logLevel == Str(k.logLevelDefault)
  {
    ConfigData(k.defaultName, Str(""), k.defaultPhoneId, Str(k.defaultDeviceId), k.defaultDevicePassword, Str(k.logLevelDefault))
  }

  /** The dict that `__repr__` formats, as its (key, value) items in order. */
  function ReprItems(c: ConfigData): (items: seq<(string, Value)>)
    ensures |items| == 3
    ensures items[0] == (ConfName, Str(c.name))
    ensures items[1] == (ConfHost, c.host)
    ensures items[2] == (ConfDeviceId, c.deviceId)
  {
    [(ConfName, Str(c.name)), (ConfHost, c.host), (ConfDeviceId, c.deviceId)]
  }

  /** `__repr__`; `repr` stands for Python's `repr` of a value. */
  function Repr(c: ConfigData, repr: Value -> string): string {
    DictRepr(ReprItems(c), repr)
  }

  /**
    The credentials never reach the repr: changing the phone id, the device
    password or the log level leaves it as it was.
   */
  lemma ReprHidesSecrets(c: ConfigData, phoneId: string, password: string, level: Value, repr: Value -> string)
    ensures Repr(c.(phoneId := phoneId, devicePassword := password, logLevel := level), repr) == Repr(c, repr)
  {
  }
}
