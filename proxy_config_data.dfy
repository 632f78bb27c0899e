/** The `ConfigData` record of the `switcher_api` package. */
module ProxyConfigData {
  import opened PyValues
  import opened ProxyConst

  /** Fields hold whatever `dict.get` returned, hence `Value`. */
  datatype ConfigData = ConfigData(
    name: string,
    ipAddress: Value,
    deviceId: Value,
    autoOff: Value,
    logLevel: Value)

  /** `ConfigData()` */
  function Default(): (c: ConfigData)
    ensures c.name == DefaultName
    ensures c.ipAddress == Str("") && c.deviceId == Str("")
    ensures c.autoOff == Null
    ensures c.logLevel == Str(LogLevelDefault)
  {
    ConfigData(DefaultName, Str(""), Str(""), Null, Str(LogLevelDefault))
  }

  /** The dict that `__repr__` formats, as its (key, value) items in order. */
  function ReprItems(c: ConfigData): (items: seq<(string, Value)>)
    ensures |items| == 4
    ensures items[0] == (ConfName, Str(c.name))
    ensures items[1] == (ConfIpAddress, c.ipAddress)
    ensures items[2] == (ConfDeviceId, c.deviceId)
    ensures items[3] == (ConfAutoOff, c.autoOff)
  {
    [(ConfName, Str(c.name)), (ConfIpAddress, c.ipAddress), (ConfDeviceId, c.deviceId), (ConfAutoOff, c.autoOff)]
  }

  /** `__repr__`; `repr` stands for Python's `repr` of a value. */
  function Repr(c: ConfigData, repr: Value -> string): string {
    DictRepr(ReprItems(c), repr)
  }

  /** The repr's keys are exactly name, ip address, device id and auto-off, each once. */
  lemma ReprKeys(c: ConfigData)
    ensures forall i, j :: 0 <= i < j < |ReprItems(c)| ==> ReprItems(c)[i].0 != ReprItems(c)[j].0
    ensures (set i | 0 <= i < |ReprItems(c)| :: ReprItems(c)[i].0) == {ConfName, ConfIpAddress, ConfDeviceId, ConfAutoOff}
  {
    var items := ReprItems(c);
    assert forall i | 0 <= i < 4 :: items[i].0 in {ConfName, ConfIpAddress, ConfDeviceId, ConfAutoOff};
    assert items[0].0 == ConfName && items[1].0 == ConfIpAddress && items[2].0 == ConfDeviceId && items[3].0 == ConfAutoOff;
  }

  /** The log level never reaches the repr. */
  lemma ReprIgnoresLogLevel(c: ConfigData, level: Value, repr: Value -> string)
    ensures Repr(c.(logLevel := level), repr) == Repr(c, repr)
  {
  }
}
