/**
  The entity table of the `switcher_api` integration (`EntityManager`): a
  two-level map domain -> entity name -> record, the builders that turn the
  device state and schedules into records, and the reconciliation pass that
  marks created entities ready and collects the unique ids to delete.
 */
module Entities {
  import opened Wrappers
  import opened PyValues
  import opened ProxyConst
  import opened Bags

  /** `EntityData` */
  datatype EntityData = EntityData(
    id: Value,
    uniqueId: string,
    name: string,
    state: Value,
    attributes: map<string, Value>,
    icon: Value,
    deviceName: string,
    deviceClass: Value,
    entityType: Value,
    status: Status,
    disabled: bool)

  /** `self.entities`: domain -> entity name -> record. */
  type Table = map<string, map<string, EntityData>>

  // ---- the table as a value ----------------------------------------------

  /** The record stored under (domain, name), if any. */
  function Entry(t: Table, domain: string, name: string): (r: Option<EntityData>)
    ensures r.Some? <==> domain in t && name in t[domain]
    ensures r.Some? ==> r.value == t[domain][name]
  {
    if domain in t && name in t[domain] then Some(t[domain][name]) else None
  }

  /** `check_domain`: a missing domain is added, empty. */
  function WithDomain(t: Table, domain: string): (r: Table)
    ensures r.Keys == t.Keys + {domain}
    ensures domain !in t ==> r[domain] == map[]
    ensures forall d | d in t :: r[d] == t[d]
  {
    if domain in t then t else t[domain := map[]]
  }

  /** `set_entity`: stores `e`; every other entry is kept. */
  function Put(t: Table, domain: string, name: string, e: EntityData): Table {
    var w := WithDomain(t, domain);
    w[domain := w[domain][name := e]]
  }

  /** What `set_entity` stores is read back; every other entry is kept. */
  lemma PutEntry(t: Table, domain: string, name: string, e: EntityData)
    ensures var r := Put(t, domain, name, e);
      && r.Keys == t.Keys + {domain}
      && Entry(r, domain, name) == Some(e)
      && forall d, n | d != domain || n != name :: Entry(r, d, n) == Entry(t, d, n)
  {
  }

  /** `set_entity_status`: changes the status of an existing entry only. */
  function WithStatus(t: Table, domain: string, name: string, status: Status): (r: Table)
    ensures r.Keys == t.Keys
    ensures forall d | d in t :: r[d].Keys == t[d].Keys
    ensures Entry(t, domain, name).Some? ==> Entry(r, domain, name) == Some(t[domain][name].(status := status))
    ensures Entry(t, domain, name).None? ==> r == t
    ensures forall d, n {:trigger Entry(r, d, n)} | d != domain || n != name :: Entry(r, d, n) == Entry(t, d, n)
  {
    if domain in t && name in t[domain] then t[domain := t[domain][name := t[domain][name].(status := status)]] else t
  }

  /** `delete_entity`: removes an existing entry only; the domain stays. */
  function Removed(t: Table, domain: string, name: string): (r: Table)
    ensures r.Keys == t.Keys
    ensures Entry(r, domain, name).None?
    ensures Entry(t, domain, name).None? ==> r == t
    ensures forall d, n {:trigger Entry(r, d, n)} | d != domain || n != name :: Entry(r, d, n) == Entry(t, d, n)
  {
    if domain in t && name in t[domain] then t[domain := t[domain] - {name}] else t
  }

  /** `get_entity_status`: ENTITY_STATUS_EMPTY for a missing entry. */
  function StatusOf(t: Table, domain: string, name: string): (s: Status)
    ensures Entry(t, domain, name).None? ==> s == StatusEmpty
    ensures Entry(t, domain, name).Some? ==> s == Entry(t, domain, name).value.status
  {
    match Entry(t, domain, name)
    case None => StatusEmpty
    case Some(e) => e.status
  }

  /** Reading back what was stored: a status change is seen by `StatusOf`, a removed entry reads as empty. */
  lemma StatusRoundTrip(t: Table, domain: string, name: string, status: Status)
    ensures Entry(t, domain, name).Some? ==> StatusOf(WithStatus(t, domain, name, status), domain, name) == status
    ensures StatusOf(Removed(t, domain, name), domain, name) == StatusEmpty
    ensures StatusOf(Put(t, domain, name, EntityData(Null, "", name, Null, map[], Null, "", Null, Null, status, false)), domain, name) == status
  {
  }

  function One(e: EntityData): multiset<EntityData> {
    multiset{e}
  }

  ghost function DomainEntities(names: map<string, EntityData>): multiset<EntityData> {
    Sum(names, One)
  }

  /** Every record of every domain, with multiplicity. */
  ghost function AllEntities(t: Table): multiset<EntityData> {
    Sum(t, DomainEntities)
  }

  /** A record is among all entities exactly when it is stored under some (domain, name). */
  lemma InAllEntities(t: Table, e: EntityData)
    ensures e in AllEntities(t) <==> exists d, n :: d in t && n in t[d] && t[d][n] == e
  {
    InSum(t, DomainEntities, e);
    forall d | d in t
      ensures e in DomainEntities(t[d]) <==> exists n :: n in t[d] && t[d][n] == e
    {
      InSum(t[d], One, e);
    }
  }

  /** `is_device_name_in_use` as a property of the table. */
  ghost predicate DeviceNameInUse(t: Table, deviceName: string) {
    exists d, n :: d in t && n in t[d] && t[d][n].deviceName == deviceName
  }

  function UniqueIdOf(e: EntityData): string {
    e.uniqueId
  }

  /** The unique ids of all entities, with multiplicity. */
  ghost function UniqueIds(t: Table): multiset<string> {
    Image(AllEntities(t), UniqueIdOf)
  }

  lemma InUniqueIds(t: Table, uid: string)
    ensures uid in UniqueIds(t) <==> exists d, n :: d in t && n in t[d] && t[d][n].uniqueId == uid
  {
    InImage(AllEntities(t), UniqueIdOf, uid);
    if uid in UniqueIds(t) {
      var e :| e in AllEntities(t) && e.uniqueId == uid;
      InAllEntities(t, e);
    }
    if exists d, n :: d in t && n in t[d] && t[d][n].uniqueId == uid {
      var d, n :| d in t && n in t[d] && t[d][n].uniqueId == uid;
      InAllEntities(t, t[d][n]);
    }
  }

  // ---- builders ------------------------------------------------------------

  /**
    What a builder reads besides its argument: the integration title (the
    config entry's title), the device name the device manager reports, a fresh
    `EntityData()` (whose defaults are not part of this model) and Python's
    `str` of values other than strings, None, booleans and integers.
   */
  datatype Context = Context(title: string, deviceName: string, base: EntityData, other: Value -> string)

  /** `f"{DOMAIN}-{domain}-{entity name}"` */
  function UniqueIdFor(domain: string, name: string): (uid: string)
    ensures |uid| == |Domain| + |domain| + |name| + 2
    ensures uid[..|Domain| + |domain| + 2] == Domain + "-" + domain + "-" && uid[|Domain| + |domain| + 2..] == name
  {
    Domain + "-" + domain + "-" + name
  }

  /** Within the two entity domains the unique id determines both the domain and the name. */
  lemma UniqueIdInjective(d1: string, n1: string, d2: string, n2: string)
    requires d1 in SignalDomains && d2 in SignalDomains
    requires UniqueIdFor(d1, n1) == UniqueIdFor(d2, n2)
    ensures d1 == d2 && n1 == n2
  {
    var u1, u2 := UniqueIdFor(d1, n1), UniqueIdFor(d2, n2);
    assert |d1| == 6 && |d2| == 6;
    assert d1 == u1[13..19] && d2 == u2[13..19];
    assert n1 == u1[20..] && n2 == u2[20..];
  }

  const PowerConsumptionSuffix := " Power Consumption"
  const ElectricCurrentSuffix := " Electric Current"
  const ScheduleInfix := " Schedule #"

  /** A sensor reading `key` of the device state. */
  function Sensor(ctx: Context, suffix: string, key: string, deviceClass: string, state: map<string, Value>): (e: EntityData)
    ensures e.name == ctx.title + suffix && e.uniqueId == UniqueIdFor(DomainSensor, e.name)
    ensures e.state == Get(state, key, Null)
    ensures e.attributes == map[AttrFriendlyName := Str(e.name)]
    ensures e.deviceName == ctx.deviceName && e.deviceClass == Str(deviceClass)
    ensures e.status == ctx.base.status
  {
    var name := ctx.title + suffix;
    ctx.base.(uniqueId := UniqueIdFor(DomainSensor, name), name := name, state := Get(state, key, Null),
              attributes := map[AttrFriendlyName := Str(name)], deviceName := ctx.deviceName,
              deviceClass := Str(deviceClass))
  }

  /** `get_power_consumption_sensor(state)` */
  function PowerConsumptionSensor(ctx: Context, state: map<string, Value>): (e: EntityData)
    ensures e.name == ctx.title + PowerConsumptionSuffix && e.uniqueId == UniqueIdFor(DomainSensor, e.name)
    ensures e.state == Get(state, "power_consumption", Null) && e.deviceClass == Str("power")
  {
    Sensor(ctx, PowerConsumptionSuffix, "power_consumption", "power", state)
  }

  /** `get_electric_current_sensor(state)` */
  function ElectricCurrentSensor(ctx: Context, state: map<string, Value>): (e: EntityData)
    ensures e.name == ctx.title + ElectricCurrentSuffix && e.uniqueId == UniqueIdFor(DomainSensor, e.name)
    ensures e.state == Get(state, "electric_current", Null) && e.deviceClass == Str("current")
  {
    Sensor(ctx, ElectricCurrentSuffix, "electric_current", "current", state)
  }

  /** `{friendly_name: name}` updated with every item of `data` whose key is not excluded. */
  function Attributes(name: string, data: map<string, Value>, excluded: set<string>): (a: map<string, Value>)
    ensures a.Keys == {AttrFriendlyName} + (data.Keys - excluded)
    ensures forall k | k in data && k !in excluded :: a[k] == data[k]
    ensures AttrFriendlyName !in data || AttrFriendlyName in excluded ==> a[AttrFriendlyName] == Str(name)
  {
    map[AttrFriendlyName := Str(name)] + map k | k in data && k !in excluded :: data[k]
  }

  /** `get_main_switch(state_data)` */
  function MainSwitch(ctx: Context, stateData: map<string, Value>): (e: EntityData)
    ensures e.name == ctx.title && e.uniqueId == UniqueIdFor(DomainSwitch, e.name)
    ensures e.state == Bool(true) <==> Get(stateData, KeyState, Str(StateOff)) == Str(StateOn)
    ensures e.state.Bool?
    ensures e.icon == (if e.state.b then Str("mdi:water-boiler") else Str("mdi:water-boiler-off"))
    ensures e.attributes.Keys == {AttrFriendlyName} + (stateData.Keys - {KeyState, KeySuccessful})
    ensures forall k | k in stateData && k != KeyState && k != KeySuccessful :: e.attributes[k] == stateData[k]
    ensures e.entityType == Str(SwitchMain) && e.deviceName == ctx.deviceName
  {
    var on := Get(stateData, KeyState, Str(StateOff)) == Str(StateOn);
    ctx.base.(uniqueId := UniqueIdFor(DomainSwitch, ctx.title), name := ctx.title, state := Bool(on),
              attributes := Attributes(ctx.title, stateData, {KeyState, KeySuccessful}),
              icon := if on then Str("mdi:water-boiler") else Str("mdi:water-boiler-off"),
              deviceName := ctx.deviceName, entityType := Str(SwitchMain))
  }

  /** The description part of a schedule switch's name; None when the days cannot be joined. */
  function ScheduleDescription(ctx: Context, item: map<string, Value>): (r: Option<string>)
    ensures r.Some? <==> JoinValue(", ", Get(item, KeyDays, Null)).Some?
  {
    match JoinValue(", ", Get(item, KeyDays, Null))
    case None => None
    case Some(days) =>
      var description := days + " - " + Format(Get(item, KeyStartTime, Null), ctx.other) + "-"
                         + Format(Get(item, KeyEndTime, Null), ctx.other);
      Some(if Truthy(Get(item, KeyRecurring, Null)) then "Recurring - " + description else description)
  }

  /** The entity name of a schedule switch. */
  function ScheduleName(ctx: Context, item: map<string, Value>, description: string): string {
    ctx.title + ScheduleInfix + Format(Get(item, KeyScheduleId, Null), ctx.other) + " - " + description
  }

  /** `get_schedule_switch(schedule_item)`: None when it raises. */
  function ScheduleSwitch(ctx: Context, item: map<string, Value>): Option<EntityData> {
    match ScheduleDescription(ctx, item)
    case None => None
    case Some(description) =>
      var name := ScheduleName(ctx, item, description);
      Some(ctx.base.(id := Get(item, KeyScheduleId, Null), uniqueId := UniqueIdFor(DomainSwitch, name),
                     name := name, state := Get(item, KeyEnabled, Bool(false)),
                     attributes := Attributes(name, item, {KeyEnabled}), icon := Str("mdi:camera-timer"),
                     deviceName := ctx.deviceName, entityType := Str(SwitchSchedule)))
  }

  /**
    A schedule switch fails exactly when the schedule's days cannot be joined
    into a string; otherwise it is keyed by its name, shows whether the
    schedule is enabled and carries every other field as an attribute.
   */
  lemma ScheduleSwitchShape(ctx: Context, item: map<string, Value>)
    ensures var r := ScheduleSwitch(ctx, item);
      && (r.Some? <==> JoinValue(", ", Get(item, KeyDays, Null)).Some?)
      && (r.Some? ==>
        var e, description := r.value, ScheduleDescription(ctx, item).value;
        && e.name == ScheduleName(ctx, item, description)
        && e.uniqueId == UniqueIdFor(DomainSwitch, e.name)
        && e.id == Get(item, KeyScheduleId, Null)
        && e.state == Get(item, KeyEnabled, Bool(false))
        && e.attributes.Keys == {AttrFriendlyName} + (item.Keys - {KeyEnabled})
        && (forall k | k in item && k != KeyEnabled :: e.attributes[k] == item[k])
        && e.icon == Str("mdi:camera-timer") && e.entityType == Str(SwitchSchedule)
        && e.deviceName == ctx.deviceName)
  {
  }

  /** Schedule switches are named "<title> Schedule #<id> - [Recurring - ]<days> - <start>-<end>". */
  lemma ScheduleNameShape(ctx: Context, item: map<string, Value>)
    requires ScheduleSwitch(ctx, item).Some?
    ensures var days := JoinValue(", ", Get(item, KeyDays, Null)).value;
      var description := days + " - " + Format(Get(item, KeyStartTime, Null), ctx.other) + "-"
                         + Format(Get(item, KeyEndTime, Null), ctx.other);
      var prefix := ctx.title + ScheduleInfix + Format(Get(item, KeyScheduleId, Null), ctx.other) + " - ";
      ScheduleSwitch(ctx, item).value.name
        == prefix + if Truthy(Get(item, KeyRecurring, Null)) then "Recurring - " + description else description
  {
    ScheduleSwitchShape(ctx, item);
  }

  /** Enabling or disabling a schedule changes its switch's state only: name and unique id stay. */
  lemma ScheduleIdentityIgnoresEnabled(ctx: Context, item: map<string, Value>, enabled: Value)
    requires ScheduleSwitch(ctx, item).Some?
    ensures ScheduleSwitch(ctx, item[KeyEnabled := enabled]).Some?
    ensures ScheduleSwitch(ctx, item[KeyEnabled := enabled]).value.uniqueId == ScheduleSwitch(ctx, item).value.uniqueId
    ensures ScheduleSwitch(ctx, item[KeyEnabled := enabled]).value.state == enabled
  {
    var item' := item[KeyEnabled := enabled];
    assert Get(item', KeyDays, Null) == Get(item, KeyDays, Null);
    assert Get(item', KeyStartTime, Null) == Get(item, KeyStartTime, Null);
    assert Get(item', KeyEndTime, Null) == Get(item, KeyEndTime, Null);
    assert Get(item', KeyRecurring, Null) == Get(item, KeyRecurring, Null);
    assert Get(item', KeyScheduleId, Null) == Get(item, KeyScheduleId, Null);
  }

  // ---- create_components -----------------------------------------------------

  /**
    The items `for schedule in schedules.get(KEY_SCHEDULES, [])` visits.  A
    string or a dict yields strings, the first of which stops the loop, and any
    other value is not iterable: none of them produces a switch.
   */
  function ScheduleItems(schedules: Value): seq<Value> {
    match schedules
    case List(xs) => xs
    case Set(ms) => ms
    case _ => []
  }

  /** The switch of one schedule item, as a sequence of at most one record. */
  function SwitchOf(ctx: Context, item: map<string, Value>): seq<EntityData> {
    match ScheduleSwitch(ctx, item)
    case None => []
    case Some(e) => [e]
  }

  /**
    The schedule switches `create_components` generates from `items`, in
    order: the loop stops at the first item that is not a dict (the
    `schedule_item.get` before the `try` raises), and an item whose switch
    cannot be built is skipped.
   */
  function ScheduleSwitches(ctx: Context, items: seq<Value>): seq<EntityData> {
    if items == [] || !items[0].Dict? then []
    else
      SwitchOf(ctx, items[0].entries) + ScheduleSwitches(ctx, items[1..])
  }

  /**
    At most one switch per item; each is a schedule switch whose name starts
    with the device title and whose unique id is derived from that name.
   */
  lemma {:induction false} ScheduleSwitchesShape(ctx: Context, items: seq<Value>)
    ensures var r := ScheduleSwitches(ctx, items);
      && |r| <= |items|
      && (forall e | e in r :: e.uniqueId == UniqueIdFor(DomainSwitch, e.name) && e.entityType == Str(SwitchSchedule))
      && (forall e | e in r :: |e.name| > |ctx.title| && e.name[..|ctx.title|] == ctx.title)
  {
    if items != [] && items[0].Dict? {
      ScheduleSwitchesShape(ctx, items[1..]);
      ScheduleSwitchShape(ctx, items[0].entries);
    }
  }

  lemma {:induction false} ScheduleSwitchesAppend(ctx: Context, a: seq<Value>, b: seq<Value>)
    requires forall i | 0 <= i < |a| :: a[i].Dict?
    ensures ScheduleSwitches(ctx, a + b) == ScheduleSwitches(ctx, a) + ScheduleSwitches(ctx, b)
  {
    if a != [] {
      assert (a + b)[1..] == a[1..] + b;
      ScheduleSwitchesAppend(ctx, a[1..], b);
    } else {
      assert a + b == b;
    }
  }

  /** The switches of the first `i + 1` items, when none of them stops the loop. */
  lemma ScheduleSwitchesNext(ctx: Context, items: seq<Value>, i: nat)
    requires i < |items| && forall j | 0 <= j <= i :: items[j].Dict?
    ensures ScheduleSwitches(ctx, items[..i + 1]) == ScheduleSwitches(ctx, items[..i]) + SwitchOf(ctx, items[i].entries)
  {
    ScheduleSwitchesAppend(ctx, items[..i], [items[i]]);
    assert items[..i + 1] == items[..i] + [items[i]];
    assert [items[i]][1..] == [];
  }

  /** An item that is not a dict ends the loop: nothing after it is generated. */
  lemma ScheduleSwitchesStop(ctx: Context, items: seq<Value>, i: nat)
    requires i < |items| && !items[i].Dict? && forall j | 0 <= j < i :: items[j].Dict?
    ensures ScheduleSwitches(ctx, items) == ScheduleSwitches(ctx, items[..i])
  {
    ScheduleSwitchesAppend(ctx, items[..i], items[i..]);
    assert items[..i] + items[i..] == items;
    assert items[i..][0] == items[i];
    assert ScheduleSwitches(ctx, items[..i]) + [] == ScheduleSwitches(ctx, items[..i]);
  }

  /** `set_entity(domain, e.name, e)` for each `e` in order. */
  function Store(t: Table, domain: string, es: seq<EntityData>): Table
    decreases |es|
  {
    if es == [] then t else Store(Put(t, domain, es[0].name, es[0]), domain, es[1..])
  }

  /**
    Storing a sequence of records touches one domain only; each record is
    stored under its own name, a name no record carries keeps its entry, and
    every entry that changed holds one of the records.
   */
  lemma {:induction false} StoreEffect(t: Table, domain: string, es: seq<EntityData>)
    ensures var r := Store(t, domain, es);
      && r.Keys == t.Keys + (if es == [] then {} else {domain})
      && (forall d, n | d != domain :: Entry(r, d, n) == Entry(t, d, n))
      && (forall e | e in es :: Entry(r, domain, e.name).Some?)
      && (forall n | (forall e | e in es :: e.name != n) :: Entry(r, domain, n) == Entry(t, domain, n))
      && (forall n | Entry(r, domain, n).Some? && Entry(r, domain, n) != Entry(t, domain, n) ::
            r[domain][n] in es && r[domain][n].name == n)
    decreases |es|
  {
    if es != [] {
      var t' := Put(t, domain, es[0].name, es[0]);
      PutEntry(t, domain, es[0].name, es[0]);
      StoreEffect(t', domain, es[1..]);
      var r := Store(t, domain, es);
      assert r == Store(t', domain, es[1..]);
      forall e | e in es ensures Entry(r, domain, e.name).Some? {
        if e !in es[1..] {
          assert e == es[0];
          if Entry(r, domain, e.name) == Entry(t', domain, e.name) {
          } else {
            assert r[domain][e.name] in es[1..];
          }
        }
      }
      forall n | Entry(r, domain, n).Some? && Entry(r, domain, n) != Entry(t, domain, n)
        ensures r[domain][n] in es && r[domain][n].name == n
      {
        if Entry(r, domain, n) == Entry(t', domain, n) {
          assert n == es[0].name;
        }
      }
    }
  }

  lemma StoreOne(t: Table, domain: string, e: EntityData)
    ensures Store(t, domain, [e]) == Put(t, domain, e.name, e)
  {
    assert [e][1..] == [];
  }

  lemma {:induction false} StoreAppend(t: Table, domain: string, a: seq<EntityData>, b: seq<EntityData>)
    ensures Store(t, domain, a + b) == Store(Store(t, domain, a), domain, b)
    decreases |a|
  {
    if a != [] {
      assert (a + b)[1..] == a[1..] + b;
      StoreAppend(Put(t, domain, a[0].name, a[0]), domain, a[1..], b);
    } else {
      assert a + b == b;
    }
  }

  /** The schedule loop has stored the switches of the first `i` items, all of them dicts, on top of `start`. */
  ghost predicate Generating(ctx: Context, start: Table, items: seq<Value>, i: nat, t: Table) {
    && i <= |items|
    && (forall j | 0 <= j < i :: items[j].Dict?)
    && t == Store(start, DomainSwitch, ScheduleSwitches(ctx, items[..i]))
  }

  /** One more schedule item that is a dict: its switch, if any, is stored on top. */
  lemma GenerateStep(ctx: Context, start: Table, items: seq<Value>, i: nat, t: Table, t': Table)
    requires Generating(ctx, start, items, i, t) && i < |items| && items[i].Dict?
    requires var made := SwitchOf(ctx, items[i].entries);
      t' == if made == [] then t else Put(t, DomainSwitch, made[0].name, made[0])
    ensures Generating(ctx, start, items, i + 1, t')
  {
    var made := SwitchOf(ctx, items[i].entries);
    ScheduleSwitchesNext(ctx, items, i);
    StoreAppend(start, DomainSwitch, ScheduleSwitches(ctx, items[..i]), made);
    if made != [] {
      StoreOne(t, DomainSwitch, made[0]);
      assert made == [made[0]];
    } else {
      assert ScheduleSwitches(ctx, items[..i]) + made == ScheduleSwitches(ctx, items[..i]);
    }
  }

  /** The loop ends, at an item that is not a dict or after the last item, with every switch stored. */
  lemma GenerateDone(ctx: Context, start: Table, items: seq<Value>, i: nat, t: Table)
    requires Generating(ctx, start, items, i, t) && (i == |items| || !items[i].Dict?)
    ensures t == Store(start, DomainSwitch, ScheduleSwitches(ctx, items))
  {
    if i < |items| {
      ScheduleSwitchesStop(ctx, items, i);
    } else {
      assert items[..i] == items;
    }
  }

  /** The table after the two sensors and the main switch are stored. */
  function WithBuiltIns(ctx: Context, t: Table, state: map<string, Value>): Table {
    var power := PowerConsumptionSensor(ctx, state);
    var current := ElectricCurrentSensor(ctx, state);
    var main := MainSwitch(ctx, state);
    Put(Put(Put(t, DomainSensor, power.name, power), DomainSensor, current.name, current), DomainSwitch, main.name, main)
  }

  /** Whether `create_components` looks at the schedules at all. */
  predicate FoundSchedules(schedules: map<string, Value>) {
    Truthy(Get(schedules, KeyFoundSchedules, Bool(false)))
  }

  /** The schedule switches `create_components` stores. */
  function GeneratedSchedules(ctx: Context, schedules: map<string, Value>): seq<EntityData> {
    if FoundSchedules(schedules) then ScheduleSwitches(ctx, ScheduleItems(Get(schedules, KeySchedules, List([])))) else []
  }

  /** `ScheduleSwitchesShape` for the switches `create_components` stores. */
  lemma GeneratedShape(ctx: Context, schedules: map<string, Value>)
    ensures forall e | e in GeneratedSchedules(ctx, schedules) ::
      && e.uniqueId == UniqueIdFor(DomainSwitch, e.name)
      && |e.name| > |ctx.title| && e.name[..|ctx.title|] == ctx.title
  {
    if FoundSchedules(schedules) {
      ScheduleSwitchesShape(ctx, ScheduleItems(Get(schedules, KeySchedules, List([]))));
    }
  }

  /** The table after `create_components`, given the API's state and schedules. */
  function Components(ctx: Context, t: Table, state: map<string, Value>, schedules: map<string, Value>): Table {
    Store(WithBuiltIns(ctx, t, state), DomainSwitch, GeneratedSchedules(ctx, schedules))
  }

  /**
    Every entry `create_components` adds or replaces is stored under its own
    name, in one of the two entity domains, with unique id
    "{DOMAIN}-{domain}-{name}".
   */
  lemma ComponentsKeyedByName(ctx: Context, t: Table, state: map<string, Value>, schedules: map<string, Value>)
    ensures var r := Components(ctx, t, state, schedules);
      forall d, n | Entry(r, d, n).Some? && Entry(r, d, n) != Entry(t, d, n) ::
        d in SignalDomains && r[d][n].name == n && r[d][n].uniqueId == UniqueIdFor(d, n)
  {
    var r := Components(ctx, t, state, schedules);
    var b := WithBuiltIns(ctx, t, state);
    var es := GeneratedSchedules(ctx, schedules);
    StoreEffect(b, DomainSwitch, es);
    GeneratedShape(ctx, schedules);
    BuiltInsKeyedByName(ctx, t, state);
    forall d, n | Entry(r, d, n).Some? && Entry(r, d, n) != Entry(t, d, n)
      ensures d in SignalDomains && r[d][n].name == n && r[d][n].uniqueId == UniqueIdFor(d, n)
    {
      if d == DomainSwitch && Entry(r, d, n) != Entry(b, d, n) {
        assert r[d][n] in es;
      } else {
        assert Entry(r, d, n) == Entry(b, d, n);
      }
    }
  }

  /** The two sensors and the main switch are stored under their names, with their unique ids. */
  lemma BuiltInsKeyedByName(ctx: Context, t: Table, state: map<string, Value>)
    ensures var b := WithBuiltIns(ctx, t, state);
      forall d, n | Entry(b, d, n).Some? && Entry(b, d, n) != Entry(t, d, n) ::
        d in SignalDomains && b[d][n].name == n && b[d][n].uniqueId == UniqueIdFor(d, n)
  {
    var power, current, main := PowerConsumptionSensor(ctx, state), ElectricCurrentSensor(ctx, state), MainSwitch(ctx, state);
    ThreePutsChanged(t, DomainSensor, power.name, power, current.name, current, DomainSwitch, main.name, main);
  }

  lemma SensorNamesDiffer(title: string)
    ensures title + PowerConsumptionSuffix != title + ElectricCurrentSuffix
  {
    assert (title + PowerConsumptionSuffix)[|title| + 1] == 'P';
    assert (title + ElectricCurrentSuffix)[|title| + 1] == 'E';
  }

  /** Two entries stored in one domain and a third in another are all read back. */
  lemma ThreePuts(t: Table, d1: string, n1: string, e1: EntityData, n2: string, e2: EntityData,
                  d3: string, n3: string, e3: EntityData)
    requires n1 != n2 && d1 != d3
    ensures var r := Put(Put(Put(t, d1, n1, e1), d1, n2, e2), d3, n3, e3);
      Entry(r, d1, n1) == Some(e1) && Entry(r, d1, n2) == Some(e2) && Entry(r, d3, n3) == Some(e3)
  {
    var t1 := Put(t, d1, n1, e1);
    var t2 := Put(t1, d1, n2, e2);
    PutEntry(t, d1, n1, e1);
    PutEntry(t1, d1, n2, e2);
    PutEntry(t2, d3, n3, e3);
  }

  /** After three stores, an entry that changed is one of the three, under its own key. */
  lemma ThreePutsChanged(t: Table, d1: string, n1: string, e1: EntityData, n2: string, e2: EntityData,
                         d3: string, n3: string, e3: EntityData)
    ensures var r := Put(Put(Put(t, d1, n1, e1), d1, n2, e2), d3, n3, e3);
      forall d, n | Entry(r, d, n) != Entry(t, d, n) ::
        (d == d1 && n == n1 && Entry(r, d, n) == Some(e1)) ||
        (d == d1 && n == n2 && Entry(r, d, n) == Some(e2)) ||
        (d == d3 && n == n3 && Entry(r, d, n) == Some(e3))
  {
    var t1 := Put(t, d1, n1, e1);
    var t2 := Put(t1, d1, n2, e2);
    PutEntry(t, d1, n1, e1);
    PutEntry(t1, d1, n2, e2);
    PutEntry(t2, d3, n3, e3);
  }

  lemma BuiltInsStored(ctx: Context, t: Table, state: map<string, Value>)
    ensures var b := WithBuiltIns(ctx, t, state);
      && Entry(b, DomainSensor, ctx.title + PowerConsumptionSuffix) == Some(PowerConsumptionSensor(ctx, state))
      && Entry(b, DomainSensor, ctx.title + ElectricCurrentSuffix) == Some(ElectricCurrentSensor(ctx, state))
      && Entry(b, DomainSwitch, ctx.title) == Some(MainSwitch(ctx, state))
  {
    var power, current, main := PowerConsumptionSensor(ctx, state), ElectricCurrentSensor(ctx, state), MainSwitch(ctx, state);
    SensorNamesDiffer(ctx.title);
    ThreePuts(t, DomainSensor, power.name, power, current.name, current, DomainSwitch, main.name, main);
  }

  /**
    The sensors and the main switch are always stored under their names; a
    schedule switch never replaces the main switch, whose name is a strict
    prefix of every schedule switch's name.
   */
  lemma ComponentsBuiltIns(ctx: Context, t: Table, state: map<string, Value>, schedules: map<string, Value>)
    ensures var r := Components(ctx, t, state, schedules);
      && Entry(r, DomainSensor, ctx.title + PowerConsumptionSuffix) == Some(PowerConsumptionSensor(ctx, state))
      && Entry(r, DomainSensor, ctx.title + ElectricCurrentSuffix) == Some(ElectricCurrentSensor(ctx, state))
      && Entry(r, DomainSwitch, ctx.title) == Some(MainSwitch(ctx, state))
  {
    var b := WithBuiltIns(ctx, t, state);
    var es := GeneratedSchedules(ctx, schedules);
    BuiltInsStored(ctx, t, state);
    StoreEffect(b, DomainSwitch, es);
    GeneratedShape(ctx, schedules);
    assert forall e | e in es :: e.name != ctx.title;
  }

  /** Without a truthy `found_schedules`, only the two sensors and the main switch change. */
  lemma NoSchedulesUnlessFound(ctx: Context, t: Table, state: map<string, Value>, schedules: map<string, Value>)
    requires !FoundSchedules(schedules)
    ensures var r := Components(ctx, t, state, schedules);
      forall d, n | Entry(r, d, n) != Entry(t, d, n) ::
        (d == DomainSensor && (n == ctx.title + PowerConsumptionSuffix || n == ctx.title + ElectricCurrentSuffix))
        || (d == DomainSwitch && n == ctx.title)
  {
    StoreEffect(WithBuiltIns(ctx, t, state), DomainSwitch, []);
  }

  // ---- reconciliation ------------------------------------------------------

  /** The entity registry and state machine of Home Assistant, as seen by the update pass. */
  datatype Registry = Registry(
    /** `async_get_entity_id(domain, DOMAIN, unique_id)` */
    entityIdOf: (string, string) -> Option<string>,
    /** `async_get(entity_id)`: None when it has no entry, otherwise the entry's `disabled` */
    disabledOf: string -> Option<bool>,
    /** `hass.states.get(entity_id)`: None when it has no state, otherwise whether its "restored" attribute is truthy */
    restoredOf: string -> Option<bool>,
    /** whether `async_remove(entity_id)` returns normally (it raises for an id it does not hold) */
    removes: Option<string> -> bool)

  /** The registry entry of an entity id (`async_get(None)` finds nothing). */
  function RegistryDisabled(reg: Registry, entityId: Option<string>): Option<bool> {
    match entityId
    case None => None
    case Some(id) => reg.disabledOf(id)
  }

  /**
    Whether a CREATED entity is handed to `async_add_entities`: always when it
    has no registry id; otherwise when its state is restored (a missing state
    counts as restored) and its registry entry, if any, is not disabled.
   */
  predicate ShouldAdd(reg: Registry, domain: string, e: EntityData) {
    match reg.entityIdOf(domain, e.uniqueId)
    case None => true
    case Some(id) =>
      var restored := match reg.restoredOf(id) case None => true case Some(r) => r;
      restored && match reg.disabledOf(id) case None => true case Some(disabled) => !disabled
  }

  /** A processed entity: a CREATED one becomes READY and takes `disabled` from its registry entry. */
  function Reconciled(reg: Registry, domain: string, e: EntityData): (r: EntityData)
    ensures e.status != StatusCreated ==> r == e
    ensures e.status == StatusCreated ==> r.status == StatusReady
    ensures r.(status := e.status, disabled := e.disabled) == e
    ensures e.status == StatusCreated && RegistryDisabled(reg, reg.entityIdOf(domain, e.uniqueId)).Some? ==>
      r.disabled == RegistryDisabled(reg, reg.entityIdOf(domain, e.uniqueId)).value
  {
    if e.status != StatusCreated then e
    else
      match RegistryDisabled(reg, reg.entityIdOf(domain, e.uniqueId))
      case None => e.(status := StatusReady)
      case Some(disabled) => e.(status := StatusReady, disabled := disabled)
  }

  /** The entities of a domain; `get_entities` creates a missing domain empty. */
  function DomainNames(t: Table, domain: string): (names: map<string, EntityData>)
    ensures domain !in t ==> names == map[]
    ensures domain in t ==> names == t[domain]
  {
    if domain in t then t[domain] else map[]
  }

  /** A domain's entities after the update pass. */
  function ReconciledDomain(reg: Registry, domain: string, names: map<string, EntityData>): (r: map<string, EntityData>)
    ensures r.Keys == names.Keys
    ensures forall n | n in names :: r[n] == Reconciled(reg, domain, names[n])
    ensures forall n | n in r :: r[n].status != StatusCreated
  {
    map n | n in names :: Reconciled(reg, domain, names[n])
  }

  /** The table after the update pass over `domain`. */
  function AfterDomain(reg: Registry, domain: string, t: Table): (r: Table)
    ensures r.Keys == t.Keys + {domain}
    ensures forall d | d in t && d != domain :: r[d] == t[d]
  {
    t[domain := ReconciledDomain(reg, domain, DomainNames(t, domain))]
  }

  function CreatedId(e: EntityData): multiset<string> {
    if e.status == StatusCreated then multiset{e.uniqueId} else multiset{}
  }

  /** The unique ids of a domain's CREATED entities, with multiplicity. */
  ghost function CreatedIds(names: map<string, EntityData>): multiset<string> {
    Sum(names, CreatedId)
  }

  lemma InCreatedIds(names: map<string, EntityData>, uid: string)
    ensures uid in CreatedIds(names) <==> exists n :: n in names && names[n].status == StatusCreated && names[n].uniqueId == uid
  {
    InSum(names, CreatedId, uid);
  }

  /** The names of a domain's entities handed to `async_add_entities`. */
  function AddedNames(reg: Registry, domain: string, names: map<string, EntityData>): (r: set<string>)
    ensures forall n | n in r :: n in names && names[n].status == StatusCreated && ShouldAdd(reg, domain, names[n])
    ensures forall n | n in names && names[n].status == StatusCreated && ShouldAdd(reg, domain, names[n]) :: n in r
  {
    set n | n in names && names[n].status == StatusCreated && ShouldAdd(reg, domain, names[n])
  }

  lemma AddedNamesAdd(reg: Registry, domain: string, names: map<string, EntityData>, n: string, e: EntityData)
    requires n !in names
    ensures AddedNames(reg, domain, names[n := e]) ==
      AddedNames(reg, domain, names) + (if e.status == StatusCreated && ShouldAdd(reg, domain, e) then {n} else {})
  {
  }

  /** One entity of the reconciliation loop: the ids left and the names to add after processing it. */
  lemma ReconcileStep(reg: Registry, domain: string, toDelete: multiset<string>, done: map<string, EntityData>,
                      n: string, e: EntityData)
    requires n !in done
    ensures toDelete - CreatedIds(done[n := e]) == toDelete - CreatedIds(done) - CreatedId(e)
    ensures AddedNames(reg, domain, done[n := e]) ==
      AddedNames(reg, domain, done) + (if e.status == StatusCreated && ShouldAdd(reg, domain, e) then {n} else {})
  {
    SumAdd(done, CreatedId, n, e);
    DiffUnion(toDelete, CreatedIds(done), CreatedId(e));
    AddedNamesAdd(reg, domain, done, n, e);
  }

  /** One entity of the reconciliation loop: the domain's entities after processing it. */
  lemma CurrentStep(reg: Registry, domain: string, snapshot: map<string, EntityData>, done: map<string, EntityData>, n: string)
    requires n in snapshot && n !in done
    ensures snapshot + ReconciledDomain(reg, domain, done[n := snapshot[n]]) ==
      (snapshot + ReconciledDomain(reg, domain, done))[n := Reconciled(reg, domain, snapshot[n])]
    ensures snapshot[n].status != StatusCreated ==>
      (snapshot + ReconciledDomain(reg, domain, done))[n := Reconciled(reg, domain, snapshot[n])] ==
      snapshot + ReconciledDomain(reg, domain, done)
  {
    assert ReconciledDomain(reg, domain, done[n := snapshot[n]]) ==
      ReconciledDomain(reg, domain, done)[n := Reconciled(reg, domain, snapshot[n])];
  }

  /** Once every entity is processed, the overlay is the reconciled domain itself. */
  lemma CurrentDone(reg: Registry, domain: string, snapshot: map<string, EntityData>)
    ensures snapshot + ReconciledDomain(reg, domain, snapshot) == ReconciledDomain(reg, domain, snapshot)
  {
  }

  /** `async_add_entities` of a domain, with the names of the entities it is given. */
  datatype AddCall = AddEntities(domain: string, names: set<string>)

  /** The `async_add_entities` call of a domain: none when there is nothing to add. */
  function AddCalls(reg: Registry, domain: string, names: map<string, EntityData>): (r: seq<AddCall>)
    ensures r == [] <==> AddedNames(reg, domain, names) == {}
    ensures r != [] ==> r == [AddEntities(domain, AddedNames(reg, domain, names))]
  {
    var toAdd := AddedNames(reg, domain, names);
    if toAdd == {} then [] else [AddEntities(domain, toAdd)]
  }

  /** Processing a domain whose entries are all READY already leaves it unchanged and adds nothing. */
  lemma ReconcileSettled(reg: Registry, domain: string, names: map<string, EntityData>)
    requires forall n | n in names :: names[n].status != StatusCreated
    ensures ReconciledDomain(reg, domain, names) == names
    ensures AddCalls(reg, domain, names) == []
    ensures CreatedIds(names) == multiset{}
  {
    forall uid ensures uid !in CreatedIds(names) {
      InCreatedIds(names, uid);
    }
  }

  /** The outcome of the update pass: the ids left to delete and whether every domain was processed. */
  datatype UpdateResult = UpdateResult(toDelete: multiset<string>, completed: bool)

  /**
    After a complete pass no entity of either domain is CREATED, and an id
    present before the pass is still to be deleted unless some CREATED entity
    with that id was processed; an id that was not present is never to be deleted.
   */
  lemma ReconcileOutcome(reg: Registry, t: Table, before: multiset<string>, uid: string)
    ensures var sensors := DomainNames(t, DomainSensor);
      var t2 := AfterDomain(reg, DomainSensor, t);
      var switches := DomainNames(t2, DomainSwitch);
      var t3 := AfterDomain(reg, DomainSwitch, t2);
      var toDelete := before - CreatedIds(sensors) - CreatedIds(switches);
      && (forall d, n | d in SignalDomains && n in t3[d] :: t3[d][n].status != StatusCreated)
      && switches == DomainNames(t, DomainSwitch)
      && (uid in toDelete ==> uid in before)
      && (uid in before
          && (forall n | n in sensors :: sensors[n].status == StatusCreated ==> sensors[n].uniqueId != uid)
          && (forall n | n in switches :: switches[n].status == StatusCreated ==> switches[n].uniqueId != uid)
          ==> uid in toDelete)
  {
    var sensors := DomainNames(t, DomainSensor);
    var t2 := AfterDomain(reg, DomainSensor, t);
    var switches := DomainNames(t2, DomainSwitch);
    InCreatedIds(sensors, uid);
    InCreatedIds(switches, uid);
  }

  /** `for entity in entities: all.append(entity)` over one domain's entities. */
  method AppendEntities(all0: seq<EntityData>, names0: map<string, EntityData>) returns (all: seq<EntityData>)
    ensures multiset(all) == multiset(all0) + DomainEntities(names0)
  {
    all := all0;
    var names := names0;
    while names != map[]
      invariant multiset(all) + Sum(names, One) == multiset(all0) + Sum(names0, One)
      decreases |names|
    {
      var n :| n in names;
      SumStep(names, One, n);
      all := all + [names[n]];
      names := names - {n};
    }
  }

  lemma UniqueIdStep(all: seq<EntityData>, i: nat)
    requires i < |all|
    ensures Image(multiset(all[..i + 1]), UniqueIdOf) == Image(multiset(all[..i]), UniqueIdOf) + multiset{all[i].uniqueId}
  {
    assert all[..i + 1] == all[..i] + [all[i]];
    ImageAdd(multiset(all[..i]), UniqueIdOf, all[i]);
  }

  /** The unique ids of the given records, as the update pass lists them. */
  method UniqueIdList(all: seq<EntityData>) returns (ids: multiset<string>)
    ensures ids == Image(multiset(all), UniqueIdOf)
  {
    ids := multiset{};
    var i := 0;
    while i < |all|
      invariant 0 <= i <= |all|
      invariant ids == Image(multiset(all[..i]), UniqueIdOf)
    {
      UniqueIdStep(all, i);
      ids := ids + multiset{all[i].uniqueId};
      i := i + 1;
    }
    assert all[..i] == all;
  }

  /** The entities the loop has processed once only `rest` is left. */
  function Processed(snapshot: map<string, EntityData>, rest: set<string>): (done: map<string, EntityData>)
    ensures done.Keys == snapshot.Keys - rest
  {
    map n | n in snapshot.Keys - rest :: snapshot[n]
  }

  /** What the entity loop of one domain has done once the names outside `rest` are processed. */
  ghost predicate Progress(reg: Registry, domain: string, snapshot: map<string, EntityData>, toDelete: multiset<string>,
                           rest: set<string>, current: map<string, EntityData>, remaining: multiset<string>, toAdd: set<string>)
  {
    var done := Processed(snapshot, rest);
    && rest <= snapshot.Keys
    && current == snapshot + ReconciledDomain(reg, domain, done)
    && toAdd == AddedNames(reg, domain, done)
    && remaining == toDelete - CreatedIds(done)
  }

  /** Processing one more entity keeps `Progress`. */
  lemma ProgressStep(reg: Registry, domain: string, snapshot: map<string, EntityData>, toDelete: multiset<string>,
                     rest: set<string>, current: map<string, EntityData>, remaining: multiset<string>, toAdd: set<string>,
                     n: string)
    requires Progress(reg, domain, snapshot, toDelete, rest, current, remaining, toAdd)
    requires n in rest
    ensures var e := snapshot[n];
      Progress(reg, domain, snapshot, toDelete, rest - {n},
        if e.status == StatusCreated then current[n := Reconciled(reg, domain, e)] else current,
        if e.status == StatusCreated then remaining - multiset{e.uniqueId} else remaining,
        if e.status == StatusCreated && ShouldAdd(reg, domain, e) then toAdd + {n} else toAdd)
  {
    var e := snapshot[n];
    var done := Processed(snapshot, rest);
    assert Processed(snapshot, rest - {n}) == done[n := e];
    ReconcileStep(reg, domain, toDelete, done, n, e);
    CurrentStep(reg, domain, snapshot, done, n);
    MinusNothing(remaining);
  }

  /**
    The entity loop of one domain: each CREATED entity becomes READY, its id
    is taken off the delete list, and its name is collected when it is to be
    added.
   */
  method ReconcileNames(domain: string, reg: Registry, snapshot: map<string, EntityData>, toDelete: multiset<string>)
    returns (current: map<string, EntityData>, remaining: multiset<string>, toAdd: set<string>)
    ensures current == ReconciledDomain(reg, domain, snapshot)
    ensures remaining == toDelete - CreatedIds(snapshot)
    ensures toAdd == AddedNames(reg, domain, snapshot)
  {
    current := snapshot;
    var rest := snapshot.Keys;
    toAdd := {};
    remaining := toDelete;
    assert Processed(snapshot, rest) == map[];
    MinusNothing(toDelete);
    while rest != {}
      invariant Progress(reg, domain, snapshot, toDelete, rest, current, remaining, toAdd)
      decreases rest
    {
      var n :| n in rest;
      var e := snapshot[n];
      ProgressStep(reg, domain, snapshot, toDelete, rest, current, remaining, toAdd, n);
      if e.status == StatusCreated {
        remaining := remaining - multiset{e.uniqueId};
        if ShouldAdd(reg, domain, e) {
          toAdd := toAdd + {n};
        }
        current := current[n := Reconciled(reg, domain, e)];
      }
      rest := rest - {n};
    }
    assert Processed(snapshot, rest) == snapshot;
    CurrentDone(reg, domain, snapshot);
  }

  class EntityManager {
    var entities: Table
    /** The domains `set_domain_component` has registered. */
    var components: set<string>
    /** The `async_add_entities` calls made so far. */
    var added: seq<AddCall>

    constructor ()
      ensures entities == map[] && components == {} && added == []
    {
      entities := map[];
      components := {};
      added := [];
    }

    /** `set_domain_component(domain, async_add_entities, component)` */
    method SetDomainComponent(domain: string)
      modifies this
      ensures components == old(components) + {domain}
      ensures entities == old(entities) && added == old(added)
    {
      components := components + {domain};
    }

    /** `check_domain(domain)` */
    method CheckDomain(domain: string)
      modifies this
      ensures entities == WithDomain(old(entities), domain)
      ensures components == old(components) && added == old(added)
    {
      if domain !in entities {
        entities := entities[domain := map[]];
      }
    }

    /** `get_entities(domain)`: creates a missing domain. */
    method GetEntities(domain: string) returns (names: map<string, EntityData>)
      modifies this
      ensures entities == WithDomain(old(entities), domain)
      ensures components == old(components) && added == old(added)
      ensures names == entities[domain] == DomainNames(old(entities), domain)
    {
      CheckDomain(domain);
      names := entities[domain];
    }

    /** `get_entity(domain, name)` */
    method GetEntity(domain: string, name: string) returns (e: Option<EntityData>)
      modifies this
      ensures entities == WithDomain(old(entities), domain)
      ensures components == old(components) && added == old(added)
      ensures e == Entry(old(entities), domain, name)
    {
      var names := GetEntities(domain);
      e := Lookup(names, name);
    }

    /** `get_entity_status(domain, name)` */
    method GetEntityStatus(domain: string, name: string) returns (status: Status)
      modifies this
      ensures entities == WithDomain(old(entities), domain)
      ensures components == old(components) && added == old(added)
      ensures status == StatusOf(old(entities), domain, name)
    {
      var e := GetEntity(domain, name);
      status := if e.None? then StatusEmpty else e.value.status;
    }

    /** `set_entity_status(domain, name, status)` */
    method SetEntityStatus(domain: string, name: string, status: Status)
      modifies this
      ensures entities == WithStatus(old(entities), domain, name, status)
      ensures components == old(components) && added == old(added)
    {
      if domain in entities && name in entities[domain] {
        entities := entities[domain := entities[domain][name := entities[domain][name].(status := status)]];
      }
    }

    /** `delete_entity(domain, name)` */
    method DeleteEntity(domain: string, name: string)
      modifies this
      ensures entities == Removed(old(entities), domain, name)
      ensures components == old(components) && added == old(added)
    {
      if domain in entities && name in entities[domain] {
        entities := entities[domain := entities[domain] - {name}];
      }
    }

    /** `set_entity(domain, name, data)` */
    method SetEntity(domain: string, name: string, data: EntityData)
      modifies this
      ensures entities == Put(old(entities), domain, name, data)
      ensures components == old(components) && added == old(added)
    {
      CheckDomain(domain);
      entities := entities[domain := entities[domain][name := data]];
    }

    /** `get_all_entities()`: every record of every domain, in some order. */
    method GetAllEntities() returns (all: seq<EntityData>)
      ensures multiset(all) == AllEntities(entities)
    {
      all := [];
      var domains := entities;
      while domains != map[]
        invariant multiset(all) + Sum(domains, DomainEntities) == AllEntities(entities)
        decreases |domains|
      {
        var d :| d in domains;
        SumStep(domains, DomainEntities, d);
        all := AppendEntities(all, domains[d]);
        domains := domains - {d};
      }
    }

    /** `is_device_name_in_use(device_name)` */
    method IsDeviceNameInUse(deviceName: string) returns (inUse: bool)
      ensures inUse <==> DeviceNameInUse(entities, deviceName)
    {
      var all := GetAllEntities();
      inUse := false;
      var i := 0;
      while i < |all|
        invariant 0 <= i <= |all|
        invariant !inUse
        invariant forall j | 0 <= j < i :: all[j].deviceName != deviceName
      {
        if all[i].deviceName == deviceName {
          inUse := true;
          assert all[i] in multiset(all);
          InAllEntities(entities, all[i]);
          break;
        }
        i := i + 1;
      }
      if !inUse {
        forall d, n | d in entities && n in entities[d]
          ensures entities[d][n].deviceName != deviceName
        {
          InAllEntities(entities, entities[d][n]);
          assert entities[d][n] in all;
        }
      }
    }

    /**
      `create_components()`: the two sensors and the main switch, then, when
      `found_schedules` is truthy, one switch per schedule.
     */
    method CreateComponents(ctx: Context, state: map<string, Value>, schedules: map<string, Value>)
      modifies this
      ensures entities == Components(ctx, old(entities), state, schedules)
      ensures components == old(components) && added == old(added)
    {
      var power := PowerConsumptionSensor(ctx, state);
      SetEntity(DomainSensor, power.name, power);
      var current := ElectricCurrentSensor(ctx, state);
      SetEntity(DomainSensor, current.name, current);
      var main := MainSwitch(ctx, state);
      SetEntity(DomainSwitch, main.name, main);
      if FoundSchedules(schedules) {
        var items := ScheduleItems(Get(schedules, KeySchedules, List([])));
        GenerateScheduleSwitches(ctx, items);
      }
    }

    /** The schedule loop of `create_components`. */
    method GenerateScheduleSwitches(ctx: Context, items: seq<Value>)
      modifies this
      ensures entities == Store(old(entities), DomainSwitch, ScheduleSwitches(ctx, items))
      ensures components == old(components) && added == old(added)
    {
      ghost var start := entities;
      var i := 0;
      assert items[..0] == [];
      while i < |items| && items[i].Dict?
        invariant Generating(ctx, start, items, i, entities)
        invariant components == old(components) && added == old(added)
      {
        ghost var t := entities;
        var made := SwitchOf(ctx, items[i].entries);
        if made != [] {
          SetEntity(DomainSwitch, made[0].name, made[0]);
        }
        GenerateStep(ctx, start, items, i, t, entities);
        i := i + 1;
      }
      GenerateDone(ctx, start, items, i, entities);
    }

    /**
      Lines 146-217 of `_async_update`: collect the unique ids of all
      entities, regenerate the components, then, domain by domain, mark the
      CREATED entities READY, take their ids off the delete list and hand the
      ones to show to `async_add_entities`.  A domain without a registered
      component raises and ends the pass.
     */
    method Reconcile(ctx: Context, state: map<string, Value>, schedules: map<string, Value>, reg: Registry)
      returns (result: UpdateResult)
      modifies this
      ensures components == old(components)
      ensures result.completed <==> DomainSensor in components && DomainSwitch in components
      ensures var t1 := Components(ctx, old(entities), state, schedules);
        var sensors := DomainNames(t1, DomainSensor);
        var t2 := AfterDomain(reg, DomainSensor, t1);
        var switches := DomainNames(t2, DomainSwitch);
        var before := UniqueIds(old(entities));
        && (DomainSensor !in components ==>
              entities == t1 && added == old(added) && result.toDelete == before)
        && (DomainSensor in components && DomainSwitch !in components ==>
              entities == t2 && added == old(added) + AddCalls(reg, DomainSensor, sensors)
              && result.toDelete == before - CreatedIds(sensors))
        && (result.completed ==>
              entities == AfterDomain(reg, DomainSwitch, t2)
              && added == old(added) + AddCalls(reg, DomainSensor, sensors) + AddCalls(reg, DomainSwitch, switches)
              && result.toDelete == before - CreatedIds(sensors) - CreatedIds(switches))
    {
      var all := GetAllEntities();
      var toDelete := UniqueIdList(all);
      CreateComponents(ctx, state, schedules);
      if DomainSensor !in components {
        return UpdateResult(toDelete, false);
      }
      toDelete := ReconcileDomain(DomainSensor, reg, toDelete);
      if DomainSwitch !in components {
        return UpdateResult(toDelete, false);
      }
      toDelete := ReconcileDomain(DomainSwitch, reg, toDelete);
      result := UpdateResult(toDelete, true);
    }

    /** One domain of the loop at lines 157-217. */
    method ReconcileDomain(domain: string, reg: Registry, toDelete: multiset<string>) returns (remaining: multiset<string>)
      modifies this
      ensures var names := DomainNames(old(entities), domain);
        && entities == AfterDomain(reg, domain, old(entities))
        && added == old(added) + AddCalls(reg, domain, names)
        && remaining == toDelete - CreatedIds(names)
      ensures components == old(components)
    {
      var snapshot := GetEntities(domain);
      var current, toAdd;
      current, remaining, toAdd := ReconcileNames(domain, reg, snapshot, toDelete);
      entities := entities[domain := current];
      assert entities == AfterDomain(reg, domain, old(entities));
      if toAdd != {} {
        added := added + [AddEntities(domain, toAdd)];
      }
    }
  }
}
