/**
  `HomeAssistantManager` of the `switcher_api` integration: the polling
  guards of `_async_update`, the timers of `async_update_entry` and
  `async_remove`, `delete_entity`, `dispatch_all`, and the delete step that
  ends the entity manager's update pass (it calls back into `delete_entity`).
  Home Assistant services, the device manager and the entity registry are
  seen only through the calls recorded in `events` and the `Registry` oracle.
 */
module HomeAssistant {
  import opened Wrappers
  import opened PyValues
  import opened ProxyConst
  import opened ProxyConfigData
  import opened ProxyConfigManager
  import opened ProxyApi
  import opened Entities

  /** STATE_INTERVAL and UPDATE_INTERVAL, in seconds. */
  const StateIntervalSeconds := 10
  const UpdateIntervalSeconds := 10

  /** The callbacks the manager registers with `async_track_time_interval`. */
  datatype Callback = ApiUpdate | EntitiesUpdate

  /** A registered interval timer; the manager keeps it as its cancel handle. */
  datatype Tracker = Tracker(callback: Callback, intervalSeconds: int)

  /** The calls the manager makes into Home Assistant and the device manager, in order. */
  datatype Event =
    | ForwardSetup(domain: string)
    | Track(tracker: Tracker)
    | Cancel(tracker: Tracker)
    | Unload(domain: string)
    | DevicesUpdated
    | EntitiesUpdateScheduled
    | Dispatch(signal: string)
    | DevicesRemoved
    | RegistryRemoved(entityId: Option<string>)
    | DeviceDeleted(deviceName: string)

  // ---- the run guards and the rename decision ------------------------------

  /** Whether `_async_update` asks the device to take the entry's title as its name. */
  predicate NeedsRename(integrationName: Option<string>, title: string) {
    integrationName != Some(title)
  }

  /** `_integration_name` after a run: it takes the title only when a rename was asked for and succeeded. */
  function NameAfterRun(integrationName: Option<string>, title: string, renamed: bool): (r: Option<string>)
    ensures r == Some(title) || r == integrationName
    ensures r != integrationName <==> NeedsRename(integrationName, title) && renamed
  {
    if NeedsRename(integrationName, title) && renamed then Some(title) else integrationName
  }

  /** Once a rename succeeded, later runs with the same title do not ask for it again. */
  lemma RenameSettles(integrationName: Option<string>, title: string, renamed: bool)
    ensures NeedsRename(NameAfterRun(integrationName, title, renamed), title) <==>
      NeedsRename(integrationName, title) && !renamed
  {
  }

  /** The signals `dispatch_all` sends, one per supported domain, in order. */
  function DispatchEvents(): (r: seq<Event>)
    ensures |r| == |SupportedDomains|
    ensures forall i | 0 <= i < |r| :: r[i] == Dispatch(SignalOf(SupportedDomains[i]))
  {
    seq(|SupportedDomains|, i requires 0 <= i < |SupportedDomains| => Dispatch(SignalOf(SupportedDomains[i])))
  }

  /** The cancel calls of `async_remove`: each registered handle once, in its order. */
  function CancelEvents(entities: Option<Tracker>, state: Option<Tracker>, schedule: Option<Tracker>): (r: seq<Event>)
    ensures |r| <= 3
    ensures forall t :: Cancel(t) in r <==> Some(t) in [entities, state, schedule]
  {
    (if entities.Some? then [Cancel(entities.value)] else [])
    + (if state.Some? then [Cancel(state.value)] else [])
    + (if schedule.Some? then [Cancel(schedule.value)] else [])
  }

  // ---- the delete step ---------------------------------------------------

  /** The entity names the delete step passes to `delete_entity` for one domain. */
  function ListedNames(names: map<string, EntityData>, toDelete: multiset<string>): set<string> {
    set k | k in names && names[k].uniqueId in toDelete :: names[k].name
  }

  /** A domain after the delete step: every listed entity's name is removed. */
  function Purged(t: Table, domain: string, toDelete: multiset<string>): (r: Table)
    ensures r.Keys == t.Keys + {domain}
    ensures forall d | d in t && d != domain :: r[d] == t[d]
  {
    var names := DomainNames(t, domain);
    t[domain := names - ListedNames(names, toDelete)]
  }

  /**
    After the delete step nothing listed survives under its own name, and an
    entity whose id is not listed survives unless a listed entity carries its name.
   */
  lemma PurgedRemovesListed(t: Table, domain: string, toDelete: multiset<string>, n: string)
    requires domain in t && n in t[domain]
    ensures var names := Purged(t, domain, toDelete)[domain];
      && (t[domain][n].name == n && t[domain][n].uniqueId in toDelete ==> n !in names)
      && (t[domain][n].uniqueId !in toDelete && (forall k | k in t[domain] && t[domain][k].name == n :: t[domain][k].uniqueId !in toDelete)
          ==> n in names && names[n] == t[domain][n])
  {
    var names := t[domain];
    if t[domain][n].name == n && t[domain][n].uniqueId in toDelete {
      assert n in ListedNames(names, toDelete);
    }
  }

  /** Every device the given calls delete is used by no entity of `t`. */
  ghost predicate DeletionsUnused(evs: seq<Event>, t: Table) {
    forall i | 0 <= i < |evs| :: evs[i].DeviceDeleted? ==> !DeviceNameInUse(t, evs[i].deviceName)
  }

  /** Only registry removals and device deletions. */
  predicate DeleteCalls(evs: seq<Event>) {
    forall i | 0 <= i < |evs| :: evs[i].RegistryRemoved? || evs[i].DeviceDeleted?
  }

  /** Calls the delete step may make after a table reached `t`. */
  ghost predicate Deletions(evs: seq<Event>, t: Table) {
    DeleteCalls(evs) && DeletionsUnused(evs, t)
  }

  /** Removing an entry never puts a device back into use. */
  lemma {:induction false} RemovalKeepsUnused(evs: seq<Event>, t: Table, domain: string, name: string)
    requires DeletionsUnused(evs, t)
    ensures DeletionsUnused(evs, Removed(t, domain, name))
  {
    var r := Removed(t, domain, name);
    forall i | 0 <= i < |evs| && evs[i].DeviceDeleted?
      ensures !DeviceNameInUse(r, evs[i].deviceName)
    {
      forall d, n | d in r && n in r[d]
        ensures r[d][n].deviceName != evs[i].deviceName
      {
        assert Entry(r, d, n) == Entry(t, d, n);
      }
    }
  }

  /** One more entity of the snapshot: the names removed so far grow by its name when its id is listed. */
  lemma ListedStep(snapshot: map<string, EntityData>, rest: set<string>, toDelete: multiset<string>, n: string)
    requires n in rest && rest <= snapshot.Keys
    ensures ListedNames(Processed(snapshot, rest - {n}), toDelete) ==
      ListedNames(Processed(snapshot, rest), toDelete)
      + (if snapshot[n].uniqueId in toDelete then {snapshot[n].name} else {})
  {
    var before, after := Processed(snapshot, rest), Processed(snapshot, rest - {n});
    assert after == before[n := snapshot[n]];
  }

  /** The calls of one more `delete_entity` join those made before it. */
  lemma DeletionsAppend(a: seq<Event>, b: seq<Event>, t: Table, domain: string, name: string)
    requires Deletions(a, t) && Deletions(b, Removed(t, domain, name))
    ensures Deletions(a + b, Removed(t, domain, name))
  {
    RemovalKeepsUnused(a, t, domain, name);
  }

  /** What the delete loop over one domain has done once only `rest` is left. */
  ghost predicate DeleteProgress(start: Table, domain: string, snapshot: map<string, EntityData>, toDelete: multiset<string>,
                                 rest: set<string>, t: Table, evs: seq<Event>)
  {
    && rest <= snapshot.Keys
    && t == start[domain := snapshot - ListedNames(Processed(snapshot, rest), toDelete)]
    && Deletions(evs, t)
  }

  /** One more entity of the delete loop keeps `DeleteProgress`. */
  lemma DeleteProgressStep(start: Table, domain: string, snapshot: map<string, EntityData>, toDelete: multiset<string>,
                           rest: set<string>, t: Table, evs: seq<Event>, key: string, t': Table, extra: seq<Event>)
    requires DeleteProgress(start, domain, snapshot, toDelete, rest, t, evs)
    requires key in rest
    requires snapshot[key].uniqueId in toDelete ==> t' == Removed(t, domain, snapshot[key].name) && Deletions(extra, t')
    requires snapshot[key].uniqueId !in toDelete ==> t' == t && extra == []
    ensures DeleteProgress(start, domain, snapshot, toDelete, rest - {key}, t', evs + extra)
  {
    ListedStep(snapshot, rest, toDelete, key);
    if snapshot[key].uniqueId in toDelete {
      DeleteProgressRemoved(start, domain, snapshot, toDelete, rest, t, evs, key, extra);
    } else {
      assert evs + extra == evs;
      assert ListedNames(Processed(snapshot, rest - {key}), toDelete) == ListedNames(Processed(snapshot, rest), toDelete);
    }
  }

  /** The step of `DeleteProgressStep` for an entity whose id is listed. */
  lemma DeleteProgressRemoved(start: Table, domain: string, snapshot: map<string, EntityData>, toDelete: multiset<string>,
                              rest: set<string>, t: Table, evs: seq<Event>, key: string, extra: seq<Event>)
    requires DeleteProgress(start, domain, snapshot, toDelete, rest, t, evs)
    requires key in rest && snapshot[key].uniqueId in toDelete
    requires Deletions(extra, Removed(t, domain, snapshot[key].name))
    requires ListedNames(Processed(snapshot, rest - {key}), toDelete) ==
      ListedNames(Processed(snapshot, rest), toDelete) + {snapshot[key].name}
    ensures DeleteProgress(start, domain, snapshot, toDelete, rest - {key}, Removed(t, domain, snapshot[key].name), evs + extra)
  {
    var listed := ListedNames(Processed(snapshot, rest), toDelete);
    var name := snapshot[key].name;
    RemovedInDomain(t, domain, name);
    assert t[domain] - {name} == snapshot - (listed + {name});
    DeletionsAppend(evs, extra, t, domain, name);
  }

  /**
    What `delete_entity(domain, name)` does to table `t` and which calls it
    makes: a missing entry changes nothing and calls nothing; otherwise the
    entry goes, its registry entry is removed when the registry lets it, and
    then its device is deleted when no remaining entity uses that device.
   */
  ghost predicate DeleteEntityEffect(t: Table, domain: string, name: string, reg: Registry, t': Table, calls: seq<Event>) {
    match Entry(t, domain, name)
    case None => t' == WithDomain(t, domain) && calls == []
    case Some(e) =>
      var id := reg.entityIdOf(domain, e.uniqueId);
      && t' == Removed(t, domain, name)
      && calls == (if reg.removes(id) then [RegistryRemoved(id)] else [])
                  + (if reg.removes(id) && !DeviceNameInUse(t', e.deviceName) then [DeviceDeleted(e.deviceName)] else [])
  }

  /** `delete_entity(domain, name)` on a domain that exists is a removal from that domain's map. */
  lemma RemovedInDomain(t: Table, domain: string, name: string)
    requires domain in t
    ensures Removed(t, domain, name) == t[domain := t[domain] - {name}]
  {
    if name !in t[domain] {
      assert t[domain] - {name} == t[domain];
    }
  }

  /** Every entry of a domain is stored under its own name, as `create_components` stores them. */
  ghost predicate KeyedByName(names: map<string, EntityData>) {
    forall k | k in names :: names[k].name == k
  }

  /** The registry removal of every listed entity of `names` that the registry lets go is among `evs`. */
  ghost predicate RemovalsLogged(domain: string, names: map<string, EntityData>, toDelete: multiset<string>,
                                 reg: Registry, evs: seq<Event>)
  {
    forall k | k in names && names[k].uniqueId in toDelete && reg.removes(reg.entityIdOf(domain, names[k].uniqueId)) ::
      RegistryRemoved(reg.entityIdOf(domain, names[k].uniqueId)) in evs
  }

  /** `RemovalsLogged` for a domain of table `t` whose entries sit under their own names. */
  ghost predicate RemovalsLoggedIn(domain: string, t: Table, toDelete: multiset<string>, reg: Registry, evs: seq<Event>) {
    KeyedByName(DomainNames(t, domain)) ==> RemovalsLogged(domain, DomainNames(t, domain), toDelete, reg, evs)
  }

  /**
    One more entity of the delete loop over a domain keyed by name: the
    entry under its name is still the snapshot's, so `delete_entity` logs
    its registry removal when the registry lets it go.
   */
  lemma RemovalsStep(start: Table, domain: string, snapshot: map<string, EntityData>, toDelete: multiset<string>,
                     rest: set<string>, t: Table, evs: seq<Event>, key: string, reg: Registry, t': Table, extra: seq<Event>)
    requires DeleteProgress(start, domain, snapshot, toDelete, rest, t, evs)
    requires KeyedByName(snapshot) && key in rest
    requires RemovalsLogged(domain, Processed(snapshot, rest), toDelete, reg, evs)
    requires snapshot[key].uniqueId in toDelete ==> DeleteEntityEffect(t, domain, snapshot[key].name, reg, t', extra)
    ensures RemovalsLogged(domain, Processed(snapshot, rest - {key}), toDelete, reg, evs + extra)
  {
    var done, done' := Processed(snapshot, rest), Processed(snapshot, rest - {key});
    assert done' == done[key := snapshot[key]];
    forall k | k in done' && done'[k].uniqueId in toDelete && reg.removes(reg.entityIdOf(domain, done'[k].uniqueId))
      ensures RegistryRemoved(reg.entityIdOf(domain, done'[k].uniqueId)) in evs + extra
    {
      if k == key {
        assert key !in ListedNames(done, toDelete);
        assert Entry(t, domain, key) == Some(snapshot[key]);
        assert (evs + extra)[|evs|] == RegistryRemoved(reg.entityIdOf(domain, snapshot[key].uniqueId));
      } else {
        assert RegistryRemoved(reg.entityIdOf(domain, done[k].uniqueId)) in evs;
      }
    }
  }

  /** Calls appended in two rounds: what follows `before` is the first round, then the second. */
  lemma LogJoin(before: seq<Event>, middle: seq<Event>, log: seq<Event>)
    requires |middle| >= |before| && middle[..|before|] == before
    requires |log| >= |middle| && log[..|middle|] == middle
    ensures |log| >= |before| && log[..|before|] == before
    ensures log[|before|..] == middle[|before|..] + log[|middle|..]
  {
    assert log[..|before|] == middle[..|before|];
  }

  /** The calls made into Home Assistant and the device manager, as one log. */
  class HassCalls {
    var log: seq<Event>

    constructor ()
      ensures log == []
    {
      log := [];
    }
  }

  class HomeAssistantManager {
    const configManager: ConfigManager
    const api: SwitcherApi
    const entityManager: EntityManager
    var isInitialized: bool
    var isUpdating: bool
    var integrationName: Option<string>
    /** The cancel handles `_remove_async_track_time_*`. */
    var trackEntities: Option<Tracker>
    var trackSchedule: Option<Tracker>
    var trackState: Option<Tracker>
    const hass: HassCalls

    /**
      `HomeAssistantManager(hass)` together with the API and entity manager
      `async_init` creates; `now` is the clock the API starts with.
     */
    constructor (now: int)
      ensures fresh(configManager) && fresh(api) && fresh(entityManager) && fresh(hass)
      ensures configManager.configEntry == None && configManager.data == None
      ensures api.state == map[] && api.schedules == map[] && !api.isUpdating && api.sent == []
      ensures entityManager.entities == map[] && entityManager.components == {} && entityManager.added == []
      ensures !isInitialized && !isUpdating && integrationName == None
      ensures trackEntities == None && trackSchedule == None && trackState == None && hass.log == []
    {
      configManager := new ConfigManager();
      api := new SwitcherApi(now);
      entityManager := new EntityManager();
      isInitialized := false;
      isUpdating := false;
      integrationName := None;
      trackEntities := None;
      trackSchedule := None;
      trackState := None;
      hass := new HassCalls();
    }

    /** `async_init(entry)` up to the task it schedules: the entry is read and its title kept. */
    method AsyncInit(entry: ConfigEntry)
      modifies this, configManager
      ensures configManager.configEntry == Some(entry) && configManager.data == Some(FromEntry(entry))
      ensures integrationName == Some(entry.title)
      ensures isInitialized == old(isInitialized) && isUpdating == old(isUpdating) && hass.log == old(hass.log)
      ensures trackEntities == old(trackEntities) && trackSchedule == old(trackSchedule) && trackState == old(trackState)
    {
      configManager.Update(entry);
      integrationName := Some(entry.title);
    }

    /**
      What a run of `_async_update()` on an initialised manager leaves,
      given the flag, name, sent calls and log it started from: nothing
      during another run or without a config entry; otherwise the rename
      decision for the entry's title, the rename call when the name
      differed, and the update, schedule and dispatch events.
     */
    ghost predicate UpdateRan(renamed: Option<bool>, wasUpdating: bool, nameBefore: Option<string>,
                              sentBefore: seq<DeviceCall>, logBefore: seq<Event>)
      reads this, api, hass, configManager
    {
      if wasUpdating || configManager.configEntry.None? then
        integrationName == nameBefore && api.sent == sentBefore && hass.log == logBefore
      else
        var title := configManager.configEntry.value.title;
        && integrationName == NameAfterRun(nameBefore, title, renamed == Some(true))
        && api.sent == sentBefore + (if NeedsRename(nameBefore, title) then [SetDeviceName(title)] else [])
        && hass.log == logBefore + [DevicesUpdated, EntitiesUpdateScheduled] + DispatchEvents()
    }

    /**
      `_async_update()`.  `renamed` is what `set_device_name` reports.  A
      run before initialisation or during another run does nothing; a run
      that proceeds renames the device when its name differs from the
      entry's title, asks the device and entity managers to update,
      dispatches the signals and always ends with the flag cleared.  Without
      a config entry reading the title raises, which ends the run there.
     */
    method AsyncUpdate(renamed: Option<bool>)
      modifies this, api, hass
      ensures !old(isInitialized) || old(isUpdating) ==> unchanged(this) && unchanged(api) && unchanged(hass)
      ensures old(isInitialized) && !old(isUpdating) ==> !isUpdating
      ensures isInitialized == old(isInitialized)
      ensures trackEntities == old(trackEntities) && trackSchedule == old(trackSchedule) && trackState == old(trackState)
      ensures api.state == old(api.state) && api.schedules == old(api.schedules)
      ensures api.lastUpdate == old(api.lastUpdate) && api.isUpdating == old(api.isUpdating)
      ensures old(isInitialized) ==> UpdateRan(renamed, old(isUpdating), old(integrationName), old(api.sent), old(hass.log))
    {
      if !isInitialized {
        return;
      }
      if isUpdating {
        return;
      }
      isUpdating := true;
      if configManager.configEntry.Some? {
        var title := configManager.configEntry.value.title;
        if integrationName != Some(title) {
          var ok := api.SetDeviceName(title, renamed);
          if ok {
            integrationName := Some(title);
          }
        }
        hass.log := hass.log + [DevicesUpdated, EntitiesUpdateScheduled];
        DispatchAll();
      }
      isUpdating := false;
    }

    /** `dispatch_all()` */
    method DispatchAll()
      modifies hass
      ensures !isInitialized ==> hass.log == old(hass.log)
      ensures isInitialized ==> hass.log == old(hass.log) + DispatchEvents()
    {
      if !isInitialized {
        return;
      }
      for i := 0 to |SupportedDomains|
        invariant hass.log == old(hass.log) + DispatchEvents()[..i]
      {
        hass.log := hass.log + [Dispatch(SignalOf(SupportedDomains[i]))];
        assert DispatchEvents()[..i + 1] == DispatchEvents()[..i] + [DispatchEvents()[i]];
      }
    }

    /**
      `async_update_entry(entry)` with the interval constant the timers are
      meant to use: called without an entry it registers the API and entity
      timers; called with one, after initialisation, it re-reads the entry
      and, when the entry sets no auto-off, takes the device's.  Both then
      run `_async_update`.
     */
    method AsyncUpdateEntry(entry: Option<ConfigEntry>, renamed: Option<bool>)
      modifies this, api, configManager, hass
      ensures entry.None? ==> trackState == Some(Tracker(ApiUpdate, StateIntervalSeconds))
      ensures entry.None? ==> trackEntities == Some(Tracker(EntitiesUpdate, UpdateIntervalSeconds))
      ensures entry.Some? ==> trackState == old(trackState) && trackEntities == old(trackEntities)
      ensures trackSchedule == old(trackSchedule) && isInitialized == old(isInitialized)
      ensures !old(isInitialized) ==> isUpdating == old(isUpdating) && integrationName == old(integrationName)
      ensures !old(isInitialized) ==> configManager.configEntry == old(configManager.configEntry)
      ensures !old(isInitialized) ==> configManager.data == old(configManager.data)
      ensures !old(isInitialized) && entry.Some? ==> hass.log == old(hass.log)
      ensures old(isInitialized) && entry.Some? ==> configManager.configEntry == entry
      ensures old(isInitialized) && entry.Some? ==>
        var read := FromEntry(entry.value);
        configManager.data == Some(if read.autoOff == Null then read.(autoOff := Get(old(api.state), KeyAutoOff, Null)) else read)
      ensures old(isInitialized) && !old(isUpdating) ==> !isUpdating
      ensures entry.None? ==>
        |hass.log| >= |old(hass.log)| + 2 &&
        hass.log[..|old(hass.log)| + 2] == old(hass.log) + [Track(trackState.value), Track(trackEntities.value)]
      ensures entry.None? ==> configManager.configEntry == old(configManager.configEntry) && configManager.data == old(configManager.data)
      ensures api.state == old(api.state) && api.schedules == old(api.schedules)
      ensures old(isInitialized) ==>
        UpdateRan(renamed, old(isUpdating), old(integrationName), old(api.sent),
                  old(hass.log) + (if entry.None? then [Track(trackState.value), Track(trackEntities.value)] else []))
    {
      if entry.None? {
        trackState := Some(Tracker(ApiUpdate, StateIntervalSeconds));
        trackEntities := Some(Tracker(EntitiesUpdate, UpdateIntervalSeconds));
        hass.log := hass.log + [Track(trackState.value), Track(trackEntities.value)];
      }
      if !isInitialized {
        return;
      }
      if entry.Some? {
        configManager.Update(entry.value);
        var stateAutoOff := Get(api.state, KeyAutoOff, Null);
        var current := configManager.data.value;
        if current.autoOff == Null {
          configManager.data := Some(current.(autoOff := stateAutoOff));
        }
      }
      ghost var tracked := hass.log;
      AsyncUpdate(renamed);
      assert hass.log[..|tracked|] == tracked;
    }

    /**
      `async_update_entry()` as written: without an entry it names the
      undefined API_INTERVAL, which raises before any timer is registered.
     */
    method AsyncUpdateEntryAsWritten(entry: Option<ConfigEntry>, renamed: Option<bool>) returns (raised: bool)
      modifies this, api, configManager, hass
      ensures raised <==> entry.None?
      ensures raised ==> unchanged(this) && unchanged(api) && unchanged(configManager) && unchanged(hass)
    {
      if entry.None? {
        return true;
      }
      AsyncUpdateEntry(entry, renamed);
      return false;
    }

    /**
      `_async_init()`: forwards the entry to both platforms, marks the
      manager initialised and runs `async_update_entry()`.
     */
    method InitPlatforms(renamed: Option<bool>)
      modifies this, api, configManager, hass
      ensures isInitialized
      ensures trackState == Some(Tracker(ApiUpdate, StateIntervalSeconds))
      ensures trackEntities == Some(Tracker(EntitiesUpdate, UpdateIntervalSeconds))
      ensures |hass.log| >= |old(hass.log)| + 4
      ensures hass.log[..|old(hass.log)| + 4] == old(hass.log) + [ForwardSetup(DomainSensor), ForwardSetup(DomainSwitch),
        Track(Tracker(ApiUpdate, StateIntervalSeconds)), Track(Tracker(EntitiesUpdate, UpdateIntervalSeconds))]
      ensures configManager.configEntry == old(configManager.configEntry) && configManager.data == old(configManager.data)
      ensures api.state == old(api.state) && api.schedules == old(api.schedules)
      ensures UpdateRan(renamed, old(isUpdating), old(integrationName), old(api.sent), old(hass.log) + [ForwardSetup(DomainSensor), ForwardSetup(DomainSwitch),
        Track(Tracker(ApiUpdate, StateIntervalSeconds)), Track(Tracker(EntitiesUpdate, UpdateIntervalSeconds))])
    {
      hass.log := hass.log + [ForwardSetup(SignalDomains[0]), ForwardSetup(SignalDomains[1])];
      ghost var forwarded := hass.log;
      isInitialized := true;
      AsyncUpdateEntry(None, renamed);
      assert hass.log[..|forwarded|] == hass.log[..|forwarded| + 2][..|forwarded|];
    }

    /**
      `async_remove(entry)`: cancels each registered timer once and forgets
      it, unloads both platforms and removes the devices.
     */
    method AsyncRemove()
      modifies this, hass
      ensures trackEntities == None && trackSchedule == None && trackState == None
      ensures hass.log == old(hass.log) + CancelEvents(old(trackEntities), old(trackState), old(trackSchedule))
                        + [Unload(SupportedDomains[0]), Unload(SupportedDomains[1]), DevicesRemoved]
      ensures isInitialized == old(isInitialized) && isUpdating == old(isUpdating) && integrationName == old(integrationName)
    {
      if trackEntities.Some? {
        hass.log := hass.log + [Cancel(trackEntities.value)];
        trackEntities := None;
      }
      if trackState.Some? {
        hass.log := hass.log + [Cancel(trackState.value)];
        trackState := None;
      }
      if trackSchedule.Some? {
        hass.log := hass.log + [Cancel(trackSchedule.value)];
        trackSchedule := None;
      }
      hass.log := hass.log + [Unload(SupportedDomains[0]), Unload(SupportedDomains[1]), DevicesRemoved];
    }

    /**
      `delete_entity(domain, name)`: removes the entry and its registry
      entry, and deletes its device when no remaining entity uses it.  A
      missing entry raises at once (only `get_entity` has run); a registry
      removal that raises ends the call before the device is considered.
     */
    method DeleteEntity(domain: string, name: string, reg: Registry)
      modifies entityManager, hass
      ensures entityManager.components == old(entityManager.components) && entityManager.added == old(entityManager.added)
      ensures |hass.log| >= |old(hass.log)| && hass.log[..|old(hass.log)|] == old(hass.log)
      ensures DeleteEntityEffect(old(entityManager.entities), domain, name, reg, entityManager.entities, hass.log[|old(hass.log)|..])
      ensures domain in old(entityManager.entities) ==> entityManager.entities == Removed(old(entityManager.entities), domain, name)
      ensures Deletions(hass.log[|old(hass.log)|..], entityManager.entities)
    {
      var entity := entityManager.GetEntity(domain, name);
      if entity.None? {
        return;
      }
      var e := entity.value;
      entityManager.DeleteEntity(domain, name);
      var inUse := entityManager.IsDeviceNameInUse(e.deviceName);
      var id := reg.entityIdOf(domain, e.uniqueId);
      if !reg.removes(id) {
        return;
      }
      hass.log := hass.log + [RegistryRemoved(id)];
      if !inUse {
        hass.log := hass.log + [DeviceDeleted(e.deviceName)];
      }
    }

    /** The delete step over one domain: a snapshot of it, then `delete_entity` for every listed entity. */
    method DeleteListedInDomain(domain: string, toDelete: multiset<string>, reg: Registry)
      modifies entityManager, hass
      ensures entityManager.components == old(entityManager.components) && entityManager.added == old(entityManager.added)
      ensures entityManager.entities == Purged(old(entityManager.entities), domain, toDelete)
      ensures |hass.log| >= |old(hass.log)| && hass.log[..|old(hass.log)|] == old(hass.log)
      ensures DeleteCalls(hass.log[|old(hass.log)|..])
      ensures DeletionsUnused(hass.log[|old(hass.log)|..], entityManager.entities)
      ensures RemovalsLoggedIn(domain, old(entityManager.entities), toDelete, reg, hass.log[|old(hass.log)|..])
    {
      var snapshot := entityManager.GetEntities(domain);
      ghost var start := entityManager.entities;
      ghost var before := hass.log;
      var rest := snapshot.Keys;
      assert Processed(snapshot, rest) == map[];
      assert ListedNames(map[], toDelete) == {};
      assert snapshot - {} == snapshot;
      while rest != {}
        invariant |hass.log| >= |before| && hass.log[..|before|] == before
        invariant DeleteProgress(start, domain, snapshot, toDelete, rest, entityManager.entities, hass.log[|before|..])
        invariant entityManager.components == old(entityManager.components) && entityManager.added == old(entityManager.added)
        invariant KeyedByName(snapshot) ==> RemovalsLogged(domain, Processed(snapshot, rest), toDelete, reg, hass.log[|before|..])
        decreases rest
      {
        var key :| key in rest;
        var e := snapshot[key];
        ghost var t, evs := entityManager.entities, hass.log;
        if e.uniqueId in toDelete {
          DeleteEntity(domain, e.name, reg);
        }
        LogJoin(before, evs, hass.log);
        if KeyedByName(snapshot) {
          RemovalsStep(start, domain, snapshot, toDelete, rest, t, evs[|before|..], key, reg,
                       entityManager.entities, hass.log[|evs|..]);
        }
        DeleteProgressStep(start, domain, snapshot, toDelete, rest, t, evs[|before|..], key,
                           entityManager.entities, hass.log[|evs|..]);
        rest := rest - {key};
      }
      assert Processed(snapshot, rest) == snapshot;
    }

    /**
      Lines 219-228 of the entity manager's `_async_update`: when ids are
      left to delete, both domains, sensors first, lose their listed entities.
     */
    method DeleteListed(toDelete: multiset<string>, reg: Registry)
      modifies entityManager, hass
      ensures entityManager.components == old(entityManager.components) && entityManager.added == old(entityManager.added)
      ensures toDelete == multiset{} ==> entityManager.entities == old(entityManager.entities) && hass.log == old(hass.log)
      ensures toDelete != multiset{} ==>
        entityManager.entities == Purged(Purged(old(entityManager.entities), DomainSensor, toDelete), DomainSwitch, toDelete)
      ensures |hass.log| >= |old(hass.log)| && hass.log[..|old(hass.log)|] == old(hass.log)
      ensures DeleteCalls(hass.log[|old(hass.log)|..])
      ensures DeletionsUnused(hass.log[|old(hass.log)|..], entityManager.entities)
      ensures RemovalsLoggedIn(DomainSensor, old(entityManager.entities), toDelete, reg, hass.log[|old(hass.log)|..])
      ensures RemovalsLoggedIn(DomainSwitch, old(entityManager.entities), toDelete, reg, hass.log[|old(hass.log)|..])
    {
      if toDelete == multiset{} {
        return;
      }
      ghost var before := hass.log;
      ghost var start := entityManager.entities;
      DeleteListedInDomain(SignalDomains[0], toDelete, reg);
      ghost var middle := hass.log;
      ghost var t := entityManager.entities;
      DeleteListedInDomain(SignalDomains[1], toDelete, reg);
      PurgeKeepsUnused(middle[|before|..], t, DomainSwitch, toDelete);
      assert hass.log[|before|..] == middle[|before|..] + hass.log[|middle|..];
      assert DomainNames(t, DomainSwitch) == DomainNames(start, DomainSwitch);
    }

    /**
      The entity manager's `_async_update` as a whole: the update pass over
      the API's current state and schedules, then the delete step when the
      pass went through both domains.  Afterwards no entity of either domain
      is still CREATED.
     */
    method UpdateEntities(ctx: Context, reg: Registry) returns (result: UpdateResult)
      modifies entityManager, hass
      ensures entityManager.components == old(entityManager.components)
      ensures result.completed <==> DomainSensor in entityManager.components && DomainSwitch in entityManager.components
      ensures !result.completed ==> hass.log == old(hass.log)
      ensures result.completed ==>
        forall d, n | d in SignalDomains && d in entityManager.entities && n in entityManager.entities[d] ::
          entityManager.entities[d][n].status != StatusCreated
      ensures |hass.log| >= |old(hass.log)| && hass.log[..|old(hass.log)|] == old(hass.log)
      ensures DeletionsUnused(hass.log[|old(hass.log)|..], entityManager.entities)
      ensures var t1 := Components(ctx, old(entityManager.entities), old(api.state), old(api.schedules));
        var before := UniqueIds(old(entityManager.entities));
        && (DomainSensor !in entityManager.components ==> entityManager.entities == t1)
        && (DomainSensor in entityManager.components && !result.completed ==>
              entityManager.entities == AfterDomain(reg, DomainSensor, t1))
        && (result.completed ==>
              result.toDelete == Leftover(reg, t1, before) && entityManager.entities == AfterUpdate(reg, t1, before))
      ensures var t1 := Components(ctx, old(entityManager.entities), old(api.state), old(api.schedules));
        var sensorCalls := AddCalls(reg, DomainSensor, DomainNames(t1, DomainSensor));
        && (DomainSensor !in entityManager.components ==> entityManager.added == old(entityManager.added))
        && (DomainSensor in entityManager.components && !result.completed ==>
              entityManager.added == old(entityManager.added) + sensorCalls)
        && (result.completed ==>
              entityManager.added == old(entityManager.added) + sensorCalls
                + AddCalls(reg, DomainSwitch, DomainNames(AfterDomain(reg, DomainSensor, t1), DomainSwitch)))
    {
      result := entityManager.Reconcile(ctx, api.state, api.schedules, reg);
      if !result.completed {
        return;
      }
      ghost var t := entityManager.entities;
      ghost var t1 := Components(ctx, old(entityManager.entities), old(api.state), old(api.schedules));
      ghost var before := UniqueIds(old(entityManager.entities));
      assert t == AfterPass(reg, t1) && result.toDelete == Leftover(reg, t1, before);
      DeleteListed(result.toDelete, reg);
      if result.toDelete == multiset{} {
        PurgedNothing(t);
      }
      assert entityManager.entities == AfterUpdate(reg, t1, before);
      AfterUpdateSettled(reg, t1, before);
    }
  }

  /** The table the update pass leaves when it goes through both domains, sensors first. */
  ghost function AfterPass(reg: Registry, t1: Table): Table {
    AfterDomain(reg, DomainSwitch, AfterDomain(reg, DomainSensor, t1))
  }

  /** The unique ids still listed after that pass: those of `before` less those of the CREATED entities it met. */
  ghost function Leftover(reg: Registry, t1: Table, before: multiset<string>): multiset<string> {
    before - CreatedIds(DomainNames(t1, DomainSensor)) - CreatedIds(DomainNames(AfterDomain(reg, DomainSensor, t1), DomainSwitch))
  }

  /** The table the entity manager's `_async_update` leaves: the pass, then the delete step over both domains. */
  ghost function AfterUpdate(reg: Registry, t1: Table, before: multiset<string>): Table {
    var toDelete := Leftover(reg, t1, before);
    Purged(Purged(AfterPass(reg, t1), DomainSensor, toDelete), DomainSwitch, toDelete)
  }

  /** After the update no entity of either domain is CREATED. */
  lemma AfterUpdateSettled(reg: Registry, t1: Table, before: multiset<string>)
    ensures var r := AfterUpdate(reg, t1, before);
      forall d, n | d in SignalDomains && d in r && n in r[d] :: r[d][n].status != StatusCreated
  {
    ReconcileOutcome(reg, t1, before, "");
    PurgedKeepsStatus(AfterPass(reg, t1), Leftover(reg, t1, before));
  }

  /** With nothing listed the delete step leaves both domains as they are. */
  lemma PurgedNothing(t: Table)
    requires DomainSensor in t && DomainSwitch in t
    ensures Purged(Purged(t, DomainSensor, multiset{}), DomainSwitch, multiset{}) == t
  {
    PurgedNothingIn(t, DomainSensor);
    PurgedNothingIn(t, DomainSwitch);
  }

  /** With nothing listed one domain keeps its entries. */
  lemma PurgedNothingIn(t: Table, domain: string)
    requires domain in t
    ensures Purged(t, domain, multiset{}) == t
  {
    var names := t[domain];
    assert ListedNames(names, multiset{}) == {};
    assert names - {} == names;
  }

  /**
    A stale entity goes: an entry stored under its own name before the
    update, which `create_components` leaves in place and whose unique id
    no CREATED entity of the pass carries, is gone afterwards.
   */
  lemma UpdateRemovesStale(ctx: Context, reg: Registry, t0: Table, state: map<string, Value>, schedules: map<string, Value>,
                           d: string, n: string)
    requires d in SignalDomains && d in t0 && n in t0[d] && t0[d][n].name == n
    requires Entry(Components(ctx, t0, state, schedules), d, n) == Entry(t0, d, n)
    requires var t1 := Components(ctx, t0, state, schedules);
      forall d', k | d' in SignalDomains && k in DomainNames(t1, d') && DomainNames(t1, d')[k].status == StatusCreated ::
        DomainNames(t1, d')[k].uniqueId != t0[d][n].uniqueId
    ensures n !in AfterUpdate(reg, Components(ctx, t0, state, schedules), UniqueIds(t0))[d]
  {
    var t1 := Components(ctx, t0, state, schedules);
    var uid := t0[d][n].uniqueId;
    InUniqueIds(t0, uid);
    ReconcileOutcome(reg, t1, UniqueIds(t0), uid);
    UpdateRemovesListed(reg, t1, UniqueIds(t0), d, n);
  }

  /** An entity stored under its own name whose unique id is left to delete is gone after the update. */
  lemma UpdateRemovesListed(reg: Registry, t1: Table, before: multiset<string>, d: string, n: string)
    requires d in SignalDomains && d in t1 && n in t1[d] && t1[d][n].name == n
    requires t1[d][n].uniqueId in Leftover(reg, t1, before)
    ensures n !in AfterUpdate(reg, t1, before)[d]
  {
    var toDelete := Leftover(reg, t1, before);
    var t3 := AfterPass(reg, t1);
    var p1 := Purged(t3, DomainSensor, toDelete);
    assert t3[d][n] == Reconciled(reg, d, t1[d][n]);
    if d == DomainSensor {
      PurgedRemovesListed(t3, d, toDelete, n);
    } else {
      assert p1[d] == t3[d];
      PurgedRemovesListed(p1, d, toDelete, n);
    }
  }

  /**
    A regenerated entity stays: an entry `create_components` adds or
    replaces, in a domain whose earlier entries were stored under their own
    names, survives the update reconciled (no longer CREATED) when its
    unique id is not left to delete.
   */
  lemma UpdateKeepsRegenerated(ctx: Context, reg: Registry, t0: Table, state: map<string, Value>, schedules: map<string, Value>,
                               d: string, n: string)
    requires KeyedByName(DomainNames(t0, d))
    requires var t1 := Components(ctx, t0, state, schedules);
      Entry(t1, d, n).Some? && Entry(t1, d, n) != Entry(t0, d, n)
      && t1[d][n].uniqueId !in Leftover(reg, t1, UniqueIds(t0))
    ensures var t1 := Components(ctx, t0, state, schedules);
      var r := AfterUpdate(reg, t1, UniqueIds(t0));
      n in r[d] && r[d][n] == Reconciled(reg, d, t1[d][n]) && r[d][n].status != StatusCreated
  {
    var t1 := Components(ctx, t0, state, schedules);
    ComponentsKeyedByName(ctx, t0, state, schedules);
    ComponentsKeepKeyed(ctx, t0, state, schedules, d);
    UpdateKeepsUnlisted(reg, t1, UniqueIds(t0), d, n);
  }

  /** `create_components` stores what it adds under its own name, so a domain keyed by name stays so. */
  lemma ComponentsKeepKeyed(ctx: Context, t0: Table, state: map<string, Value>, schedules: map<string, Value>, d: string)
    requires KeyedByName(DomainNames(t0, d))
    ensures KeyedByName(DomainNames(Components(ctx, t0, state, schedules), d))
  {
    var t1 := Components(ctx, t0, state, schedules);
    ComponentsKeyedByName(ctx, t0, state, schedules);
    forall k | k in DomainNames(t1, d)
      ensures DomainNames(t1, d)[k].name == k
    {
      if Entry(t1, d, k) == Entry(t0, d, k) {
        assert k in DomainNames(t0, d);
      }
    }
  }

  /** In a domain keyed by name, an entity whose unique id is not left to delete survives the update, reconciled. */
  lemma UpdateKeepsUnlisted(reg: Registry, t1: Table, before: multiset<string>, d: string, n: string)
    requires d in SignalDomains && d in t1 && n in t1[d] && KeyedByName(t1[d])
    requires t1[d][n].uniqueId !in Leftover(reg, t1, before)
    ensures var r := AfterUpdate(reg, t1, before);
      n in r[d] && r[d][n] == Reconciled(reg, d, t1[d][n]) && r[d][n].status != StatusCreated
  {
    var toDelete := Leftover(reg, t1, before);
    var t3 := AfterPass(reg, t1);
    var p1 := Purged(t3, DomainSensor, toDelete);
    assert t3[d] == ReconciledDomain(reg, d, t1[d]);
    if d == DomainSensor {
      PurgedRemovesListed(t3, d, toDelete, n);
    } else {
      assert p1[d] == t3[d];
      PurgedRemovesListed(p1, d, toDelete, n);
    }
  }

  /** Purging a domain only removes entries, so no device comes back into use. */
  lemma PurgeKeepsUnused(evs: seq<Event>, t: Table, domain: string, toDelete: multiset<string>)
    requires DeletionsUnused(evs, t)
    ensures DeletionsUnused(evs, Purged(t, domain, toDelete))
  {
    var r := Purged(t, domain, toDelete);
    forall i | 0 <= i < |evs| && evs[i].DeviceDeleted?
      ensures !DeviceNameInUse(r, evs[i].deviceName)
    {
      forall d, n | d in r && n in r[d]
        ensures r[d][n].deviceName != evs[i].deviceName
      {
        assert d in t && n in t[d] && t[d][n] == r[d][n];
      }
    }
  }

  /** The delete step keeps a table free of CREATED entities in both domains. */
  lemma PurgedKeepsStatus(t: Table, toDelete: multiset<string>)
    requires DomainSensor in t && DomainSwitch in t
    requires forall d, n | d in SignalDomains && n in t[d] :: t[d][n].status != StatusCreated
    ensures var r := Purged(Purged(t, DomainSensor, toDelete), DomainSwitch, toDelete);
      forall d, n | d in SignalDomains && n in r[d] :: r[d][n].status != StatusCreated
  {
  }
}
