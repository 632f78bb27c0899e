# ha-switcher core in Dafny

A model of the two Home Assistant integrations for Switcher water heaters.
`switcher_api` talks to the device through the `aioswitcher` client.
`switcher` is the older V2 integration.

- **`switcher_api`**
  - `SwitcherApi` (`ProxyApi`) keeps the last state and schedules, and sends device commands.
  - `_serialize_object` (`ProxySerialize`) turns a response object into a dict.
  - The `ConfigData` record and `ConfigManager` (`ProxyConfigData`, `ProxyConfigManager`) hold the config.
  - `EntityManager` (`Entities`) owns the two-level table domain → name → entity record. It builds the sensors and switches, and reconciles the table with the entity registry.
  - `HomeAssistantManager` (`HomeAssistant`) runs the update cycle, timers, dispatching and entity deletion.
  - The `hass.data` helpers (`ProxyHelpers`) and `ConfigFlowManager` (`ProxyConfigFlow`) cover setup and the config flows.
- **`switcher`**: the classic API (`ClassicApi`), its config record and manager (`ClassicConfigData`, `ClassicConfigManager`), and its config flow (`ClassicConfigFlow`).

How the Python maps to Dafny:

- **State updated in place.** Objects whose attributes change are `class`es. Their methods carry `modifies` clauses. Their `ensures` tie each field they change to the old state and the inputs. The section "Left out" names the steps whose effect is not spelled out field by field.
- **Pure data.** Records and builders are datatypes and functions, each with lemmas about it.
- **Python values.** Dynamic values are `PyValues.Value` (None, bools, ints, strings, enum members, lists, sets, dicts). Dicts are `map<string, Value>`.
- **Outside calls.** Calls into `aioswitcher`, the entity registry, the state machine and the device manager are replaced by parameters. Each parameter gives the answer the call returns, or `None` when it raises. The calls the code makes are recorded in `seq` logs (`SwitcherApi.sent`, `HassCalls.log`).
- **Clocks.** Clock readings are integer parameters.
- **Loops.** Loops that update variables are `method`s with loop invariants. Each is proved against a function that specifies it.

## Model

| member | source | states |
|---|---|---|
| PyValues.Strings | custom_components/switcher_api/managers/entity_manager.py:354 | the strings `", ".join` can join: present exactly when every element is a string, element by element |
| PyValues.Lower | custom_components/switcher_api/helpers/__init__.py:51 | `str.lower()` keeps the length and lowers each character |
| ProxyConfigData.Default | custom_components/switcher_api/models/config_data.py:12-18 | a fresh record has the default name, empty ip address and device id, no auto-off and the default log level |
| ProxyConfigData.ReprItems | custom_components/switcher_api/models/config_data.py:20-30 | the repr dict holds name, ip address, device id and auto-off, in that order |
| ProxyConfigData.ReprKeys | custom_components/switcher_api/models/config_data.py:21-26 | the repr's four keys are distinct and are exactly those four |
| ProxyConfigData.ReprIgnoresLogLevel | custom_components/switcher_api/models/config_data.py:20-30 | changing the log level never changes the repr |
| ClassicConfigData.Default | custom_components/switcher/models/config_data.py:14-21 | a fresh record has the default name, phone id, device id and password, an empty host and the default log level |
| ClassicConfigData.ReprItems | custom_components/switcher/models/config_data.py:23-32 | the repr dict holds name, host and device id, in that order |
| ClassicConfigData.ReprHidesSecrets | custom_components/switcher/models/config_data.py:23-32 | the phone id, the device password and the log level never reach the repr |
| ProxyConfigManager.GetBasicData | custom_components/switcher_api/managers/configuration_manager.py:30-38 | no data gives the default record; otherwise ip address and device id come from the data (None when missing) and the rest keeps its defaults |
| ProxyConfigManager.FromEntry | custom_components/switcher_api/managers/configuration_manager.py:16-28 | the record `update` builds: ip address and device id from the entry's data, auto-off and log level from its options, each with its default |
| ProxyConfigManager.FromEntryRoundTrip | custom_components/switcher_api/managers/configuration_manager.py:16-28 | saving a record's fields in an entry and reading the entry back gives the record again |
| ProxyConfigManager.ConfigManager.constructor | custom_components/switcher_api/managers/configuration_manager.py:12-14 | entry and data both start unset |
| ProxyConfigManager.ConfigManager.Update | custom_components/switcher_api/managers/configuration_manager.py:16-28 | keeps the entry and the record read from it |
| ClassicConfigManager.GetBasicData | custom_components/switcher/managers/configuration_manager.py:29-37 | no data gives the default record; otherwise host and device id come from the data (None when missing) and the credentials keep their defaults |
| ClassicConfigManager.FromEntry | custom_components/switcher/managers/configuration_manager.py:16-27 | the record `update` builds: host and device id from the data, log level from the options, default name and credentials |
| ClassicConfigManager.FromEntryRoundTrip | custom_components/switcher/managers/configuration_manager.py:16-27 | a record with default name and credentials survives saving in an entry and reading back |
| ClassicConfigManager.ConfigManager.constructor | custom_components/switcher/managers/configuration_manager.py:12-14 | entry and data start unset, under the given package constants |
| ClassicConfigManager.ConfigManager.Update | custom_components/switcher/managers/configuration_manager.py:16-27 | keeps the entry and the record read from it |
| ProxySerialize.SerializeValue | custom_components/switcher_api/api/__init__.py:10-15 | an enum member becomes its name, a set becomes a list of as many names or members, anything else is kept; no enum or set remains |
| ProxySerialize.Serialized | custom_components/switcher_api/api/__init__.py:5-17 | every attribute except `unparsed_response` is kept, each value serialised |
| ProxySerialize.SerializedIdempotent | custom_components/switcher_api/api/__init__.py:5-17 | serialising a serialised dict changes nothing |
| ProxySerialize.SerializeObject | custom_components/switcher_api/api/__init__.py:5-17 | the loop builds exactly the serialised dict |
| ProxyApi.DeviceDetails | custom_components/switcher_api/api/switcher_api.py:45-47 | the text starts with "IP: " and the ip address and ends with the device id |
| ProxyApi.Fetch | custom_components/switcher_api/api/switcher_api.py:123-182 | `_get_state` / `_get_schedules` give the serialised response exactly when the device answered successfully, never with `unparsed_response` |
| ProxyApi.Refresh | custom_components/switcher_api/api/switcher_api.py:58-69 | only a non-empty fetched dict replaces the kept one |
| ProxyApi.CommandFor | custom_components/switcher_api/api/switcher_api.py:243 | the command is ON exactly when the action is true |
| ProxyApi.Succeeded | custom_components/switcher_api/api/switcher_api.py:248-266 | a command succeeds exactly when the device reports success; a raised call is a failure |
| ProxyApi.SelectedDays | custom_components/switcher_api/api/switcher_api.py:78-81 | a falsy `days` selects nothing; a truthy one that is not a dict holding "days" raises. Otherwise the result is the set of `weekdays[d]` for each day `d` in `days["days"]`: it exists exactly when every day is a known weekday (an unknown one raises), contains each listed day's name and nothing else |
| ProxyApi.CreateScheduleCall | custom_components/switcher_api/api/switcher_api.py:74-99 | the request is sent exactly when the day set can be computed, with that set and the two times; succeeds exactly when the request was sent and the device accepted it |
| ProxyApi.DeleteScheduleCall | custom_components/switcher_api/api/switcher_api.py:101-121 | the id is always sent; success exactly when the device reports it |
| ProxyApi.SetAutoShutdownCall | custom_components/switcher_api/api/switcher_api.py:184-207 | hours and minutes are always sent, with no range check; success exactly when the device reports it |
| ProxyApi.SetDeviceNameCall | custom_components/switcher_api/api/switcher_api.py:209-229 | the name is always sent, with no length check; success exactly when the device reports it |
| ProxyApi.SwitcherApi.constructor | custom_components/switcher_api/api/switcher_api.py:25-31 | empty state and schedules, the given clock as the last update, not updating |
| ProxyApi.SwitcherApi.AsyncUpdate | custom_components/switcher_api/api/switcher_api.py:49-72 | a run during another run changes nothing; otherwise the state is refreshed, the schedules only when a minute has passed, and the last-update time becomes the finishing clock |
| ProxyApi.SwitcherApi.ToggleState | custom_components/switcher_api/api/switcher_api.py:241-266 | sends the command and succeeds exactly when the device reports it. On success outside a running update, the state is refreshed, the schedules only when a minute has passed since the last update, the last-update time becomes the finishing clock and the flag is cleared. Otherwise state, schedules, clock and flag stay as they were |
| ProxyApi.SwitcherApi.SetAutoShutdown | custom_components/switcher_api/api/switcher_api.py:184-207 | appends the request to the sent calls and reports the device's verdict; nothing else changes |
| ProxyApi.SwitcherApi.SetDeviceName | custom_components/switcher_api/api/switcher_api.py:209-229 | appends the request to the sent calls and reports the device's verdict; nothing else changes |
| ProxyApi.SwitcherApi.TurnOn | custom_components/switcher_api/api/switcher_api.py:236-239 | ToggleState's outcome with ON and the minutes: the command first, then the refresh on success |
| ProxyApi.SwitcherApi.TurnOff | custom_components/switcher_api/api/switcher_api.py:231-234 | ToggleState's outcome with OFF and 0 minutes: the command first, then the refresh on success |
| ClassicApi.IsSuccess | custom_components/switcher/api/switcher_api.py:57-61 | true exactly when there is a response of the expected message type |
| ClassicApi.Splice | custom_components/switcher/api/switcher_api.py:124-126 | the first two characters, then the code, then everything from index 4 |
| ClassicApi.SpliceReplacesOnlyStatus | custom_components/switcher/api/switcher_api.py:123-126 | with a two-character code the length is kept and only characters 2 and 3 change |
| ClassicApi.ToggleSchedule | custom_components/switcher/api/switcher_api.py:118-166 | the spliced data is sent exactly when the data has 24 characters; success needs the expected answer |
| ClassicApi.EnableSchedule | custom_components/switcher/api/switcher_api.py:143-166 | the toggle with the enable code; data of the wrong length always fails |
| ClassicApi.DisableSchedule | custom_components/switcher/api/switcher_api.py:118-141 | the toggle with the disable code; data of the wrong length always fails |
| ClassicApi.ScheduleDaysAsWritten | custom_components/switcher/api/switcher_api.py:70-73 | the day list as written: fails exactly for a recurring schedule with days, otherwise `[0]` |
| ClassicApi.ScheduleDayList | custom_components/switcher/api/switcher_api.py:70-73 | the intended day list: `[0]` and then, when recurring, each day's code in order; it fails exactly when a day is unknown |
| ClassicApi.RecurringScheduleFailsAsWritten | custom_components/switcher/api/switcher_api.py:70-73 | for known days a recurring schedule fails as written while the intended list exists, one code per day |
| ClassicApi.ScheduleDays | custom_components/switcher/api/switcher_api.py:70-73 | the loop computes the intended day list |
| ClassicApi.CreateScheduleCall | custom_components/switcher/api/switcher_api.py:63-101 | with the corrected ScheduleDays: the request is sent exactly when the day list exists; success needs the CREATE_SCHEDULE answer |
| ClassicApi.DeleteScheduleCall | custom_components/switcher/api/switcher_api.py:103-116 | the id is always sent; success needs the DELETE_SCHEDULE answer |
| ClassicApi.AutoShutdownMinutes | custom_components/switcher/api/switcher_api.py:245-247 | never negative; for non-negative parts it is hours × 60 + minutes |
| ClassicApi.AutoShutdownRange | custom_components/switcher/api/switcher_api.py:245-250 | for a time of day, the guard accepts exactly 0:59 to 3:00 |
| ClassicApi.SetAutoShutdownCall | custom_components/switcher/api/switcher_api.py:237-263 | sent exactly when the duration is 59 to 180 minutes; success needs the AUTO_OFF answer |
| ClassicApi.SetDeviceNameCall | custom_components/switcher/api/switcher_api.py:265-281 | sent exactly when the name has 2 to 32 characters; success needs the UPDATE_NAME answer |
| ClassicApi.TurnOn | custom_components/switcher/api/switcher_api.py:297-312 | ON is sent, with the timer exactly when the minutes are truthy; success needs the CONTROL answer |
| ClassicApi.TurnOff | custom_components/switcher/api/switcher_api.py:283-295 | OFF is sent without a timer; success needs the CONTROL answer |
| ClassicApi.GetState | custom_components/switcher/api/switcher_api.py:203-235 | a dict exactly for a successful STATE answer, holding the seven state keys with their fields |
| ClassicApi.GetStateHasSevenKeys | custom_components/switcher/api/switcher_api.py:219-227 | with distinct keys the dict has seven entries, each holding its field |
| ClassicApi.FetchState | custom_components/switcher/api/switcher_api.py:203-235 | without `initialize` the call raises and gives None; otherwise it gives the state |
| ClassicApi.GetSchedules | custom_components/switcher/api/switcher_api.py:168-201 | records only for a successful answer that found schedules, and then exactly those records |
| ClassicApi.SwitcherApi.constructor | custom_components/switcher/api/switcher_api.py:30-35 | no client yet, an empty state dict and no schedules |
| ClassicApi.SwitcherApi.Initialize | custom_components/switcher/api/switcher_api.py:48-55 | the client exists afterwards; state and schedules are kept |
| ClassicApi.SwitcherApi.AsyncUpdate | custom_components/switcher/api/switcher_api.py:41-43 | both fields are overwritten with what the fetches give |
| Entities.Entry | custom_components/switcher_api/managers/entity_manager.py:92-96 | a record exactly when the domain and name are stored, and then that record |
| Entities.WithDomain | custom_components/switcher_api/managers/entity_manager.py:83-85 | adds the domain, empty, when missing; every existing domain is kept |
| Entities.PutEntry | custom_components/switcher_api/managers/entity_manager.py:113-121 | what `set_entity` stores is read back, and every other entry is kept |
| Entities.WithStatus | custom_components/switcher_api/managers/entity_manager.py:105-107 | only an existing entry's status changes; a missing entry changes nothing |
| Entities.Removed | custom_components/switcher_api/managers/entity_manager.py:109-111 | the entry is gone, every other entry and every domain is kept |
| Entities.StatusOf | custom_components/switcher_api/managers/entity_manager.py:98-103 | the stored status, or EMPTY for a missing entry |
| Entities.StatusRoundTrip | custom_components/switcher_api/managers/entity_manager.py:98-117 | a status set or stored is read back, and a deleted entry reads as EMPTY |
| Entities.InAllEntities | custom_components/switcher_api/managers/entity_manager.py:73-81 | a record is among all entities exactly when it is stored under some domain and name |
| Entities.UniqueIdFor | custom_components/switcher_api/managers/entity_manager.py:241 | the id is "{DOMAIN}-{domain}-" followed by the name, with the matching length |
| Entities.UniqueIdInjective | custom_components/switcher_api/managers/entity_manager.py:363-365 | within the two entity domains a unique id determines its domain and name |
| Entities.Sensor | custom_components/switcher_api/managers/entity_manager.py:233-257 | named title + suffix, with the derived unique id, the state's value for the key, the friendly name as its only attribute and the device class |
| Entities.PowerConsumptionSensor | custom_components/switcher_api/managers/entity_manager.py:233-257 | the "Power Consumption" sensor reads `power_consumption`, class "power" |
| Entities.ElectricCurrentSensor | custom_components/switcher_api/managers/entity_manager.py:268-292 | the "Electric Current" sensor reads `electric_current`, class "current" |
| Entities.Attributes | custom_components/switcher_api/managers/entity_manager.py:314-318 | the friendly name plus every item whose key is not excluded, each with its value |
| Entities.MainSwitch | custom_components/switcher_api/managers/entity_manager.py:303-332 | named by the title; on exactly when the state is "on"; icon follows the state; every key but state and successful is an attribute |
| Entities.ScheduleDescription | custom_components/switcher_api/managers/entity_manager.py:349-361 | present exactly when the schedule's days can be joined |
| Entities.ScheduleSwitchShape | custom_components/switcher_api/managers/entity_manager.py:343-388 | fails exactly when the days cannot be joined; otherwise named and keyed by its name, its state is `enabled`, and every other field is an attribute |
| Entities.ScheduleNameShape | custom_components/switcher_api/managers/entity_manager.py:354-363 | the name is "<title> Schedule #<id> - [Recurring - ]<days> - <start>-<end>" |
| Entities.ScheduleIdentityIgnoresEnabled | custom_components/switcher_api/managers/entity_manager.py:363-373 | toggling `enabled` changes the switch's state only, never its unique id |
| Entities.ScheduleSwitchesShape | custom_components/switcher_api/managers/entity_manager.py:132-136 | at most one switch per item, each a schedule switch named after the title with its derived unique id |
| Entities.ScheduleSwitchesNext | custom_components/switcher_api/managers/entity_manager.py:135-136 | a dict item adds its own switch after those of the items before it |
| Entities.ScheduleSwitchesStop | custom_components/switcher_api/managers/entity_manager.py:390-391 | an item that is not a dict ends the loop; nothing after it is generated |
| Entities.StoreEffect | custom_components/switcher_api/managers/entity_manager.py:117 | storing a batch touches one domain only; each record lands under its own name and untouched names keep their entries |
| Entities.GeneratedShape | custom_components/switcher_api/managers/entity_manager.py:132-136 | every generated schedule switch carries the switch unique id of its name, which starts with the title |
| Entities.ComponentsKeyedByName | custom_components/switcher_api/managers/entity_manager.py:123-138 | every entry `create_components` adds or replaces is in one of the two domains, under its own name, with the derived unique id |
| Entities.BuiltInsKeyedByName | custom_components/switcher_api/managers/entity_manager.py:128-130 | the two sensors and the main switch are stored under their names |
| Entities.ComponentsBuiltIns | custom_components/switcher_api/managers/entity_manager.py:128-136 | the sensors and the main switch survive the schedule loop, because no schedule switch carries the main switch's name |
| Entities.NoSchedulesUnlessFound | custom_components/switcher_api/managers/entity_manager.py:132-136 | without a truthy `found_schedules` only the two sensors and the main switch change |
| Entities.Reconciled | custom_components/switcher_api/managers/entity_manager.py:176-212 | a CREATED entity becomes READY and takes `disabled` from its registry entry; any other entity is unchanged |
| Entities.DomainNames | custom_components/switcher_api/managers/entity_manager.py:87-90 | a domain's entities, empty when the domain is missing |
| Entities.ReconciledDomain | custom_components/switcher_api/managers/entity_manager.py:167-212 | same names, each entity reconciled, none left CREATED |
| Entities.AfterDomain | custom_components/switcher_api/managers/entity_manager.py:157-217 | the pass over one domain changes that domain only |
| Entities.AddedNames | custom_components/switcher_api/managers/entity_manager.py:188-207 | exactly the CREATED entities that have no registry id, or are restored and not disabled |
| Entities.AddCalls | custom_components/switcher_api/managers/entity_manager.py:214-217 | one `async_add_entities` call with the added entities, none when nothing is added |
| Entities.ReconcileSettled | custom_components/switcher_api/managers/entity_manager.py:167-217 | a domain with nothing CREATED is left as it was, adds nothing and keeps every id to delete |
| Entities.ReconcileOutcome | custom_components/switcher_api/managers/entity_manager.py:146-212 | after the pass nothing is CREATED, an id stays listed unless a CREATED entity with it was processed, and new ids are never listed |
| Entities.AppendEntities | custom_components/switcher_api/managers/entity_manager.py:76-79 | the list grows by exactly the domain's entities |
| Entities.UniqueIdList | custom_components/switcher_api/managers/entity_manager.py:146-149 | exactly the unique ids of the listed entities, with multiplicity |
| Entities.ReconcileNames | custom_components/switcher_api/managers/entity_manager.py:167-212 | the loop leaves the reconciled domain, takes the CREATED ids off the delete list and collects the names to add |
| Entities.EntityManager.constructor | custom_components/switcher_api/managers/entity_manager.py:26-31 | no entities, no domain components and no add calls |
| Entities.EntityManager.SetDomainComponent | custom_components/switcher_api/managers/entity_manager.py:57-61 | registers the domain; the entities are kept |
| Entities.EntityManager.CheckDomain | custom_components/switcher_api/managers/entity_manager.py:83-85 | the table gains the domain if missing |
| Entities.EntityManager.GetEntities | custom_components/switcher_api/managers/entity_manager.py:87-90 | returns the domain's entities and creates the domain if missing |
| Entities.EntityManager.GetEntity | custom_components/switcher_api/managers/entity_manager.py:92-96 | returns the stored record, if any, and creates the domain if missing |
| Entities.EntityManager.GetEntityStatus | custom_components/switcher_api/managers/entity_manager.py:98-103 | returns the stored status or EMPTY |
| Entities.EntityManager.SetEntityStatus | custom_components/switcher_api/managers/entity_manager.py:105-107 | the new table is the status update of the old one |
| Entities.EntityManager.DeleteEntity | custom_components/switcher_api/managers/entity_manager.py:109-111 | the new table is the old one with the entry removed |
| Entities.EntityManager.SetEntity | custom_components/switcher_api/managers/entity_manager.py:113-121 | the new table stores the record under the domain and name |
| Entities.EntityManager.GetAllEntities | custom_components/switcher_api/managers/entity_manager.py:73-81 | the list holds every record of every domain, each as often as it is stored |
| Entities.EntityManager.IsDeviceNameInUse | custom_components/switcher_api/managers/entity_manager.py:63-71 | true exactly when some stored entity has that device name |
| Entities.EntityManager.CreateComponents | custom_components/switcher_api/managers/entity_manager.py:123-138 | the new table is the old one with the sensors, the main switch and the generated schedule switches stored |
| Entities.EntityManager.GenerateScheduleSwitches | custom_components/switcher_api/managers/entity_manager.py:132-136 | the loop stores the schedule switches of the items in order |
| Entities.EntityManager.Reconcile | custom_components/switcher_api/managers/entity_manager.py:143-217 | the pass completes exactly when both domains have a component; the outcome matches the reconciled table, the add calls and the ids left to delete |
| Entities.EntityManager.ReconcileDomain | custom_components/switcher_api/managers/entity_manager.py:157-217 | one domain is reconciled, its add call is made if needed, and its CREATED ids leave the delete list |
| HomeAssistant.NameAfterRun | custom_components/switcher_api/managers/home_assistant.py:157-163 | the remembered name becomes the title exactly when a rename was needed and succeeded |
| HomeAssistant.RenameSettles | custom_components/switcher_api/managers/home_assistant.py:159-163 | after a run, a rename is needed again exactly when the last one was needed and failed |
| HomeAssistant.DispatchEvents | custom_components/switcher_api/managers/home_assistant.py:262-265 | one signal per supported domain, in order |
| HomeAssistant.CancelEvents | custom_components/switcher_api/managers/home_assistant.py:213-223 | each registered timer is cancelled, and nothing else |
| HomeAssistant.Purged | custom_components/switcher_api/managers/entity_manager.py:222-228 | the delete step changes only the domain it processes |
| HomeAssistant.PurgedRemovesListed | custom_components/switcher_api/managers/entity_manager.py:222-228 | no listed entity survives under its name; an unlisted one survives unless a listed entity has its name |
| HomeAssistant.RemovalKeepsUnused | custom_components/switcher_api/managers/home_assistant.py:240-250 | removing an entry never puts a deleted device back into use |
| HomeAssistant.PurgeKeepsUnused | custom_components/switcher_api/managers/entity_manager.py:222-228 | a purge keeps every deleted device unused |
| HomeAssistant.PurgedKeepsStatus | custom_components/switcher_api/managers/entity_manager.py:219-228 | deleting keeps a table free of CREATED entities in both domains |
| HomeAssistant.HomeAssistantManager.constructor | custom_components/switcher_api/managers/home_assistant.py:32-50 | not initialised, not updating, no timers, no remembered name; fresh managers with empty state |
| HomeAssistant.HomeAssistantManager.AsyncInit | custom_components/switcher_api/managers/home_assistant.py:79-93 | the config is read from the entry and its title remembered; timers and flags are kept |
| HomeAssistant.HomeAssistantManager.AsyncUpdate | custom_components/switcher_api/managers/home_assistant.py:143-175 | does nothing before initialisation or during a run. Otherwise, with an entry, it renames the device when its name differs from the entry's title and keeps the new name only when the rename succeeded. It logs the device and entity updates and the dispatches, and clears the flag. Without an entry it changes nothing but the flag |
| HomeAssistant.HomeAssistantManager.DispatchAll | custom_components/switcher_api/managers/home_assistant.py:257-265 | sends every domain's signal when initialised, nothing otherwise |
| HomeAssistant.HomeAssistantManager.AsyncUpdateEntry | custom_components/switcher_api/managers/home_assistant.py:177-208 | without an entry both timers are registered; with one after initialisation the config is re-read, taking the device's auto-off when the options have none; the API's state and schedules stay, and without an entry the config entry and data stay too; then, after initialisation, the update runs on that entry as AsyncUpdate states it: the rename decision, the rename call, then the update and dispatch events after the timer registrations |
| HomeAssistant.HomeAssistantManager.AsyncUpdateEntryAsWritten | custom_components/switcher_api/managers/home_assistant.py:180-185 | without an entry the call raises before any timer is registered, and nothing changes |
| HomeAssistant.HomeAssistantManager.InitPlatforms | custom_components/switcher_api/managers/home_assistant.py:111-119 | with the corrected AsyncUpdateEntry: both platforms are set up, the manager is initialised, both timers are registered, the config entry and data and the API's state and schedules stay, and then the update runs on the existing entry as AsyncUpdate states it |
| HomeAssistant.HomeAssistantManager.AsyncRemove | custom_components/switcher_api/managers/home_assistant.py:210-230 | every registered timer is cancelled once and forgotten, then both platforms are unloaded |
| HomeAssistant.HomeAssistantManager.DeleteEntity | custom_components/switcher_api/managers/home_assistant.py:234-255 | a missing entry changes nothing; otherwise the entry is removed, its registry entry too, and its device is deleted only when no entity uses it any more |
| HomeAssistant.HomeAssistantManager.DeleteListedInDomain | custom_components/switcher_api/managers/entity_manager.py:222-228 | the domain loses every listed entity; only deletion calls are made, and each deleted device is unused. When the domain's entries sit under their own names, the registry removal of every listed entity the registry lets go is logged |
| HomeAssistant.HomeAssistantManager.DeleteListed | custom_components/switcher_api/managers/entity_manager.py:219-228 | nothing happens when nothing is listed; otherwise both domains are purged, sensors first, and each deleted device is unused. For each domain whose entries sit under their own names, every registry removal the registry allows is logged |
| HomeAssistant.HomeAssistantManager.UpdateEntities | custom_components/switcher_api/managers/entity_manager.py:143-231 | the final table: `create_components`' table when the sensor component is missing, with the sensors reconciled when the switch component is missing, and otherwise both domains reconciled and then purged of the ids that no CREATED entity carried. In that last case no entity of either domain is CREATED. The `async_add_entities` calls are none, the sensors' call, or the sensors' then the switches' call in the same three cases. Each deleted device is unused, and without both components nothing is deleted |
| HomeAssistant.UpdateRemovesStale | custom_components/switcher_api/managers/entity_manager.py:143-231 | an entry stored under its own name that `create_components` leaves in place, and whose unique id no CREATED entity of the pass carries, is gone after the update |
| HomeAssistant.UpdateRemovesListed | custom_components/switcher_api/managers/entity_manager.py:219-228 | an entity stored under its own name whose unique id is left to delete is gone after the delete step |
| HomeAssistant.AfterUpdateSettled | custom_components/switcher_api/managers/entity_manager.py:143-231 | after the update neither domain holds a CREATED entity |
| HomeAssistant.UpdateKeepsRegenerated | custom_components/switcher_api/managers/entity_manager.py:143-231 | an entry `create_components` adds or replaces, whose unique id is not left to delete, survives the update reconciled and no longer CREATED |
| HomeAssistant.UpdateKeepsUnlisted | custom_components/switcher_api/managers/entity_manager.py:143-231 | in a domain keyed by name, an entity whose unique id is not left to delete survives the pass and the delete step, reconciled |
| HomeAssistant.ComponentsKeepKeyed | custom_components/switcher_api/managers/entity_manager.py:123-139 | `create_components` keeps a domain's entries stored under their own names |
| HomeAssistant.PurgedNothing | custom_components/switcher_api/managers/entity_manager.py:219-228 | with no ids listed, the delete step leaves both domains as they are |
| HomeAssistant.RemovalsStep | custom_components/switcher_api/managers/entity_manager.py:222-228 | one more listed entity of a domain keyed by name gets its registry removal logged when the registry lets it go |
| ProxyHelpers.Existing | custom_components/switcher_api/helpers/__init__.py:14-15 | the registry, created empty when missing |
| ProxyHelpers.Stored | custom_components/switcher_api/helpers/__init__.py:29-36 | the id is bound to the manager and every other id is kept |
| ProxyHelpers.Cleared | custom_components/switcher_api/helpers/__init__.py:13-17 | fails exactly for a missing id; otherwise only that id is removed |
| ProxyHelpers.ClearUndoesStore | custom_components/switcher_api/helpers/__init__.py:13-36 | clearing a newly stored id gives back the registry as it was |
| ProxyHelpers.StoreReplaces | custom_components/switcher_api/helpers/__init__.py:27-36 | a second store under one id replaces the first |
| ProxyHelpers.LogLevel | custom_components/switcher_api/helpers/__init__.py:45 | the `log_level` option, "Default" when absent |
| ProxyHelpers.LogLevelCall | custom_components/switcher_api/helpers/__init__.py:44-52 | no call exactly for "Default"; a non-string level raises; otherwise one `logger.set_level` call with the lower-cased level |
| ProxyHelpers.HassData.constructor | custom_components/switcher_api/helpers/__init__.py:13-15 | no registry and no service calls yet |
| ProxyHelpers.HassData.ClearHa | custom_components/switcher_api/helpers/__init__.py:13-17 | creates the registry, then raises exactly when the id is missing, otherwise removes it |
| ProxyHelpers.HassData.GetHa | custom_components/switcher_api/helpers/__init__.py:20-24 | the stored manager, None when the registry or the id is missing |
| ProxyHelpers.HassData.AsyncSetHa | custom_components/switcher_api/helpers/__init__.py:27-41 | a new manager initialised from the entry is stored under the entry id |
| ProxyHelpers.HassData.HandleLogLevel | custom_components/switcher_api/helpers/__init__.py:44-52 | makes the level's service call, and raises exactly for a non-string level |
| DictClone.CloneItems | custom_components/switcher_api/managers/config_flow_manager.py:156-178 | None gives an empty dict; otherwise the same keys, each with the same value |
| DictClone.CloneIsCopy | custom_components/switcher_api/managers/config_flow_manager.py:156-166 | the clone equals the input |
| ProxyConfigFlow.FlowEntry | custom_components/switcher_api/managers/config_flow_manager.py:142-154 | the entry holds the flow's data and its options (none as empty) |
| ProxyConfigFlow.CheckAutoOff | custom_components/switcher_api/managers/config_flow_manager.py:77-82 | accepted exactly for 60 to 180 whole minutes; below gives the minimum error, above the maximum error |
| ProxyConfigFlow.CheckAutoOffIgnoresSeconds | custom_components/switcher_api/managers/config_flow_manager.py:77-82 | the seconds never change the verdict |
| ProxyConfigFlow.AutoOffStep | custom_components/switcher_api/managers/config_flow_manager.py:71-84 | accepted only for a parsed string option in range with an entry and a manager; any other error is a raise |
| ProxyConfigFlow.Login | custom_components/switcher_api/managers/config_flow_manager.py:197-218 | intended check: no config raises, no state is a login error, otherwise the title "DEFAULT_NAME (ip)" |
| ProxyConfigFlow.LoginAsWritten | custom_components/switcher_api/managers/config_flow_manager.py:203 | the check as written always raises |
| ProxyConfigFlow.LoginAsWrittenRejectsReachableDevice | custom_components/switcher_api/managers/config_flow_manager.py:197-218 | a reachable device with a config passes the intended check but not the written one |
| ProxyConfigFlow.ConfigFlowManager.constructor | custom_components/switcher_api/managers/config_flow_manager.py:29-38 | no entry, data or options; the default title; no updates |
| ProxyConfigFlow.ConfigFlowManager.UpdateEntry | custom_components/switcher_api/managers/config_flow_manager.py:142-154 | raises exactly when there is no data; otherwise the config manager reads the flow's entry |
| ProxyConfigFlow.ConfigFlowManager.ValidLogin | custom_components/switcher_api/managers/config_flow_manager.py:197-218 | reports the intended check's error, or takes its title |
| ProxyConfigFlow.ConfigFlowManager.ValidLoginAsWritten | custom_components/switcher_api/managers/config_flow_manager.py:197-218 | reports the written check's error |
| ProxyConfigFlow.ConfigFlowManager.HandleData | custom_components/switcher_api/managers/config_flow_manager.py:185-195 | with the intended ValidLogin: checks the login outside the init flow; in the options flow a passing check writes the entry back |
| ProxyConfigFlow.ConfigFlowManager.UpdateData | custom_components/switcher_api/managers/config_flow_manager.py:91-100 | with the intended ValidLogin: stores a copy, updates the config, and returns the input or the login error |
| ProxyConfigFlow.ConfigFlowManager.UpdateOptions | custom_components/switcher_api/managers/config_flow_manager.py:62-89 | stores a copy and updates the config; in the options flow validates auto-off, sends it, and drops it from the caller's options |
| ProxyConfigFlow.ConfigFlowManager.Initialize | custom_components/switcher_api/managers/config_flow_manager.py:40-56 | a new config manager, the entry's title, and the entry's data and options read in the init flow |
| ClassicConfigFlow.FlowEntry | custom_components/switcher/managers/config_flow_manager.py:122-134 | the entry holds the flow's data and its options (none as empty) |
| ClassicConfigFlow.Login | custom_components/switcher/managers/config_flow_manager.py:176-194 | no config raises, no state is a login error, otherwise the title "DEFAULT_NAME (host)" |
| ClassicConfigFlow.LoginAsWrittenAlwaysFails | custom_components/switcher/managers/config_flow_manager.py:181-182 | an API never initialised gives the login error for any device; an initialised one accepts a successful state |
| ClassicConfigFlow.ConfigFlowManager.constructor | custom_components/switcher/managers/config_flow_manager.py:28-37 | no entry, data or options; the default title; no updates |
| ClassicConfigFlow.ConfigFlowManager.HaKey | custom_components/switcher/managers/config_flow_manager.py:160-166 | the given key, or the current title when none is given |
| ClassicConfigFlow.ConfigFlowManager.UpdateEntry | custom_components/switcher/managers/config_flow_manager.py:122-134 | raises exactly when there is no data; otherwise the config manager reads the flow's entry |
| ClassicConfigFlow.ConfigFlowManager.ValidLoginAsWritten | custom_components/switcher/managers/config_flow_manager.py:176-194 | as written, always an error: the login error with a config, a raise without one |
| ClassicConfigFlow.ConfigFlowManager.ValidLogin | custom_components/switcher/managers/config_flow_manager.py:176-194 | with the API initialised: reports the check's error, or takes its title |
| ClassicConfigFlow.ConfigFlowManager.HandleData | custom_components/switcher/managers/config_flow_manager.py:168-174 | with ValidLogin on an initialised API: checks the login outside the init flow; in the options flow a passing check writes the entry back |
| ClassicConfigFlow.ConfigFlowManager.UpdateData | custom_components/switcher/managers/config_flow_manager.py:76-85 | with ValidLogin on an initialised API: stores a copy, updates the config, and returns the input or the login error |
| ClassicConfigFlow.ConfigFlowManager.UpdateOptions | custom_components/switcher/managers/config_flow_manager.py:61-74 | stores a copy and updates the config; no login check is ever run |
| ClassicConfigFlow.ConfigFlowManager.Initialize | custom_components/switcher/managers/config_flow_manager.py:39-55 | a new config manager, the entry's title, and the entry's data and options read in the init flow |

## Left out

- Concurrency: `async`/`await`, tasks created on the event loop, and the order in which they run. Each coroutine is modelled as one step that runs to completion.
- Logging: messages, the `log_exception` line numbers, and `LOGGER` output.
- Outside libraries: the `aioswitcher` and V2 clients, the entity registry, the state machine, and `DeviceManager`. Each answer is a parameter. `DeviceManager` is not part of this model; its update and delete calls only appear in the call log.
- Entity platforms: the entity classes that `async_add_entities` builds (`switch.py`, `sensor.py`) are not part of this model. The call records only the added names.
- Config forms: the schemas of the flows (`get_default_data`, `get_default_options`, `_get_default_fields`, the voluptuous fields) are not modelled. They build form schemas, not state.
- Time parsing: `datetime.strptime` of the auto-off option is the parameter `parse`.
- Clocks: `datetime.utcnow()` readings are integer parameters.
- Unicode: `str.lower()` is modelled for ASCII letters only.
- Dict order: Python dicts keep insertion order; maps do not. `GetAllEntities` promises its records as a multiset, and loops over dict keys visit them in any order.
- Constants of the `switcher` package (`const.py`) are not part of this model. They are a parameter record (`Constants`, `StateKeys`).
- `EntityData` defaults (`models/entity_data.py`) are not part of this model. The builders take the fresh record as a context value.
- Entities.EntityManager.Reconcile: the `_async_update` of the entity manager runs as one step, not as a task created by `update()`. The step that raises after a partial pass (an entity registry call that fails) is not modelled.
- ProxyHelpers.HassData.AsyncSetHa: the `except` path is not modelled, because `async_init` never raises in the model. The `InvalidToken` notification in `async_init` is left out for the same reason.
- ProxyConfigFlow.ConfigFlowManager.Initialize: the flow's `ConfigEntry` has an empty entry id and title instead of Home Assistant's random id.
- ProxyConfigFlow.ConfigFlowManager.constructor: a config manager exists from the start, while the source creates it in `initialize`. Calling another method before `initialize` raises in the source; the model does not show that error.
- ClassicConfigFlow.ConfigFlowManager.constructor: same as the `switcher_api` constructor.
- Entities.ScheduleSwitches: a schedule item that is not a dict ends the loop. In the source the `get` on it raises and `create_components` catches the error.
- HomeAssistant.HomeAssistantManager.AsyncUpdate: it records that the device manager update and the entity manager update were scheduled. The entity update itself is `UpdateEntities`.
- ClassicApi.GetSchedules: a failure while reading the k-th schedule makes the source return the k-1 records already appended. The model's answer either raises as a whole, giving no records, or gives all of them.
- HomeAssistant.HomeAssistantManager.constructor: it creates the API and the entity manager up front, while the source creates them in `async_init`. Before `async_init`, the source's `async_remove` raises because the device manager is still None; `AsyncRemove` logs the device removal instead.
- PyValues.JoinValue: a dict is treated as raising, while `", ".join` of a dict joins its keys in insertion order, which a map does not keep.
- HomeAssistant.HomeAssistantManager.DeleteListedInDomain: the log is promised to hold the registry removals of the listed entities only for a domain whose entries sit under their own names, as `create_components` stores them. The log is not stated as the exact sequence of per-entity calls, whose order follows dict iteration.
- HomeAssistant.HomeAssistantManager.DeleteListed: the same as DeleteListedInDomain, for each of the two domains.
- Timers: `async_update_api`, `async_update` and the timers are modelled as registrations in the call log; the model does not fire them.

## Findings

| source | as written | input that shows it | evidently intended | confidence | as-written member | corrected member |
|---|---|---|---|---|---|---|
| custom_components/switcher_api/managers/home_assistant.py:183-185 | `async_update_entry()` without an entry passes `API_INTERVAL`, which `helpers/const.py` does not define, so it raises `NameError` | `async_update_entry()` with no argument, as `_async_init` calls it | register the API timer with the state interval, then the entities timer | not executed | HomeAssistant.HomeAssistantManager.AsyncUpdateEntryAsWritten | HomeAssistant.HomeAssistantManager.AsyncUpdateEntry |
| custom_components/switcher_api/managers/config_flow_manager.py:203 | `_valid_login` calls `api.get_state()`, but this package's `SwitcherApi` only defines `_get_state`, so every login check raises | a reachable device with a stored config (`LoginAsWrittenRejectsReachableDevice`) | read the state with `_get_state()` and accept a device that answers | not executed | ProxyConfigFlow.LoginAsWritten | ProxyConfigFlow.Login |
| custom_components/switcher/managers/config_flow_manager.py:181-182 | `_valid_login` creates a `SwitcherApi` and never calls `initialize()`, so `get_state` fails on the missing client and every login reports `invalid_server_details` | any device that answers a STATE request successfully (`LoginAsWrittenAlwaysFails`) | initialise the API before reading its state | not executed | ClassicConfigFlow.ConfigFlowManager.ValidLoginAsWritten | ClassicConfigFlow.ConfigFlowManager.ValidLogin |
| custom_components/switcher/api/switcher_api.py:73 | `DAY_TO_INT_DICT(day)` calls a dict, which raises `TypeError`, so no recurring schedule can be created | `create_schedule(["Sunday"], True, …)` | look the day up, `DAY_TO_INT_DICT[day]` | not executed | ClassicApi.RecurringScheduleFailsAsWritten | ClassicApi.ScheduleDays |
