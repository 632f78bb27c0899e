/**
  `SwitcherApi` of the `switcher_api` package: the polling state machine and
  the device commands.  The aioswitcher client is not modelled; each of its
  answers is an input: `None` stands for a call that raised.
 */
module ProxyApi {
  import opened Wrappers
  import opened PyValues
  import opened ProxyConst
  import opened ProxyConfigData
  import opened ProxySerialize

  /** An aioswitcher response: its attributes (`__dict__`) and its `successful` flag. */
  datatype Response = Response(fields: map<string, Value>, successful: bool)

  datatype Command = On | Off

  /** The requests this class sends to the device, in the order it sends them. */
  datatype DeviceCall =
    | GetState
    | GetSchedules
    | Control(command: Command, minutes: Value)
    | CreateSchedule(startTime: string, stopTime: string, days: set<string>)
    | DeleteSchedule(scheduleId: string)
    | SetAutoShutdown(shutdownHours: int, shutdownMinutes: int)
    | SetDeviceName(name: string)

  /** What a command returns, and the request it sent (None when it raised before sending one). */
  datatype Outcome = Outcome(ok: bool, sent: Option<DeviceCall>)

  /** Schedules are refreshed at most once per this many seconds. */
  const ScheduleRefreshSeconds := 60

  /** `device_details` */
  function DeviceDetails(c: ConfigData, other: Value -> string): (r: string)
    ensures "IP: " + Format(c.ipAddress, other) <= r
    ensures |r| >= |Format(c.deviceId, other)| && r[|r| - |Format(c.deviceId, other)|..] == Format(c.deviceId, other)
  {
    "IP: " + Format(c.ipAddress, other) + ", Device: " + Format(c.deviceId, other)
  }

  /** `_get_state()` / `_get_schedules()`: the serialised response when it succeeded, otherwise None. */
  function Fetch(response: Option<Response>): (r: Option<map<string, Value>>)
    ensures r.Some? <==> response.Some? && response.value.successful
    ensures r.Some? ==> r.value == Serialized(response.value.fields) && UnparsedResponse !in r.value
  {
    match response
    case Some(resp) => if resp.successful then Some(Serialized(resp.fields)) else None
    case None => None
  }

  /** `if fetched: current = fetched`: only a non-empty dict replaces the current one. */
  function Refresh(current: map<string, Value>, fetched: Option<map<string, Value>>): (r: map<string, Value>)
    ensures fetched.Some? && fetched.value != map[] ==> r == fetched.value
    ensures fetched.None? || fetched.value == map[] ==> r == current
  {
    match fetched
    case Some(f) => if f != map[] then f else current
    case None => current
  }

  /** `should_update_schedules`: at least a minute since the last update. */
  predicate ShouldUpdateSchedules(now: int, lastUpdate: int) {
    now - lastUpdate >= ScheduleRefreshSeconds
  }

  /** `Command.ON if action else Command.OFF` */
  function CommandFor(action: bool): (c: Command)
    ensures c == On <==> action
  {
    if action then On else Off
  }

  /** The result of a command: the response's `successful` flag, False when the call raised. */
  function Succeeded(response: Option<bool>): (ok: bool)
    ensures ok <==> response == Some(true)
  {
    match response
    case Some(s) => s
    case None => false
  }

  /**
    The day set of `create_schedule`: `{weekdays[d] for d in days["days"]}` when
    `days` is truthy, the empty set otherwise.  None when that expression raises
    (`days` is not a dict holding "days", a day is not iterable or not a known value).
    `weekdays` maps each `Days` value to the member's name.
   */
  function SelectedDays(days: Value, weekdays: map<Value, string>): (r: Option<set<string>>)
    ensures !Truthy(days) ==> r == Some({})
    ensures Truthy(days) && !(days.Dict? && KeyDays in days.entries) ==> r.None?
    ensures r.Some? ==> r.value <= weekdays.Values
    ensures Truthy(days) && days.Dict? && KeyDays in days.entries ==>
      r == match Members(days.entries[KeyDays])
           case None => None
           case Some(ds) => if ds <= weekdays.Keys then Some(set d | d in ds :: weekdays[d]) else None
    ensures Truthy(days) && days.Dict? && KeyDays in days.entries && Members(days.entries[KeyDays]).Some? ==>
      var ds := Members(days.entries[KeyDays]).value;
      && (r.Some? <==> ds <= weekdays.Keys)
      && (r.Some? ==> forall d | d in ds :: weekdays[d] in r.value)
      && (r.Some? ==> forall n | n in r.value :: exists d :: d in ds && d in weekdays && weekdays[d] == n)
  {
    if !Truthy(days) then Some({})
    else if !(days.Dict? && KeyDays in days.entries) then None
    else match Members(days.entries[KeyDays])
      case None => None
      case Some(ds) =>
        if ds <= weekdays.Keys then Some(set d | d in ds :: weekdays[d]) else None
  }

  /** The elements `for x in v` visits, as a set; None when `v` is not iterable. */
  function Members(v: Value): Option<set<Value>> {
    match v
    case List(xs) => Some(set x | x in xs)
    case Set(ms) => Some(set m | m in ms)
    case Str(s) => Some(set i | 0 <= i < |s| :: Str([s[i]]))
    case Dict(m) => Some(set k | k in m.Keys :: Str(k))
    case _ => None
  }

  /** `create_schedule(days, start_time, stop_time)` */
  function CreateScheduleCall(days: Value, startTime: string, stopTime: string,
                              weekdays: map<Value, string>, response: Option<bool>): (r: Outcome)
    ensures r.sent.Some? <==> SelectedDays(days, weekdays).Some?
    ensures r.sent.Some? ==> r.sent.value == CreateSchedule(startTime, stopTime, SelectedDays(days, weekdays).value)
    ensures !Truthy(days) ==> r.sent == Some(CreateSchedule(startTime, stopTime, {}))
    ensures r.ok <==> r.sent.Some? && response == Some(true)
  {
    match SelectedDays(days, weekdays)
    case None => Outcome(false, None)
    case Some(selected) => Outcome(Succeeded(response), Some(CreateSchedule(startTime, stopTime, selected)))
  }

  /** `delete_schedule(schedule_id)` */
  function DeleteScheduleCall(scheduleId: string, response: Option<bool>): (r: Outcome)
    ensures r.sent == Some(DeleteSchedule(scheduleId))
    ensures r.ok <==> response == Some(true)
  {
    Outcome(Succeeded(response), Some(DeleteSchedule(scheduleId)))
  }

  /** `set_auto_shutdown(time_span)`: this variant sends any duration (no range check). */
  function SetAutoShutdownCall(hour: int, minute: int, response: Option<bool>): (r: Outcome)
    ensures r.sent == Some(SetAutoShutdown(hour, minute))
    ensures r.ok <==> response == Some(true)
  {
    Outcome(Succeeded(response), Some(SetAutoShutdown(hour, minute)))
  }

  /** `set_device_name(new_name)`: this variant sends any name (no length check). */
  function SetDeviceNameCall(name: string, response: Option<bool>): (r: Outcome)
    ensures r.sent == Some(SetDeviceName(name))
    ensures r.ok <==> response == Some(true)
  {
    Outcome(Succeeded(response), Some(SetDeviceName(name)))
  }

  class SwitcherApi {
    var state: map<string, Value>
    var schedules: map<string, Value>
    /** `last_update`, in whole seconds. */
    var lastUpdate: int
    var isUpdating: bool
    /** The requests sent to the device so far. */
    var sent: seq<DeviceCall>

    /** `SwitcherApi(hass, config_manager)` at time `now`. */
    constructor (now: int)
      ensures state == map[] && schedules == map[]
      ensures lastUpdate == now && !isUpdating && sent == []
    {
      state := map[];
      schedules := map[];
      lastUpdate := now;
      isUpdating := false;
      sent := [];
    }

    /**
      `async_update()`: `now` is the clock when it starts and `finished` when it
      ends; the two responses are the device's answers to the state and schedule
      requests.  A run that starts while another is in progress does nothing.
     */
    method AsyncUpdate(now: int, stateResponse: Option<Response>, schedulesResponse: Option<Response>, finished: int)
      modifies this
      ensures old(isUpdating) ==> unchanged(this)
      ensures !old(isUpdating) ==> !isUpdating && lastUpdate == finished
      ensures !old(isUpdating) ==> state == Refresh(old(state), Fetch(stateResponse))
      ensures !old(isUpdating) && ShouldUpdateSchedules(now, old(lastUpdate)) ==>
        schedules == Refresh(old(schedules), Fetch(schedulesResponse)) && sent == old(sent) + [GetState, GetSchedules]
      ensures !old(isUpdating) && !ShouldUpdateSchedules(now, old(lastUpdate)) ==>
        schedules == old(schedules) && sent == old(sent) + [GetState]
    {
      if !isUpdating {
        isUpdating := true;
        var shouldUpdateSchedules := ShouldUpdateSchedules(now, lastUpdate);

        sent := sent + [GetState];
        state := Refresh(state, Fetch(stateResponse));

        if shouldUpdateSchedules {
          sent := sent + [GetSchedules];
          schedules := Refresh(schedules, Fetch(schedulesResponse));
        }

        lastUpdate := finished;
        isUpdating := false;
      }
    }

    /**
      What `_toggle_state(action, minutes)` does to the API, given whether the
      device accepted the command: the command is always sent; a rejected or
      failed command changes nothing else; an accepted one runs `async_update`,
      which itself does nothing while another run is in progress.
     */
    twostate predicate Toggled(action: bool, minutes: Value, ok: bool,
                               now: int, stateResponse: Option<Response>, schedulesResponse: Option<Response>, finished: int)
      reads this
    {
      var commandSent := old(sent) + [Control(CommandFor(action), minutes)];
      if !ok || old(isUpdating) then
        && state == old(state) && schedules == old(schedules)
        && lastUpdate == old(lastUpdate) && isUpdating == old(isUpdating)
        && sent == commandSent
      else
        var refreshSchedules := ShouldUpdateSchedules(now, old(lastUpdate));
        && state == Refresh(old(state), Fetch(stateResponse))
        && schedules == (if refreshSchedules then Refresh(old(schedules), Fetch(schedulesResponse)) else old(schedules))
        && lastUpdate == finished && !isUpdating
        && sent == commandSent + [GetState] + (if refreshSchedules then [GetSchedules] else [])
    }

    /**
      `_toggle_state(action, minutes)`: sends the command and, when the device
      reports success, runs `async_update` with the given clock readings and answers.
     */
    method ToggleState(action: bool, minutes: Value, response: Option<bool>,
                       now: int, stateResponse: Option<Response>, schedulesResponse: Option<Response>, finished: int)
      returns (ok: bool)
      modifies this
      ensures ok <==> response == Some(true)
      ensures Toggled(action, minutes, ok, now, stateResponse, schedulesResponse, finished)
    {
      sent := sent + [Control(CommandFor(action), minutes)];
      ok := Succeeded(response);
      if ok {
        AsyncUpdate(now, stateResponse, schedulesResponse, finished);
      }
    }

    /** `set_auto_shutdown(time_span)`: sends the hours and minutes of the span (its seconds are dropped). */
    method SetAutoShutdown(hour: int, minute: int, response: Option<bool>) returns (ok: bool)
      modifies this
      ensures ok == SetAutoShutdownCall(hour, minute, response).ok
      ensures sent == old(sent) + [DeviceCall.SetAutoShutdown(hour, minute)]
      ensures state == old(state) && schedules == old(schedules)
      ensures lastUpdate == old(lastUpdate) && isUpdating == old(isUpdating)
    {
      sent := sent + [DeviceCall.SetAutoShutdown(hour, minute)];
      ok := Succeeded(response);
    }

    /** `set_device_name(new_name)`: sends the name and reports whether the device accepted it. */
    method SetDeviceName(name: string, response: Option<bool>) returns (ok: bool)
      modifies this
      ensures ok == SetDeviceNameCall(name, response).ok
      ensures sent == old(sent) + [DeviceCall.SetDeviceName(name)]
      ensures state == old(state) && schedules == old(schedules)
      ensures lastUpdate == old(lastUpdate) && isUpdating == old(isUpdating)
    {
      sent := sent + [DeviceCall.SetDeviceName(name)];
      ok := Succeeded(response);
    }

    /** `turn_on(minutes)`; the caller passes `Int(0)` for the default. */
    method TurnOn(minutes: Value, response: Option<bool>,
                  now: int, stateResponse: Option<Response>, schedulesResponse: Option<Response>, finished: int)
      returns (ok: bool)
      modifies this
      ensures ok <==> response == Some(true)
      ensures Toggled(true, minutes, ok, now, stateResponse, schedulesResponse, finished)
    {
      ok := ToggleState(true, minutes, response, now, stateResponse, schedulesResponse, finished);
    }

    /** `turn_off()` */
    method TurnOff(response: Option<bool>,
                   now: int, stateResponse: Option<Response>, schedulesResponse: Option<Response>, finished: int)
      returns (ok: bool)
      modifies this
      ensures ok <==> response == Some(true)
      ensures Toggled(false, Int(0), ok, now, stateResponse, schedulesResponse, finished)
    {
      ok := ToggleState(false, Int(0), response, now, stateResponse, schedulesResponse, finished);
    }
  }
}
