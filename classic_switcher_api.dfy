/**
  `SwitcherApi` of the `switcher` package: request handlers over the
  aioswitcher V2 client.  The client is not modelled; each answer it gives is
  an input, `None` standing for no answer or for a call that raised (which is
  also what happens when the client was never initialised).
 */
module ClassicApi {
  import opened Wrappers
  import opened PyValues

  /** The aioswitcher response message types these handlers check. */
  datatype MessageType =
    | CreateScheduleType | DeleteScheduleType | DisableEnableScheduleType
    | StateType | AutoOffType | UpdateNameType | ControlType

  /** A response of the V2 client: its `msg_type` and `successful`. */
  datatype Response = Response(msgType: MessageType, successful: bool)

  datatype Command = On | Off

  /** The requests these handlers send to the device. */
  datatype DeviceCall =
    | CreateSchedule(scheduleDays: seq<int>, start: (int, int), stop: (int, int))
    | DeleteSchedule(scheduleId: string)
    | DisableEnableSchedule(scheduleData: string)
    | SetAutoShutdown(hours: int, minutes: int)
    | SetDeviceName(name: string)
    | Control(command: Command, timer: Option<Value>)

  /** What a handler returns and the request it sent (None when it sent nothing). */
  datatype Outcome = Outcome(ok: bool, sent: Option<DeviceCall>)

  /**
    `_is_success(response, expected)`.  Python returns the falsy response itself
    when there is none; that is `false` here.
   */
  function IsSuccess(response: Option<Response>, expected: MessageType): (ok: bool)
    ensures ok <==> response.Some? && response.value.msgType == expected
  {
    match response
    case Some(r) => r.msgType == expected
    case None => false
  }

  // ---- schedules ---------------------------------------------------------

  /** A schedule payload is exactly this long. */
  const ScheduleDataLength := 24

  /** `schedule_data[0:2] + code + schedule_data[4:]` */
  function Splice(scheduleData: string, code: string): (r: string)
    requires |scheduleData| >= 4
    ensures |r| == |scheduleData| - 2 + |code|
    ensures r[..2] == scheduleData[..2]
    ensures r[2..2 + |code|] == code
    ensures r[2 + |code|..] == scheduleData[4..]
  {
    scheduleData[0..2] + code + scheduleData[4..]
  }

  /** With a two-character code, the splice keeps the length and every character but the two status ones. */
  lemma SpliceReplacesOnlyStatus(scheduleData: string, code: string)
    requires |scheduleData| >= 4 && |code| == 2
    ensures |Splice(scheduleData, code)| == |scheduleData|
    ensures Splice(scheduleData, code)[2] == code[0] && Splice(scheduleData, code)[3] == code[1]
    ensures forall i | 0 <= i < |scheduleData| && i != 2 && i != 3 :: Splice(scheduleData, code)[i] == scheduleData[i]
  {
    var r := Splice(scheduleData, code);
    forall i | 0 <= i < |scheduleData| && i != 2 && i != 3
      ensures r[i] == scheduleData[i]
    {
      if i < 2 {
        assert r[i] == r[..2][i];
      } else {
        assert r[i] == r[4..][i - 4];
      }
    }
  }

  /** `enable_schedule` / `disable_schedule`, which differ only in the status `code` spliced in. */
  function ToggleSchedule(scheduleData: string, code: string, response: Option<Response>): (r: Outcome)
    ensures r.sent.Some? <==> |scheduleData| == ScheduleDataLength
    ensures r.sent.Some? ==> r.sent.value == DisableEnableSchedule(Splice(scheduleData, code))
    ensures r.ok <==> r.sent.Some? && IsSuccess(response, DisableEnableScheduleType)
  {
    if |scheduleData| == ScheduleDataLength then
      Outcome(IsSuccess(response, DisableEnableScheduleType), Some(DisableEnableSchedule(Splice(scheduleData, code))))
    else
      Outcome(false, None)
  }

  /** `enable_schedule(schedule_data)` */
  function EnableSchedule(scheduleData: string, enableCode: string, response: Option<Response>): (r: Outcome)
    ensures r == ToggleSchedule(scheduleData, enableCode, response)
    ensures r.sent.None? ==> !r.ok
  {
    ToggleSchedule(scheduleData, enableCode, response)
  }

  /** `disable_schedule(schedule_data)` */
  function DisableSchedule(scheduleData: string, disableCode: string, response: Option<Response>): (r: Outcome)
    ensures r == ToggleSchedule(scheduleData, disableCode, response)
    ensures r.sent.None? ==> !r.ok
  {
    ToggleSchedule(scheduleData, disableCode, response)
  }

  /**
    The day list of `create_schedule` AS WRITTEN: it starts as `[0]`, and for a
    recurring schedule each day is converted by calling `DAY_TO_INT_DICT(day)`.
    That name is a dict, calling it raises, so the first recurring day makes the
    whole handler fail (None).
   */
  function ScheduleDaysAsWritten(days: seq<string>, recurring: bool): (r: Option<seq<int>>)
    ensures r.Some? ==> r.value == [0]
    ensures r.None? <==> recurring && days != []
  {
    if recurring && days != [] then None else Some([0])
  }

  /**
    The intended day list: `[0]`, followed, for a recurring schedule, by the
    code `DAY_TO_INT_DICT[day]` of every day in order (None: an unknown day).
   */
  function ScheduleDayList(days: seq<string>, recurring: bool, dayToInt: map<string, int>): (r: Option<seq<int>>)
    ensures !recurring ==> r == Some([0])
    ensures r.None? <==> recurring && exists d :: d in days && d !in dayToInt
    ensures r.Some? ==> |r.value| == 1 + (if recurring then |days| else 0) && r.value[0] == 0
    ensures r.Some? && recurring ==> forall i | 0 <= i < |days| :: r.value[i + 1] == dayToInt[days[i]]
  {
    if !recurring then Some([0])
    else if forall d | d in days :: d in dayToInt then
      Some([0] + seq(|days|, i requires 0 <= i < |days| => dayToInt[days[i]]))
    else None
  }

  /** A recurring schedule with at least one known day: the source as written fails, the intended list exists. */
  lemma RecurringScheduleFailsAsWritten(days: seq<string>, dayToInt: map<string, int>)
    requires days != [] && forall d | d in days :: d in dayToInt
    ensures ScheduleDaysAsWritten(days, true).None?
    ensures ScheduleDayList(days, true, dayToInt).Some?
    ensures |ScheduleDayList(days, true, dayToInt).value| == |days| + 1
  {
  }

  /** The `schedule_days` loop of `create_schedule`, with the intended dict lookup. */
  method ScheduleDays(days: seq<string>, recurring: bool, dayToInt: map<string, int>) returns (r: Option<seq<int>>)
    ensures r == ScheduleDayList(days, recurring, dayToInt)
  {
    var scheduleDays := [0];
    if recurring {
      var i := 0;
      while i < |days|
        invariant 0 <= i <= |days|
        invariant forall j | 0 <= j < i :: days[j] in dayToInt
        invariant scheduleDays == [0] + seq(i, k requires 0 <= k < i => dayToInt[days[k]])
      {
        if days[i] !in dayToInt {
          return None;
        }
        scheduleDays := scheduleDays + [dayToInt[days[i]]];
        i := i + 1;
      }
    }
    r := Some(scheduleDays);
  }

  /**
    `create_schedule(days, recurring, start_time, stop_time)`, times given as
    (hour, minute).  The weekday bitmap and the time encodings are computed by
    the library from the day list; the request records what they are computed from.
   */
  method CreateScheduleCall(days: seq<string>, recurring: bool, start: (int, int), stop: (int, int),
                            dayToInt: map<string, int>, response: Option<Response>) returns (r: Outcome)
    ensures r.sent.Some? <==> ScheduleDayList(days, recurring, dayToInt).Some?
    ensures r.sent.Some? ==> r.sent.value == CreateSchedule(ScheduleDayList(days, recurring, dayToInt).value, start, stop)
    ensures r.ok <==> r.sent.Some? && IsSuccess(response, CreateScheduleType)
  {
    var scheduleDays := ScheduleDays(days, recurring, dayToInt);
    if scheduleDays.None? {
      return Outcome(false, None);
    }
    r := Outcome(IsSuccess(response, CreateScheduleType), Some(CreateSchedule(scheduleDays.value, start, stop)));
  }

  /** `delete_schedule(schedule_id)` */
  function DeleteScheduleCall(scheduleId: string, response: Option<Response>): (r: Outcome)
    ensures r.sent == Some(DeleteSchedule(scheduleId))
    ensures r.ok <==> IsSuccess(response, DeleteScheduleType)
  {
    Outcome(IsSuccess(response, DeleteScheduleType), Some(DeleteSchedule(scheduleId)))
  }

  // ---- auto shutdown and name ----------------------------------------------

  /** The guard of `set_auto_shutdown`: whole hours (if positive) as minutes plus the minutes (if positive). */
  function AutoShutdownMinutes(hours: int, minutes: int): (total: int)
    ensures total >= 0
    ensures hours >= 0 && minutes >= 0 ==> total == hours * 60 + minutes
  {
    (if hours > 0 then hours * 60 else 0) + (if minutes > 0 then minutes else 0)
  }

  predicate AutoShutdownAllowed(hours: int, minutes: int) {
    59 <= AutoShutdownMinutes(hours, minutes) <= 180
  }

  /** For a time of day, the guard accepts exactly the durations from 0:59 to 3:00. */
  lemma AutoShutdownRange(hours: int, minutes: int)
    requires 0 <= hours < 24 && 0 <= minutes < 60
    ensures AutoShutdownAllowed(hours, minutes) <==> (hours == 0 && minutes == 59) || (1 <= hours <= 2) || (hours == 3 && minutes == 0)
  {
  }

  /** `set_auto_shutdown(time_span)` */
  function SetAutoShutdownCall(hours: int, minutes: int, response: Option<Response>): (r: Outcome)
    ensures r.sent.Some? <==> 59 <= AutoShutdownMinutes(hours, minutes) <= 180
    ensures r.sent.Some? ==> r.sent.value == SetAutoShutdown(hours, minutes)
    ensures r.ok <==> r.sent.Some? && IsSuccess(response, AutoOffType)
  {
    if AutoShutdownAllowed(hours, minutes) then
      Outcome(IsSuccess(response, AutoOffType), Some(SetAutoShutdown(hours, minutes)))
    else
      Outcome(false, None)
  }

  /** `set_device_name(new_name)` */
  function SetDeviceNameCall(name: string, response: Option<Response>): (r: Outcome)
    ensures r.sent.Some? <==> 2 <= |name| <= 32
    ensures r.sent.Some? ==> r.sent.value == SetDeviceName(name)
    ensures r.ok <==> r.sent.Some? && IsSuccess(response, UpdateNameType)
  {
    if |name| < 2 || |name| > 32 then Outcome(false, None)
    else Outcome(IsSuccess(response, UpdateNameType), Some(SetDeviceName(name)))
  }

  // ---- on and off ------------------------------------------------------------

  /** `turn_on(minutes)`: the timer is passed only when `minutes` is truthy. */
  function TurnOn(minutes: Value, response: Option<Response>): (r: Outcome)
    ensures r.sent.Some? && r.sent.value.Control? && r.sent.value.command == On
    ensures r.sent.value.timer.Some? <==> Truthy(minutes)
    ensures r.sent.value.timer.Some? ==> r.sent.value.timer.value == minutes
    ensures r.ok <==> IsSuccess(response, ControlType)
  {
    var timer := if Truthy(minutes) then Some(minutes) else None;
    Outcome(IsSuccess(response, ControlType), Some(Control(On, timer)))
  }

  /** `turn_off()` */
  function TurnOff(response: Option<Response>): (r: Outcome)
    ensures r.sent == Some(Control(Off, None))
    ensures r.ok <==> IsSuccess(response, ControlType)
  {
    Outcome(IsSuccess(response, ControlType), Some(Control(Off, None)))
  }

  // ---- state and schedules -------------------------------------------------

  /** The keys of the state dict (the `switcher` package's own constants). */
  datatype StateKeys = StateKeys(successful: string, state: string, timeLeft: string, timeOn: string,
                                 autoOff: string, powerConsumption: string, electricCurrent: string)

  predicate DistinctKeys(k: StateKeys) {
    var ks := [k.successful, k.state, k.timeLeft, k.timeOn, k.autoOff, k.powerConsumption, k.electricCurrent];
    forall i, j | 0 <= i < j < |ks| :: ks[i] != ks[j]
  }

  /** The device state the library reports, once its future has resolved. */
  datatype DeviceState = DeviceState(msgType: MessageType, successful: bool, state: Value, timeLeft: Value,
                                     timeOn: Value, autoOff: Value, power: Value, current: Value)

  /**
    `get_state()`: the seven-key dict when the answer is a successful STATE
    message, None otherwise.
   */
  function GetState(k: StateKeys, answer: Option<DeviceState>): (r: Option<map<string, Value>>)
    ensures r.Some? <==> answer.Some? && answer.value.msgType == StateType && answer.value.successful
    ensures r.Some? ==> r.value.Keys == {k.successful, k.state, k.timeLeft, k.timeOn, k.autoOff, k.powerConsumption, k.electricCurrent}
    ensures r.Some? ==> r.value[k.electricCurrent] == answer.value.current
  {
    match answer
    case None => None
    case Some(s) =>
      if s.msgType == StateType && s.successful then
        Some(map[k.successful := Bool(s.successful), k.state := s.state, k.timeLeft := s.timeLeft,
                 k.timeOn := s.timeOn, k.autoOff := s.autoOff, k.powerConsumption := s.power,
                 k.electricCurrent := s.current])
      else None
  }

  /** With distinct keys the state dict has exactly seven entries, each holding its own field. */
  lemma GetStateHasSevenKeys(k: StateKeys, answer: Option<DeviceState>)
    requires DistinctKeys(k)
    requires GetState(k, answer).Some?
    ensures |GetState(k, answer).value| == 7
    ensures var m, s := GetState(k, answer).value, answer.value;
      m[k.successful] == Bool(true) && m[k.state] == s.state && m[k.timeLeft] == s.timeLeft
      && m[k.timeOn] == s.timeOn && m[k.autoOff] == s.autoOff && m[k.powerConsumption] == s.power
  {
    var m := GetState(k, answer).value;
    var ks := {k.successful, k.state, k.timeLeft, k.timeOn, k.autoOff, k.powerConsumption, k.electricCurrent};
    assert m.Keys == ks;
    var ds := [k.successful, k.state, k.timeLeft, k.timeOn, k.autoOff, k.powerConsumption, k.electricCurrent];
    assert ds[0] != ds[1] && ds[0] != ds[2] && ds[0] != ds[3] && ds[0] != ds[4] && ds[0] != ds[5] && ds[0] != ds[6];
    assert ds[1] != ds[2] && ds[1] != ds[3] && ds[1] != ds[4] && ds[1] != ds[5] && ds[1] != ds[6];
    assert ds[2] != ds[3] && ds[2] != ds[4] && ds[2] != ds[5] && ds[2] != ds[6];
    assert ds[3] != ds[4] && ds[3] != ds[5] && ds[3] != ds[6];
    assert ds[4] != ds[5] && ds[4] != ds[6];
    assert ds[5] != ds[6];
    assert |ks| == 7;
    assert |m| == |m.Keys|;
  }

  /** `get_state()` of a handler whose client may not have been initialised (the call then raises). */
  function FetchState(k: StateKeys, initialized: bool, answer: Option<DeviceState>): (r: Option<map<string, Value>>)
    ensures !initialized ==> r.None?
    ensures initialized ==> r == GetState(k, answer)
  {
    if initialized then GetState(k, answer) else None
  }

  /**
    The library's schedules answer: `successful`, `found_schedules`, and one
    nine-key dict per schedule as built at lines 184-196.
   */
  datatype SchedulesAnswer = SchedulesAnswer(successful: bool, foundSchedules: bool, records: seq<map<string, Value>>)

  /** `get_schedules()`: the records of a successful answer that found some, otherwise `[]`. */
  function GetSchedules(initialized: bool, answer: Option<SchedulesAnswer>): (r: seq<map<string, Value>>)
    ensures r != [] ==> initialized && answer.Some? && answer.value.successful && answer.value.foundSchedules
    ensures initialized && answer.Some? && answer.value.successful && answer.value.foundSchedules ==> r == answer.value.records
  {
    match answer
    case Some(a) => if initialized && a.successful && a.foundSchedules then a.records else []
    case None => []
  }

  class SwitcherApi {
    const keys: StateKeys
    /** `_api is not None` */
    var initialized: bool
    var state: Option<map<string, Value>>
    var schedules: seq<map<string, Value>>

    constructor (keys: StateKeys)
      ensures this.keys == keys && !initialized && state == Some(map[]) && schedules == []
    {
      this.keys := keys;
      initialized := false;
      state := Some(map[]);
      schedules := [];
    }

    /** `initialize()`: connects the V2 client. */
    method Initialize()
      modifies this
      ensures initialized && state == old(state) && schedules == old(schedules)
    {
      initialized := true;
    }

    /** `async_update()`: both fields are overwritten, with `[]` / None when a fetch fails. */
    method AsyncUpdate(schedulesAnswer: Option<SchedulesAnswer>, stateAnswer: Option<DeviceState>)
      modifies this
      ensures initialized == old(initialized)
      ensures schedules == GetSchedules(initialized, schedulesAnswer)
      ensures state == FetchState(keys, initialized, stateAnswer)
    {
      schedules := GetSchedules(initialized, schedulesAnswer);
      state := FetchState(keys, initialized, stateAnswer);
    }
  }
}
