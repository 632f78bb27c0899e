/**
  Constants of the `switcher_api` package (custom_components/switcher_api/helpers/const.py)
  and the Home Assistant constants it uses (`homeassistant.const`, the `sensor` and
  `switch` platform domains).
 */
module ProxyConst {
  import opened Wrappers

  const Domain := "switcher_api"
  const DefaultName := "Switcher API"
  const DataKey := "data_" + Domain

  const DomainSensor := "sensor"
  const DomainSwitch := "switch"
  const DomainLogger := "logger"
  const ServiceSetLevel := "set_level"

  /** The keys of SIGNALS, in their declaration order. */
  const SignalDomains: seq<string> := [DomainSensor, DomainSwitch]
  const SupportedDomains: seq<string> := [DomainSwitch, DomainSensor]

  /** SIGNALS[domain] */
  function SignalOf(domain: string): string {
    Domain + "_" + domain + "_UPDATE_SIGNAL"
  }

  const ConfName := "name"
  const ConfIpAddress := "ip_address"
  const ConfDeviceId := "device_id"
  const ConfLogLevel := "log_level"
  const ConfAutoOff := "auto-off"

  const AttrFriendlyName := "friendly_name"
  const StateOn := "on"
  const StateOff := "off"

  /** An entity's reconciliation status; ENTITY_STATUS_EMPTY is None. */
  type Status = Option<string>
  const StatusEmpty: Status := None
  const StatusReady: Status := Some("entity-status-ready")
  const StatusCreated: Status := Some("entity-status-created")

  const SwitchMain := "main-switch"
  const SwitchSchedule := "schedule-switch"

  const LogLevelDefault := "Default"

  const KeyDays := "days"
  const KeyEnabled := "enabled"
  const KeyEndTime := "end_time"
  const KeyFoundSchedules := "found_schedules"
  const KeyRecurring := "recurring"
  const KeySchedules := "schedules"
  const KeyScheduleId := "schedule_id"
  const KeyState := "state"
  const KeyStartTime := "start_time"
  const KeySuccessful := "successful"
  const KeyAutoOff := "auto_off"
}
