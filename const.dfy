/** String constants of the integration (const.py), plus the two constants it
    takes from Home Assistant. */
module Const {
  const DOMAIN: string := "twilio_call_live"

  /** homeassistant.const.CONF_EVENT. */
  const CONF_EVENT: string := "event"
  const CONF_PHRASES: string := "phrases"
  const CONF_FROM_NUMBER: string := "from_number"

  const SYS_EVENT: string := "sys_event"
  const SYS_EVENT_INDEX: string := "sys_event_index"
  const SYS_PHRASE: string := "sys_phrase"
  const SYS_PHRASE_INDEX: string := "sys_phrase_index"
  /** The four wizard bookkeeping keys. */
  const SYS_KEYS: set<string> := {SYS_EVENT, SYS_EVENT_INDEX, SYS_PHRASE, SYS_PHRASE_INDEX}

  /** homeassistant.components.twilio.RECEIVED_DATA: the bus event carrying a webhook payload. */
  const RECEIVED_DATA: string := "twilio_data_received"
}
