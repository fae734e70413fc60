/** The two JSON files under Backend/data that the monitor and the appliance detector
    share: data/alerts.json, a list of alerts, and data/usage_data.json, an object of
    numbers such as `total_usage`. */
module DataFiles {
  import opened PyValues

  datatype Level = Critical | Warning | Info | Appliance

  /** The `level` string written into the file. */
  function LevelName(l: Level): string {
    match l
    case Critical => "CRITICAL"
    case Warning => "WARNING"
    case Info => "INFO"
    case Appliance => "APPLIANCE"
  }

  datatype Alert = Alert(level: Level, message: string, time: string)

  /** The alerts loaded from the file; a missing or unreadable file reads as `[]`. */
  function Existing(stored: Option<seq<Alert>>): seq<Alert> {
    if stored.Some? then stored.value else []
  }

  class AlertFile {
    /** The file's list of alerts; `None` when it is missing or cannot be parsed. */
    var stored: Option<seq<Alert>>

    constructor (initial: Option<seq<Alert>>)
      ensures stored == initial
    {
      stored := initial;
    }

    /** Load the list (or start from `[]`), append `alert`, write the list back. */
    method Append(alert: Alert)
      modifies this
      ensures stored == Some(Existing(old(stored)) + [alert])
    {
      var alerts := if stored.Some? then stored.value else [];
      alerts := alerts + [alert];
      stored := Some(alerts);
    }
  }

  class UsageFile {
    /** The numeric fields of usage_data.json. */
    var fields: map<string, real>

    constructor (initial: map<string, real>)
      ensures fields == initial
    {
      fields := initial;
    }
  }

  /** `usage.get(key, default)`. */
  function FieldOr(fields: map<string, real>, key: string, default: real): real {
    if key in fields then fields[key] else default
  }
}
