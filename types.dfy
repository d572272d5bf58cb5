/**
 * The enumerations of the public header (log levels, entry types, connection
 * types, error codes) and the error-code lookup `logflux_error_string`.
 */
module Types {
  import opened Wrappers

  // Log levels, syslog compatible (EMERGENCY = 0 ... DEBUG = 7).
  const LevelEmergency: int := 0
  const LevelAlert: int := 1
  const LevelCritical: int := 2
  const LevelError: int := 3
  const LevelWarning: int := 4
  const LevelNotice: int := 5
  const LevelInfo: int := 6
  const LevelDebug: int := 7

  // Entry types (LOG = 1 ... AUDIT = 5).
  const TypeLog: int := 1
  const TypeMetric: int := 2
  const TypeTrace: int := 3
  const TypeEvent: int := 4
  const TypeAudit: int := 5

  // Connection types. The C field is a plain enum, so a custom configuration
  // may hold any other integer as well.
  const ConnUnix: int := 0
  const ConnTcp: int := 1

  predicate ValidLevel(level: int) {
    LevelEmergency <= level <= LevelDebug
  }

  predicate ValidType(entryType: int) {
    TypeLog <= entryType <= TypeAudit
  }

  newtype u16 = x: int | 0 <= x < 0x1_0000
  newtype u32 = x: int | 0 <= x < 0x1_0000_0000

  /** The seven outcomes every public operation reports. */
  datatype Error = Ok | InvalidParam | Memory | Connection | Timeout | Format | NotConnected {

    /** The numeric value of the C enumerator. */
    function Code(): (c: int)
      ensures -6 <= c <= 0
    {
      match this
      case Ok => 0
      case InvalidParam => -1
      case Memory => -2
      case Connection => -3
      case Timeout => -4
      case Format => -5
      case NotConnected => -6
    }
  }

  /** The error kind whose code is `code`, if there is one. */
  function FromCode(code: int): (r: Option<Error>)
    ensures r.Some? <==> -6 <= code <= 0
    ensures r.Some? ==> r.value.Code() == code
  {
    if code == 0 then Some(Ok)
    else if code == -1 then Some(InvalidParam)
    else if code == -2 then Some(Memory)
    else if code == -3 then Some(Connection)
    else if code == -4 then Some(Timeout)
    else if code == -5 then Some(Format)
    else if code == -6 then Some(NotConnected)
    else None
  }

  lemma CodeRoundTrip(e: Error)
    ensures FromCode(e.Code()) == Some(e)
  {
  }

  /**
   * `logflux_error_string`: total over every integer; the seven codes have
   * their own text, anything else is "Unknown error".
   */
  function ErrorString(code: int): (r: string)
    ensures r == "Unknown error" <==> FromCode(code).None?
    ensures |r| > 0
  {
    if code == 0 then "Success"
    else if code == -1 then "Invalid parameter"
    else if code == -2 then "Memory allocation error"
    else if code == -3 then "Connection error"
    else if code == -4 then "Timeout"
    else if code == -5 then "Format error"
    else if code == -6 then "Not connected"
    else "Unknown error"
  }

  /** Different error kinds are described by different texts. */
  lemma ErrorStringsDistinct(a: Error, b: Error)
    requires a != b
    ensures ErrorString(a.Code()) != ErrorString(b.Code())
  {
  }
}
