/**
 * The platform `Date` object (section 21.4 of ECMA-262, Date Objects), reduced to what the
 * two wrappers use: one mutable time value per object, the setters and getters that read
 * and write it, and the text conversions.  Calendar arithmetic, rollover and the local time
 * zone belong to the platform; they are the uninterpreted functions of a `Host`.  The one
 * setter and the one getter whose meaning does not depend on the calendar, `setTime` and
 * `getTime`, are concrete.
 */
module Platform {

  /** The setters of `Date.prototype` that both wrappers expose, one constructor per name. */
  datatype SetterName =
    | SetDate | SetFullYear | SetHours | SetMilliseconds | SetMinutes | SetMonth
    | SetSeconds | SetTime
    | SetUTCDate | SetUTCFullYear | SetUTCHours | SetUTCMilliseconds | SetUTCMinutes
    | SetUTCMonth | SetUTCSeconds

  /** The getters of `Date.prototype` that both wrappers expose as read-only properties. */
  datatype GetterName =
    | GetDate | GetDay | GetFullYear | GetHours | GetMilliseconds | GetMinutes | GetMonth
    | GetSeconds | GetTime | GetTimezoneOffset
    | GetUTCDate | GetUTCDay | GetUTCFullYear | GetUTCHours | GetUTCMilliseconds
    | GetUTCMinutes | GetUTCMonth | GetUTCSeconds

  /** The property name of a setter on `Date.prototype`: "set" and the field. */
  function SetterMethodName(name: SetterName): string {
    "set" + SetterField(name)
  }

  /** The field a setter writes, as it is named after "set". */
  function SetterField(name: SetterName): string {
    match name
    case SetDate => "Date"
    case SetFullYear => "FullYear"
    case SetHours => "Hours"
    case SetMilliseconds => "Milliseconds"
    case SetMinutes => "Minutes"
    case SetMonth => "Month"
    case SetSeconds => "Seconds"
    case SetTime => "Time"
    case SetUTCDate => "UTCDate"
    case SetUTCFullYear => "UTCFullYear"
    case SetUTCHours => "UTCHours"
    case SetUTCMilliseconds => "UTCMilliseconds"
    case SetUTCMinutes => "UTCMinutes"
    case SetUTCMonth => "UTCMonth"
    case SetUTCSeconds => "UTCSeconds"
  }

  /** The property name of a getter on `Date.prototype`: "get" and the field. */
  function GetterMethodName(g: GetterName): string {
    "get" + GetterField(g)
  }

  /** The field a getter reads, as it is named after "get". */
  function GetterField(g: GetterName): string {
    match g
    case GetDate => "Date"
    case GetDay => "Day"
    case GetFullYear => "FullYear"
    case GetHours => "Hours"
    case GetMilliseconds => "Milliseconds"
    case GetMinutes => "Minutes"
    case GetMonth => "Month"
    case GetSeconds => "Seconds"
    case GetTime => "Time"
    case GetTimezoneOffset => "TimezoneOffset"
    case GetUTCDate => "UTCDate"
    case GetUTCDay => "UTCDay"
    case GetUTCFullYear => "UTCFullYear"
    case GetUTCHours => "UTCHours"
    case GetUTCMilliseconds => "UTCMilliseconds"
    case GetUTCMinutes => "UTCMinutes"
    case GetUTCMonth => "UTCMonth"
    case GetUTCSeconds => "UTCSeconds"
  }

  /**
   * What the host platform decides and the wrappers only pass through: the calendar
   * setters with their field overflow, the calendar getters in local or UTC time, the
   * many-argument and the string constructors, and the ISO text form.
   */
  datatype Host = Host(
    calendarSet: (SetterName, int, seq<int>) -> int,
    field: (GetterName, int) -> int,
    fromFields: (int, int, seq<int>) -> int,
    parse: string -> int,
    isoString: int -> string)

  /**
   * The time value a setter leaves in a date whose time value was `t`.  `setTime(v, ...)`
   * stores `v`; every other setter is the host's calendar arithmetic.
   */
  function SetterTime(host: Host, name: SetterName, t: int, args: seq<int>): int {
    if name == SetTime && |args| > 0 then args[0] else host.calendarSet(name, t, args)
  }

  /** The value a getter returns for time value `t`; `getTime` returns the time value itself. */
  function Field(host: Host, g: GetterName, t: int): int {
    if g == GetTime then t else host.field(g, t)
  }

  /**
   * The time value that `Date.parse` reads back from the text `toString` gives for time
   * value `t`.  That text (section 21.4.4.41 of ECMA-262) shows whole seconds only, and for
   * a time value without a millisecond part the round trip is exact (section 21.4.3.2), so
   * what comes back is `t` rounded down to its second.
   */
  function TextRoundTrip(t: int): int {
    (t / 1000) * 1000
  }

  /** A `Date` object: a mutable time value in milliseconds since the epoch. */
  class NativeDate {
    var time: int

    /** `new Date(t)` for a number `t`, and `new Date()` with `t` the current instant. */
    constructor (t: int)
      ensures time == t
    {
      time := t;
    }

    /** `new Date(d)` for a `Date` object `d`: its time value is read directly. */
    constructor Copy(d: NativeDate)
      ensures time == d.time
    {
      time := d.time;
    }

    /** `date.setX(...args)`: the date is updated in place. */
    method Set(host: Host, name: SetterName, args: seq<int>)
      modifies this
      ensures time == SetterTime(host, name, old(time), args)
    {
      time := SetterTime(host, name, time, args);
    }

    /** `date.getX()`. */
    function Get(host: Host, g: GetterName): int
      reads this
    {
      Field(host, g, time)
    }

    /** `date.toISOString()`. */
    function ToISOString(host: Host): string
      reads this
    {
      host.isoString(time)
    }
  }
}
