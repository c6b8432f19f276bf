/**
 * `DateTime` (src/index.ts): the copy-on-write wrapper.  Its `native` field holds a plain
 * `Date`.  Every setter copies the receiver, resolves its arguments against the receiver,
 * applies the `Date` setter to the copy's `native` and returns the copy, so the receiver is
 * never changed by its own setters.
 */
module CopyOnWrite {
  import opened Platform
  import opened Engine

  class DateTime {
    var native: NativeDate

    /**
     * `new DateTime(...)`: a falsy first argument gives "now" (the instant is passed in),
     * another `DateTime` is copied into a new `Date`, anything else is forwarded to
     * `new Date(...)`.  The new `Date` is never an existing object.
     */
    constructor (host: Host, a: DateInput<DateTime>, now: int)
      ensures fresh(native)
      ensures a.Copy? ==> native.time == a.src.native.time
      ensures !a.Copy? ==> native.time == StartTime(host, a, now)
    {
      if IsFalsy(a) {
        native := new NativeDate(now);
      } else if a.Copy? {
        native := new NativeDate.Copy(a.src.native);
      } else {
        native := new NativeDate(StartTime(host, a, now));
      }
    }

    /** `_parseValue(from, ...rest)`: the shared resolution rule, against this receiver. */
    function ParseValue(from: SetArg, rest: seq<int>): (args: seq<int>)
      reads this, native
      ensures args == Resolve(from, rest, Time())
    {
      Resolve(from, rest, native.time)
    }

    /**
     * `_applySetter` and with it every setter `setDate` ... `setUTCSeconds`:
     * `setX(arg, ...rest)` returns a new `DateTime` whose time value is that of the receiver
     * with the setter applied; the receiver (no `modifies` clause) is left as it was.
     */
    method Set(host: Host, name: SetterName, arg: SetArg, rest: seq<int>) returns (r: DateTime)
      ensures fresh(r) && fresh(r.native)
      ensures r.native.time == Applied(host, Time(), Call(name, arg, rest))
    {
      r := new DateTime(host, Copy(this), 0);  // the clock is not read when copying
      var args := ParseValue(arg, rest);
      r.native.Set(host, name, args);
    }

    /** The getter properties `date`, `day`, ... `UTCSeconds` (named by `PropertyName`). */
    function Get(host: Host, g: GetterName): (v: int)
      reads this, native
      ensures v == native.Get(host, g)
      ensures g == GetTime ==> v == Time()
    {
      Field(host, g, native.time)
    }

    /** `get time()`: the time value of `native`. */
    function Time(): int
      reads this, native
    {
      native.time
    }

    /** `valueOf()`: the time value, which makes a `DateTime` usable in arithmetic. */
    function ValueOf(): (v: int)
      reads this, native
      ensures v == Time()
    {
      native.time
    }

    /** `toISOString()`. */
    function ToISOString(host: Host): (s: string)
      reads this, native
      ensures s == native.ToISOString(host)
    {
      host.isoString(native.time)
    }

    /** `toString()` gives the ISO form, not the `Date` default text. */
    function ToString(host: Host): (s: string)
      reads this, native
      ensures s == ToISOString(host) == host.isoString(Time())
    {
      native.ToISOString(host)
    }
  }

  /**
   * `new DateTime(src)` followed by a mutation of the copy's `native`: the source keeps its
   * time value, because the copy holds a `Date` of its own.
   */
  method MutatingACopyLeavesTheSource(host: Host, src: DateTime, name: SetterName, args: seq<int>)
    returns (before: int, after: int, copied: int)
    ensures before == after == src.Time()
    ensures copied == SetterTime(host, name, before, args)
  {
    before := src.Time();
    var copy := new DateTime(host, Copy(src), 0);
    copy.native.Set(host, name, args);
    after := src.Time();
    copied := copy.Time();
  }

  /**
   * `date[op](1)` (index.test.ts, "should return a new DateTime object"): the result is
   * another object, and the receiver still has its time value.
   */
  method SetterReturnsAnotherObject(host: Host, now: int, name: SetterName)
    returns (same: bool, before: int, after: int)
    ensures !same && before == after == now
  {
    var date := new DateTime(host, NoArgs, now);
    before := date.Time();
    var result := date.Set(host, name, Num(1), []);
    same := result == date;
    after := date.Time();
  }

  /**
   * `datum.native.setTime(0)` on a `DateTime` changes its `Date` in place: a read of
   * `native` before the call and one after are the same object.
   */
  method DirectMutationKeepsNative(host: Host, now: int) returns (date1: object, date2: object, time: int)
    ensures date1 == date2 && time == 0
  {
    var datum := new DateTime(host, NoArgs, now);
    date1 := datum.native;
    datum.native.Set(host, SetTime, [0]);
    date2 := datum.native;
    time := datum.Time();
  }
}
