/**
 * `Datum` (src/datum.ts): the live-handle wrapper.  Its constructor puts a `Proxy` around a
 * new `Date` into `native`.  Reading a property whose name starts with "set" through that
 * proxy gives a function that applies the setter to the proxied `Date` and then replaces
 * `native` by a new plain `Date` with the same time value; every other property is passed
 * through.  The replacement is not proxied again, so only the first mutation after
 * construction replaces `native`.  A wrapper setter mutates the receiver's own `native` and
 * returns a new `Datum` copied from it.
 */
module LiveHandle {
  import opened Platform
  import opened Engine

  /**
   * What `datum.native` refers to: the intercepting proxy that `_createNativeProxy`
   * installed, or the plain `Date` the proxy's setter trap put in its place.
   */
  datatype Handle = Intercepting(proxy: NativeProxy) | Bare(date: NativeDate)

  /** `isString(prop) && prop.startsWith("set")`, the test in the proxy's `get` trap. */
  predicate Intercepts(prop: string) {
    |prop| >= 3 && prop[0] == 's' && prop[1] == 'e' && prop[2] == 't'
  }

  /**
   * The trap intercepts exactly the mutating part of the surface: every setter name, and
   * neither a getter name nor `toISOString`.
   */
  lemma TrapInterceptsSettersOnly(name: SetterName, g: GetterName)
    ensures Intercepts(SetterMethodName(name))
    ensures !Intercepts(GetterMethodName(g))
    ensures !Intercepts("toISOString")
  {
  }

  /**
   * The proxy object around a `Date`.  `target` and `owner` are the `target` parameter of
   * the trap and the `self` its closure captured; both stay fixed for the proxy's lifetime,
   * also after `owner.native` no longer refers to this proxy.
   */
  class NativeProxy {
    const target: NativeDate
    const owner: Datum

    constructor (target: NativeDate, owner: Datum)
      ensures this.target == target && this.owner == owner
    {
      this.target := target;
      this.owner := owner;
    }

    /**
     * `proxy.setX(...args)`: the trap's function applies the setter to the real target,
     * then runs `self.native = new Date(target)`, a fresh plain `Date` with the target's
     * new time value.
     */
    method CallSetter(host: Host, name: SetterName, args: seq<int>)
      modifies target, owner`native
      ensures target.time == SetterTime(host, name, old(target.time), args)
      ensures owner.native.Bare? && fresh(owner.native.date)
      ensures owner.native.date.time == target.time
    {
      target.Set(host, name, args);
      var replacement := new NativeDate.Copy(target);
      owner.native := Bare(replacement);
    }

    /** `proxy.getX()`: passed through to the target; nothing is replaced. */
    method CallGetter(host: Host, g: GetterName) returns (v: int)
      ensures v == target.Get(host, g)
    {
      v := target.Get(host, g);
    }

    /** `proxy.toISOString()`: passed through to the target; nothing is replaced. */
    method CallToISOString(host: Host) returns (s: string)
      ensures s == target.ToISOString(host)
    {
      s := target.ToISOString(host);
    }
  }

  class Datum {
    var native: Handle

    /** A proxy in `native` is one this `Datum` created, so its trap writes back here. */
    ghost predicate Valid()
      reads this
    {
      native.Intercepting? ==> native.proxy.owner == this
    }

    /** The `Date` object whose time value `native` shows. */
    function Target(): NativeDate
      reads this
    {
      match native
      case Intercepting(p) => p.target
      case Bare(d) => d
    }

    /** The object a read of `datum.native` returns. */
    function NativeRef(): object
      reads this
    {
      match native
      case Intercepting(p) => p
      case Bare(d) => d
    }

    function Time(): int
      reads this, Target()
    {
      Target().time
    }

    /** The receiver's state as the value-level protocol below sees it. */
    function State(): DatumState
      reads this, Target()
    {
      DatumState(native.Intercepting?, Time())
    }

    /**
     * `new Datum(...)`: "now" for a falsy first argument, a copy of another `Datum`'s time
     * value, or `new Date(...arguments)`; the new `Date` is then wrapped in a fresh proxy.
     * The copy reads the source's time value exactly (see `CopiedTimeAsWritten` for what
     * `new Date(src.native)` does instead when `src.native` is still the proxy).
     */
    constructor (host: Host, a: DateInput<Datum>, now: int)
      ensures Valid() && native.Intercepting? && fresh(native.proxy) && fresh(Target())
      ensures a.Copy? ==> Time() == a.src.Time()
      ensures !a.Copy? ==> Time() == StartTime(host, a, now)
    {
      var date: NativeDate;
      if IsFalsy(a) {
        date := new NativeDate(now);
      } else if a.Copy? {
        date := new NativeDate(a.src.Time());
      } else {
        date := new NativeDate(StartTime(host, a, now));
      }
      native := Bare(date);
      new;
      CreateNativeProxy(date);
    }

    /** `_createNativeProxy(date)`: `native` becomes a new proxy around `date`. */
    method CreateNativeProxy(date: NativeDate)
      modifies this
      ensures Valid() && native.Intercepting? && fresh(native.proxy)
      ensures native.proxy.target == date
    {
      var p := new NativeProxy(date, this);
      native := Intercepting(p);
    }

    /** `_parseValue(from, ...rest)`: the shared resolution rule, against this receiver. */
    function ParseValue(from: SetArg, rest: seq<int>): (args: seq<int>)
      reads this, Target()
      ensures args == Resolve(from, rest, Time())
    {
      Resolve(from, rest, Target().time)
    }

    /**
     * `datum.native.setX(...args)`: through the proxy the target is mutated and `native` is
     * replaced by a fresh plain `Date`; on a plain `Date` the mutation happens in place and
     * `native` keeps referring to the same object.
     */
    method CallNativeSetter(host: Host, name: SetterName, args: seq<int>)
      requires Valid()
      modifies this, Target()
      ensures Valid() && native.Bare?
      ensures State() == Step(host, old(State()), HandleSet(name, args))
      ensures old(native).Intercepting? ==> fresh(native.date) && old(native).proxy.target.time == Time()
      ensures old(native).Bare? ==> native == old(native)
    {
      match native
      case Intercepting(p) => p.CallSetter(host, name, args);
      case Bare(d) => d.Set(host, name, args);
    }

    /**
     * `_applySetter` and with it every setter `setDate` ... `setUTCSeconds`: the arguments
     * are resolved against the receiver before anything changes, the setter is applied to
     * the receiver's own `native`, and a new `Datum` copied from the receiver is returned.
     */
    method Set(host: Host, name: SetterName, arg: SetArg, rest: seq<int>) returns (copy: Datum)
      requires Valid()
      modifies this, Target()
      ensures Valid() && native.Bare?
      ensures State() == Step(host, old(State()), WrapperSet(Call(name, arg, rest)))
      ensures old(native).Intercepting? ==> fresh(native.date) && old(native).proxy.target.time == Time()
      ensures old(native).Bare? ==> native == old(native)
      ensures fresh(copy) && copy.Valid() && copy.native.Intercepting? && fresh(copy.native.proxy)
      ensures fresh(copy.Target()) && copy.Time() == Time()
      ensures copy.Target() != Target()
    {
      var args := ParseValue(arg, rest);
      CallNativeSetter(host, name, args);
      copy := new Datum(host, Copy(this), 0);  // the clock is not read when copying
    }

    /** The getter properties `date`, `day`, ... `UTCSeconds`, read through `native`. */
    method Get(host: Host, g: GetterName) returns (v: int)
      ensures v == Field(host, g, Time())
    {
      match native
      case Intercepting(p) => v := p.CallGetter(host, g);
      case Bare(d) => v := d.Get(host, g);
    }

    /** `toISOString()`, read through `native`. */
    method ToISOString(host: Host) returns (s: string)
      ensures s == host.isoString(Time())
    {
      match native
      case Intercepting(p) => s := p.CallToISOString(host);
      case Bare(d) => s := d.ToISOString(host);
    }

    /** `toString()` gives the ISO form, not the `Date` default text. */
    method ToString(host: Host) returns (s: string)
      ensures s == host.isoString(Time())
    {
      s := ToISOString(host);
    }
  }

  /**
   * `new Date(src.native)` as datum.ts:43 writes it.  A proxy has no [[DateValue]] slot, so
   * the `Date` constructor does not read the time value from it: it converts the proxy to a
   * primitive, the trap passes `Symbol.toPrimitive` through to the target, the target gives
   * its `toString` text, and that text is parsed back.  Only a plain `Date` is copied exactly.
   */
  function CopiedTimeAsWritten(intercepting: bool, t: int): (r: int)
    ensures r == t <==> !intercepting || t % 1000 == 0
    ensures intercepting ==> r <= t < r + 1000 && r % 1000 == 0
  {
    if intercepting then TextRoundTrip(t) else t
  }

  /** `new Datum(new Datum(1500))` as written: the copy's time value is 1000, not 1500. */
  lemma CopyThroughProxyDropsMilliseconds()
    ensures CopiedTimeAsWritten(true, 1500) == 1000
  {
  }

  /** The receiver of repeated wrapper or handle setter calls, seen as values. */
  datatype DatumState = DatumState(intercepting: bool, time: int)

  /** A mutation of one `Datum`: a wrapper setter call, or a setter called on `native`. */
  datatype Event = WrapperSet(call: Call) | HandleSet(name: SetterName, args: seq<int>)

  function EventTime(host: Host, t: int, e: Event): int {
    match e
    case WrapperSet(c) => Applied(host, t, c)
    case HandleSet(name, args) => SetterTime(host, name, t, args)
  }

  /** One mutation: the new time value, and `native` no longer intercepting. */
  function Step(host: Host, s: DatumState, e: Event): DatumState {
    DatumState(false, EventTime(host, s.time, e))
  }

  function Run(host: Host, s: DatumState, es: seq<Event>): DatumState
    decreases |es|
  {
    if es == [] then s else Run(host, Step(host, s, es[0]), es[1..])
  }

  /** How many of the mutations make `native` refer to a new object. */
  function Replacements(host: Host, s: DatumState, es: seq<Event>): nat
    decreases |es|
  {
    if es == [] then 0
    else (if s.intercepting then 1 else 0) + Replacements(host, Step(host, s, es[0]), es[1..])
  }

  /**
   * Whatever the mutations and whichever route they take, `native` is replaced at most once:
   * at the first mutation, and only if `native` was still the proxy.
   */
  lemma {:induction false} InterceptionIsOneShot(host: Host, s: DatumState, es: seq<Event>)
    ensures Replacements(host, s, es) == if s.intercepting && es != [] then 1 else 0
    ensures Run(host, s, es).intercepting <==> s.intercepting && es == []
    decreases |es|
  {
    if es != [] {
      InterceptionIsOneShot(host, Step(host, s, es[0]), es[1..]);
    }
  }

  function WrapperEvents(calls: seq<Call>): (es: seq<Event>)
    ensures |es| == |calls|
    ensures forall i :: 0 <= i < |calls| ==> es[i] == WrapperSet(calls[i])
  {
    seq(|calls|, i requires 0 <= i < |calls| => WrapperSet(calls[i]))
  }

  /**
   * Calling setters one after the other on the same `Datum` leaves it at the time value a
   * `DateTime` chain `d.setA(...).setB(...)...` ends at: the two wrappers differ only in
   * where the result is kept.
   */
  lemma {:induction false} ReceiverTimeFollowsChain(host: Host, s: DatumState, calls: seq<Call>)
    ensures Run(host, s, WrapperEvents(calls)).time == ChainTime(host, s.time, calls)
    decreases |calls|
  {
    if calls != [] {
      assert WrapperEvents(calls)[1..] == WrapperEvents(calls[1..]);
      ReceiverTimeFollowsChain(host, Step(host, s, WrapperSet(calls[0])), calls[1..]);
    }
  }

  /**
   * `datum.native.setTime(0)` (datum.test.ts, "should recreate <Datum>.native date mutating
   * it directly"): the read of `native` after the call is another object.
   */
  method DirectMutationRecreatesNative(host: Host, now: int) returns (date1: object, date2: object, time: int)
    ensures date1 != date2 && time == 0
  {
    var datum := new Datum(host, NoArgs, now);
    date1 := datum.NativeRef();
    datum.CallNativeSetter(host, SetTime, [0]);
    date2 := datum.NativeRef();
    time := datum.Time();
  }

  /** A second mutation through `native` happens in place: `native` keeps its object. */
  method LaterMutationKeepsNative(host: Host, now: int) returns (date2: object, date3: object, time: int)
    ensures date2 == date3 && time == 1
  {
    var datum := new Datum(host, NoArgs, now);
    datum.CallNativeSetter(host, SetTime, [0]);
    date2 := datum.NativeRef();
    datum.CallNativeSetter(host, SetTime, [1]);
    date3 := datum.NativeRef();
    time := datum.Time();
  }

  /**
   * A proxy read from `native` before the first mutation keeps its trap: each setter called
   * on it replaces `native` again, with the proxied `Date`'s new time value.
   */
  method StaleProxyStillReplacesNative(host: Host, now: int) returns (date2: object, date3: object, time: int)
    ensures date2 != date3 && time == 5
  {
    var datum := new Datum(host, NoArgs, now);
    var handle := datum.native.proxy;
    handle.CallSetter(host, SetTime, [0]);
    date2 := datum.NativeRef();
    handle.CallSetter(host, SetTime, [5]);
    date3 := datum.NativeRef();
    time := datum.Time();
  }

  /**
   * `date[op](1)` (datum.test.ts, "should return a new Datum object"): the result is another
   * object, and unlike with `DateTime` the receiver has changed to the result's time value.
   */
  method SetterReturnsAnotherObject(host: Host, now: int, name: SetterName)
    returns (same: bool, receiverTime: int, resultTime: int)
    ensures !same
    ensures receiverTime == resultTime == Applied(host, now, Call(name, Num(1), []))
  {
    var date := new Datum(host, NoArgs, now);
    var result := date.Set(host, name, Num(1), []);
    same := result == date;
    receiverTime := date.Time();
    resultTime := result.Time();
  }
}
