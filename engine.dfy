/**
 * What `DateTime` (src/index.ts) and `Datum` (src/datum.ts) share: how a setter argument is
 * resolved against the receiver (`_parseValue`), what time value one setter call produces,
 * how the constructor chooses between "now", a copy and forwarding, and how the renamed
 * getter properties are named.
 */
module Engine {
  import opened Platform

  /** What a derivation function returns: one number, or the whole argument list. */
  datatype SetResult = Scalar(n: int) | Seq(values: seq<int>)

  /**
   * The first argument of a wrapper setter: a literal number, or a derivation function of
   * the receiver.  The function is given the receiver's time value, which determines every
   * getter the function could read.
   */
  datatype SetArg = Num(n: int) | Fn(f: int -> SetResult)

  /** `isFunction(from) ? from(this) : from`. */
  function Derive(from: SetArg, current: int): SetResult {
    match from
    case Num(n) => Scalar(n)
    case Fn(f) => f(current)
  }

  /**
   * `_parseValue(from, ...rest)` for a receiver with time value `current`: a number, literal
   * or returned by the function, is put in front of the trailing literal arguments; a list
   * returned by the function is the whole argument list and the trailing arguments are dropped.
   */
  function Resolve(from: SetArg, rest: seq<int>, current: int): (args: seq<int>)
    ensures from.Num? ==> args == [from.n] + rest
    ensures from.Fn? && from.f(current).Scalar? ==> args == [from.f(current).n] + rest
    ensures from.Fn? && from.f(current).Seq? ==> args == from.f(current).values
  {
    match Derive(from, current)
    case Scalar(n) => [n] + rest
    case Seq(vs) => vs
  }

  /** One wrapper setter call `w.setX(arg, ...rest)`. */
  datatype Call = Call(name: SetterName, arg: SetArg, rest: seq<int>)

  /** The time value one setter call produces from a receiver whose time value is `t`. */
  function Applied(host: Host, t: int, c: Call): int {
    SetterTime(host, c.name, t, Resolve(c.arg, c.rest, t))
  }

  /** The time value after the calls in order, each applied to the previous outcome. */
  function ChainTime(host: Host, t: int, calls: seq<Call>): int
    decreases |calls|
  {
    if calls == [] then t else ChainTime(host, Applied(host, t, calls[0]), calls[1..])
  }

  /** A literal call resolves the same way whatever the receiver's time value. */
  lemma LiteralIgnoresReceiver(n: int, rest: seq<int>, t1: int, t2: int)
    ensures Resolve(Num(n), rest, t1) == Resolve(Num(n), rest, t2) == [n] + rest
  {
  }

  /**
   * `op(v1, ..., vn)` and `op(_ => [v1, ..., vn])` produce the same time value, whatever
   * trailing arguments go with the function; so do `op(v, ...rest)` and `op(_ => v, ...rest)`.
   */
  lemma FunctionalFormsAgree(host: Host, name: SetterName, t: int, vs: seq<int>, ignored: seq<int>)
    requires vs != []
    ensures Applied(host, t, Call(name, Num(vs[0]), vs[1..]))
         == Applied(host, t, Call(name, Fn(_ => Seq(vs)), ignored))
    ensures Applied(host, t, Call(name, Num(vs[0]), ignored))
         == Applied(host, t, Call(name, Fn(_ => Scalar(vs[0])), ignored))
  {
    assert [vs[0]] + vs[1..] == vs;
  }

  /**
   * The derivation function sees the receiver's time value from before the call: with
   * `setTime`, `setTime(t)` yields `t` and `setTime(c => c.time + 1)` yields one more than
   * the receiver had.
   */
  lemma SetTimeLaws(host: Host, t: int, v: int, rest: seq<int>)
    ensures Applied(host, t, Call(SetTime, Num(v), rest)) == v
    ensures Applied(host, t, Call(SetTime, Fn(c => Scalar(c + 1)), rest)) == t + 1
    ensures Field(host, GetTime, Applied(host, t, Call(SetTime, Num(v), rest))) == v
  {
  }

  /**
   * A chain of literal calls ends where the same chain of function-returning-the-list calls
   * ends: the literal and the functional forms are interchangeable call by call.
   */
  lemma {:induction false} ChainOfFunctionalForms(host: Host, t: int, names: seq<SetterName>, lists: seq<seq<int>>)
    requires |names| == |lists|
    requires forall i :: 0 <= i < |lists| ==> lists[i] != []
    ensures ChainTime(host, t, LiteralCalls(names, lists)) == ChainTime(host, t, FunctionCalls(names, lists))
    decreases |names|
  {
    if names != [] {
      FunctionalFormsAgree(host, names[0], t, lists[0], []);
      var t' := Applied(host, t, Call(names[0], Num(lists[0][0]), lists[0][1..]));
      assert LiteralCalls(names, lists)[1..] == LiteralCalls(names[1..], lists[1..]);
      assert FunctionCalls(names, lists)[1..] == FunctionCalls(names[1..], lists[1..]);
      ChainOfFunctionalForms(host, t', names[1..], lists[1..]);
    }
  }

  /** `op(v1, ..., vn)` for each name and argument list. */
  function LiteralCalls(names: seq<SetterName>, lists: seq<seq<int>>): (calls: seq<Call>)
    requires |names| == |lists|
    requires forall i :: 0 <= i < |lists| ==> lists[i] != []
    ensures |calls| == |names|
    decreases |names|
  {
    if names == [] then []
    else [Call(names[0], Num(lists[0][0]), lists[0][1..])] + LiteralCalls(names[1..], lists[1..])
  }

  /** `op(_ => [v1, ..., vn])` for each name and argument list. */
  function FunctionCalls(names: seq<SetterName>, lists: seq<seq<int>>): (calls: seq<Call>)
    requires |names| == |lists|
    ensures |calls| == |names|
    decreases |names|
  {
    if names == [] then []
    else [Call(names[0], Fn(_ => Seq(lists[0])), [])] + FunctionCalls(names[1..], lists[1..])
  }

  /**
   * The arguments a wrapper constructor is called with: none; one number, string or `Date`;
   * two to seven calendar components (year, month, then day, hours, minutes, seconds,
   * milliseconds); or another wrapper of the same class.
   */
  datatype DateInput<W> =
    | NoArgs
    | Millis(ms: int)
    | Text(text: string)
    | FromDate(date: NativeDate)
    | Fields(year: int, month: int, more: seq<int>)
    | Copy(src: W)

  /** `!arguments[0]`: no first argument, the number 0 (also as a year) or the empty string. */
  predicate IsFalsy<W>(a: DateInput<W>) {
    match a
    case NoArgs => true
    case Millis(n) => n == 0
    case Text(s) => s == ""
    case FromDate(_) => false
    case Fields(y, _, _) => y == 0
    case Copy(_) => false
  }

  /**
   * The time value the constructor gives its new `Date` for every input but a wrapper to
   * copy: "now" when the first argument is falsy, otherwise `new Date(...arguments)`.
   */
  function StartTime<W>(host: Host, a: DateInput<W>, now: int): (t: int)
    requires !a.Copy?
    reads if a.FromDate? then {a.date} else {}
    ensures IsFalsy(a) ==> t == now
    ensures a.FromDate? ==> t == a.date.time
    ensures a.Millis? && a.ms != 0 ==> t == a.ms
  {
    if IsFalsy(a) then now
    else match a
      case NoArgs => now
      case Millis(n) => n
      case Text(s) => host.parse(s)
      case FromDate(d) => d.time
      case Fields(y, m, more) => host.fromFields(y, m, more)
  }

  /**
   * A falsy first argument means "now" and the remaining arguments are ignored, so the epoch
   * `0` and the year `0` are not forwarded.
   */
  lemma FalsyFirstArgumentIgnoresTheRest<W>(host: Host, month: int, more: seq<int>, now: int)
    ensures StartTime<W>(host, Fields(0, month, more), now) == now
    ensures StartTime<W>(host, Millis(0), now) == now
    ensures StartTime<W>(host, Text(""), now) == now
  {
  }

  /** The wrapper property that exposes a getter (`get day()`, `get UTCDay()`, ...). */
  function PropertyName(g: GetterName): string {
    match g
    case GetDate => "date"
    case GetDay => "day"
    case GetFullYear => "fullYear"
    case GetHours => "hours"
    case GetMilliseconds => "milliseconds"
    case GetMinutes => "minutes"
    case GetMonth => "month"
    case GetSeconds => "seconds"
    case GetTime => "time"
    case GetTimezoneOffset => "timezoneOffset"
    case GetUTCDate => "UTCDate"
    case GetUTCDay => "UTCDay"
    case GetUTCFullYear => "UTCFullYear"
    case GetUTCHours => "UTCHours"
    case GetUTCMilliseconds => "UTCMilliseconds"
    case GetUTCMinutes => "UTCMinutes"
    case GetUTCMonth => "UTCMonth"
    case GetUTCSeconds => "UTCSeconds"
  }

  function LowerCase(c: char): char {
    if 'A' <= c <= 'Z' then (c as int - 'A' as int + 'a' as int) as char else c
  }

  /**
   * The renaming rule of the getter surface: drop the leading "get", then lower-case the
   * first letter unless the rest starts with "UTC".
   */
  function Renamed(getterName: string): string
    requires |getterName| > 3
  {
    var rest := getterName[3..];
    if |rest| >= 3 && rest[0] == 'U' && rest[1] == 'T' && rest[2] == 'C' then rest else [LowerCase(rest[0])] + rest[1..]
  }

  lemma RenamedGetter(field: string)
    requires field != []
    ensures Renamed("get" + field)
         == if |field| >= 3 && field[0] == 'U' && field[1] == 'T' && field[2] == 'C' then field
            else [LowerCase(field[0])] + field[1..]
  {
    assert ("get" + field)[3..] == field;
  }

  /** Every getter property is its `Date` getter's name under the renaming rule. */
  lemma PropertyNameFollowsRenaming(g: GetterName)
    ensures PropertyName(g) == Renamed(GetterMethodName(g))
  {
    match g
    case GetDate | GetDay | GetFullYear | GetHours | GetMilliseconds => LocalNamesFollowRenaming1(g);
    case GetMinutes | GetMonth | GetSeconds | GetTime => LocalNamesFollowRenaming2(g);
    case GetTimezoneOffset => TimezoneNameFollowsRenaming();
    case GetUTCDate | GetUTCDay | GetUTCFullYear | GetUTCHours => UTCNamesFollowRenaming1(g);
    case GetUTCMilliseconds | GetUTCMinutes | GetUTCMonth | GetUTCSeconds => UTCNamesFollowRenaming2(g);
  }

  // The renaming rule, a few getters at a time: one proof over all eighteen names is too
  // costly for the solver.

  lemma LocalNamesFollowRenaming1(g: GetterName)
    requires g.GetDate? || g.GetDay? || g.GetFullYear? || g.GetHours? || g.GetMilliseconds?
    ensures PropertyName(g) == Renamed(GetterMethodName(g))
  {
    RenamedGetter(GetterField(g));
  }

  lemma LocalNamesFollowRenaming2(g: GetterName)
    requires g.GetMinutes? || g.GetMonth? || g.GetSeconds? || g.GetTime?
    ensures PropertyName(g) == Renamed(GetterMethodName(g))
  {
    RenamedGetter(GetterField(g));
  }

  lemma TimezoneNameFollowsRenaming()
    ensures PropertyName(GetTimezoneOffset) == Renamed(GetterMethodName(GetTimezoneOffset))
  {
    RenamedGetter(GetterField(GetTimezoneOffset));
  }

  lemma UTCNamesFollowRenaming1(g: GetterName)
    requires g.GetUTCDate? || g.GetUTCDay? || g.GetUTCFullYear? || g.GetUTCHours?
    ensures PropertyName(g) == Renamed(GetterMethodName(g))
  {
    RenamedGetter(GetterField(g));
  }

  lemma UTCNamesFollowRenaming2(g: GetterName)
    requires g.GetUTCMilliseconds? || g.GetUTCMinutes? || g.GetUTCMonth? || g.GetUTCSeconds?
    ensures PropertyName(g) == Renamed(GetterMethodName(g))
  {
    RenamedGetter(GetterField(g));
  }
}
