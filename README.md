# klokwerk date wrappers in Dafny

klokwerk wraps the ECMAScript `Date` object twice. Each wrapper:

- renames the getters (`getDay()` becomes the property `day`, `getUTCDay()` becomes `UTCDay`);
- lets every setter take either literal numbers or a *derivation function* of the current value.

The two wrappers differ only in where a setter puts its result:

- **`DateTime`** (src/index.ts) is copy-on-write. A setter copies the receiver and applies the
  `Date` setter to the copy. Then it returns the copy. The receiver is never changed.
- **`Datum`** (src/datum.ts) is a live handle. Its `native` field starts as a `Proxy` around a
  `Date`. Calling any `set*` method through that proxy mutates the proxied `Date`. It also
  replaces `native` by a new plain `Date` with the same time value. A wrapper setter mutates the
  receiver's own `native` and returns a copy of the receiver.

The project has four modules:

- `Platform` (platform.dfy) models `Date` (section 21.4 of ECMA-262).
  - `NativeDate` is a class with one mutable `time` field.
  - A `Host` value holds the platform functions this model leaves uninterpreted: the calendar
    setters and their rollover, the calendar getters, the many-argument constructor, string
    parsing and the ISO text form.
  - `setTime` and `getTime` are concrete.
- `Engine` (engine.dfy) holds what both wrappers share:
  - the setter argument (`SetArg = Num | Fn`) and its resolution (`Resolve`, the source's
    `_parseValue`);
  - the time value one setter call produces (`Applied`);
  - the constructor's choice between "now", a copy and forwarding (`IsFalsy`, `StartTime`);
  - the getter renaming.
- `CopyOnWrite` (copy_on_write.dfy) models the class `DateTime`.
- `LiveHandle` (live_handle.dfy) models the classes `Datum` and `NativeProxy`.
  - `native` is a `Handle`: the intercepting proxy or a bare `Date`.
  - A value-level state machine (`DatumState`, `Step`, `Run`) describes repeated mutations of
    one `Datum`. Its lemmas cover any number of calls.

The setter family `setDate` … `setUTCSeconds` is one `Set` method per class, with the setter
named by a `SetterName` value. The eighteen getters are one `Get` member with a `GetterName`.
The source's setters and getters are one-line delegations, so nothing is lost by this.

Where the tests, or the analogy with `DateTime`, suggest other behaviour than the code has, the
model follows the code:

- The live handle is replaced only once. Its replacement is a plain `Date`, not a new proxy.
  So after the first mutation, later setter calls mutate that `Date` in place, and `native`
  keeps referring to the same object (`InterceptionIsOneShot`, `LaterMutationKeepsNative`).
  A proxy read before the first mutation still holds its trap: each call on it replaces `native`
  again (`StaleProxyStillReplacesNative`).
- A `Datum` setter returns a new `Datum` (`new Datum(this)`), not the receiver.
- `Datum` has no `valueOf`. Only `DateTime` has one (src/index.ts:263-265).
- src/index.test.ts:88-94 expects that reading `DateTime.native` after `native.setTime(0)` gives
  a new object. `DateTime` has no proxy, so the read gives the same object
  (`DirectMutationKeepsNative`).
- A falsy first constructor argument means "now". The remaining arguments are then ignored. So
  `new DateTime(0)`, `new DateTime("")` and `new DateTime(0, 5)` all give the current instant,
  not the epoch, an invalid date or the year 1900 (`FalsyFirstArgumentIgnoresTheRest`).

## Model

| member | source | states |
|---|---|---|
| `Engine.Resolve` | src/index.ts:53-54 | A number, given literally or returned by the function, goes in front of the trailing arguments, in order. A list returned by the function is the whole argument list, and the trailing arguments are dropped. |
| `Engine.LiteralIgnoresReceiver` | src/datum.ts:74-75 | A literal first argument resolves to `[n] + rest`, whatever the receiver's time value. |
| `Engine.FunctionalFormsAgree` | src/index.ts:60-63 | `op(v1..vn)` and `op(_ => [v1..vn])` give the same time value, whatever trailing arguments go with the function. So do `op(v, ...rest)` and `op(_ => v, ...rest)`. |
| `Engine.ChainOfFunctionalForms` | src/index.ts:58-65 | A chain of literal setter calls and the same chain in the function-returning-the-list form end at the same time value. |
| `Engine.SetTimeLaws` | src/index.test.ts:240-248 | `setTime(v)` yields `v`, and `time` then reads `v`. `setTime(c => c.time + 1)` yields the receiver's time value plus one, so the function sees the state from before the mutation. |
| `Engine.StartTime` | src/index.ts:39-47 | A falsy first argument gives "now". A `Date` argument gives its time value. A non-zero number gives itself. |
| `Engine.FalsyFirstArgumentIgnoresTheRest` | src/index.ts:40-41 | Year 0 with any further components, the number 0 and the empty string all give "now". |
| `Engine.PropertyNameFollowsRenaming` | src/index.test.ts:101-115 | Each getter property is its `Date` getter's name with "get" dropped. The first letter is lower-cased unless the name starts with "UTC". |
| `CopyOnWrite.DateTime.constructor` | src/index.ts:39-47 | The `native` is always a fresh `Date` and never an alias. A `DateTime` argument gives an equal time value. Every other input gives `StartTime` ("now" when falsy, else forwarded). |
| `CopyOnWrite.DateTime.ParseValue` | src/index.ts:49-56 | Arguments are resolved by the shared rule against the receiver's current time value. |
| `CopyOnWrite.DateTime.Set` | src/index.ts:58-65 | Every setter returns a fresh `DateTime` with a fresh `Date`. Its time value is the receiver's, with the arguments resolved against the receiver and the setter applied. The receiver cannot change, because the method has no `modifies` clause. |
| `CopyOnWrite.DateTime.Get` | src/index.ts:67-81 | Each getter property is the `Date` getter applied to `native`. `time` is the time value itself. |
| `CopyOnWrite.DateTime.ValueOf` | src/index.ts:263-265 | `valueOf()` is the time value. |
| `CopyOnWrite.DateTime.ToISOString` | src/index.ts:243-245 | `toISOString()` passes through to `native`. |
| `CopyOnWrite.DateTime.ToString` | src/index.ts:267-269 | `toString()` is the ISO form of the time value. |
| `CopyOnWrite.MutatingACopyLeavesTheSource` | src/index.ts:42-43 | Mutating the copy's `native` leaves the source's time value unchanged, while the copy gets the setter's result. |
| `CopyOnWrite.SetterReturnsAnotherObject` | src/index.test.ts:134-140 | `date[op](1)` is not `date`, and `date` keeps its time value. |
| `CopyOnWrite.DirectMutationKeepsNative` | src/index.test.ts:88-94 | After `native.setTime(0)` on a `DateTime`, `native` is the same object and has time value 0. |
| `LiveHandle.TrapInterceptsSettersOnly` | src/datum.ts:56 | The trap's "starts with set" test holds for every setter name. It fails for every getter name and for `toISOString`. |
| `LiveHandle.NativeProxy.constructor` | src/datum.ts:52-54 | A proxy remembers its target and the `Datum` whose `native` its trap writes. |
| `LiveHandle.NativeProxy.CallSetter` | src/datum.ts:56-62 | A `set*` call through the proxy applies the setter to the target. It then makes the owner's `native` a fresh plain `Date` with the target's new time value. |
| `LiveHandle.NativeProxy.CallGetter` | src/datum.ts:63-65 | Any other property passes through to the target, and nothing is replaced. |
| `LiveHandle.NativeProxy.CallToISOString` | src/datum.ts:64 | `toISOString` through the proxy passes through to the target. |
| `LiveHandle.Datum.constructor` | src/datum.ts:39-49 | `native` is always a fresh proxy around a fresh `Date`. A falsy argument gives "now". A `Datum` argument gives an equal time value (the corrected copy, see Findings). Anything else is forwarded. |
| `LiveHandle.Datum.CreateNativeProxy` | src/datum.ts:51-68 | `native` becomes a new proxy around the given `Date`, and the proxy's trap writes back to this `Datum`. |
| `LiveHandle.Datum.ParseValue` | src/datum.ts:70-77 | The same resolution rule as `DateTime`, against the receiver's current time value. |
| `LiveHandle.Datum.CallNativeSetter` | src/datum.ts:80-82 | A setter called on `native` gives the new time value and leaves a bare handle. It replaces `native` by a fresh object if and only if `native` was still the proxy; otherwise it mutates in place. |
| `LiveHandle.Datum.Set` | src/datum.ts:79-85 | The receiver's time value becomes the setter's result, with the arguments resolved against the pre-mutation state. The receiver's `native` is replaced if and only if it was the proxy. The result is a fresh `Datum`, with a fresh proxy and `Date`, whose time value equals the receiver's new one. The copy's `Date` is never the receiver's, so changing one leaves the other alone. |
| `LiveHandle.Datum.Get` | src/datum.ts:87-101 | Each getter property is the `Date` getter applied to the current time value, read through `native`. |
| `LiveHandle.Datum.ToISOString` | src/datum.ts:263-265 | `toISOString()` is the ISO form of the current time value. |
| `LiveHandle.Datum.ToString` | src/datum.ts:283-285 | `toString()` is the ISO form of the current time value. |
| `LiveHandle.CopiedTimeAsWritten` | src/datum.ts:43 | As written, copying a `Datum` is exact if and only if its `native` is a plain `Date` or its time value has no millisecond part. Through the proxy, the copy is the time value rounded down to its second. |
| `LiveHandle.CopyThroughProxyDropsMilliseconds` | src/datum.ts:43 | As written, copying a fresh `Datum` with time value 1500 gives 1000. |
| `LiveHandle.InterceptionIsOneShot` | src/datum.ts:61 | For any sequence of mutations, by wrapper setter or by a setter called on the current `native`, `native` is replaced exactly once if it started as the proxy and the sequence is non-empty, and never otherwise. After any mutation it is no longer the proxy. A proxy read before the first mutation is not covered (see `StaleProxyStillReplacesNative`). |
| `LiveHandle.ReceiverTimeFollowsChain` | src/datum.ts:79-85 | Setter calls repeated on one `Datum` leave it at the time value a `DateTime` chain of the same calls ends at. |
| `LiveHandle.DirectMutationRecreatesNative` | src/datum.test.ts:88-94 | After `native.setTime(0)` on a fresh `Datum`, reading `native` gives a different object, with time value 0. |
| `LiveHandle.LaterMutationKeepsNative` | src/datum.ts:80-82 | A second `native.setTime` leaves `native` referring to the same object. |
| `LiveHandle.StaleProxyStillReplacesNative` | src/datum.ts:52-62 | A setter called on a proxy read before the first mutation replaces `native` again, with the proxied `Date`'s new time value. |
| `LiveHandle.SetterReturnsAnotherObject` | src/datum.test.ts:127-133 | `date[op](1)` is not `date`. Unlike with `DateTime`, `date` now has the same time value as the result. |

## Left out

- The calendar setters' arithmetic and field rollover (`setHours(1, 60)`, `setMonth(1, 31)`), the
  calendar getters and the local time zone are the uninterpreted `Host` functions. The rollover
  tables are not modelled.
- Time values are unbounded integers. IEEE doubles, `NaN`, invalid dates and `TimeClip` are not
  modelled. So `setTime(v)` and `new DateTime(n)` (likewise `new Datum(n)`) keep any integer,
  including one beyond the range where the platform gives an invalid date.
- `undefined` arguments cannot be expressed: a setter always has a first argument, and the trailing
  arguments are integers. So `setTime()` with no argument and `undefined` among the trailing
  arguments are not modelled.
- Only the calendar setters, and `setTime` with an empty argument list (`setTime(_ => [])`), go to
  `Host.calendarSet`.
- String parsing in the constructor (`Host.parse`) and the many-argument constructor
  (`Host.fromFields`) are uninterpreted.
- `toDateString`, `toJSON`, `toLocaleDateString`, `toLocaleString`, `toLocaleTimeString`,
  `toTimeString` and `toUTCString` are not modelled. They pass straight through to `Date` and
  depend on the host's locale and time zone. Only `toISOString` and `toString` are modelled.
- The current instant is a parameter of the constructors, not a clock read.
- A derivation function is a pure function of the receiver's time value. One that has side
  effects (for example, one that mutates the receiver's `native`) is not modelled. Neither is
  one that returns something other than a number or a list; the source's types exclude that.
- The TypeScript overloads' arity limits (for example, `setDate` takes one number) are not
  enforced. The model accepts any number of trailing arguments, as the JavaScript does at run
  time.
- Proxy mechanics beyond the split between `set*` names and other names are not modelled:
  symbol-keyed properties other than the conversion to a primitive, the `undefined` that the
  trap's function returns, and `set*` names outside the wrappers' setter family (such as
  `setYear`).
- Giving a `Datum`'s proxy to a `DateTime` or to `new Date` as a `Date` argument is not
  modelled. `FromDate` takes a plain `Date`.
- The type-level helpers (`FilterStartsWith`, `DateSetterMethodName`, …) and the `typeof` guards
  (`isString`, `isNumber`, `isFunction`) are replaced by datatype tags.
- rollup.config.js is build configuration only. The test files are used as evidence only.

## Findings

| source | as written | input that shows it | evidently intended | confidence | as-written member | corrected member |
|---|---|---|---|---|---|---|
| src/datum.ts:43 | `new Date(arguments[0].native)`, where `native` may still be the `Proxy`. A proxy has no [[DateValue]] slot, so `Date` converts it to a primitive through the passed-through `Symbol.toPrimitive`. That gives the `toString` text, which has no milliseconds, and parses it. | `new Datum(new Datum(1500))` has time value 1000 | the copy has the source's time value, as the `DateTime` copy does (src/index.ts:43) | not executed; medium | `LiveHandle.CopyThroughProxyDropsMilliseconds` | `LiveHandle.Datum.constructor` |
