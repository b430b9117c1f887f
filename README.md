# LocalNotification facade — a Dafny model

This project models the JavaScript facade of the Cordova local-notification
plugin, `www/local-notification.js`. The facade is the object that app code
calls as `plugin.add(...)`, `plugin.cancel(...)` and so on. It keeps a live
table of default settings. `setDefaults` overrides that table, and once the
device is ready the platform adds its own fields. Before each descriptor goes
to the native side, the facade normalises it in place:

- it merges in the defaults;
- it turns a truthy `id` into a string;
- it supplies a missing `date` from the clock;
- it converts a `Date` to whole epoch seconds.

Each public operation ends in one `cordova.exec` dispatch to the native
executor.

Three modules:

- `JsValue` (`js_value.dfy`) covers the JavaScript semantics the facade
  relies on: values, truthiness, `typeof`, `toString`,
  `Array.prototype.indexOf` and `Math.round(ms / 1000)`. It also proves that
  an integer's decimal text reads back.
- `Descriptor` (`descriptor.dfy`) holds descriptors and the defaults table as
  maps from property names to values. It defines the pure rules (the base
  defaults, override, platform additions, merge, normalisation) and the
  lemmas about them: idempotence, what is kept, what is filled, and what
  throws.
- `Facade` (`facade.dfy`) holds the facade object. `LocalNotification` is a
  class whose `defaults` object is shared with callers (`getDefaults` returns
  it, not a copy). The methods that change the defaults or normalise
  descriptors are proved against the `Descriptor` functions. `cordova.exec` is recorded in a ghost log, `calls`, one `Call`
  per dispatch: the action, the arguments as the executor receives them, and
  whether a result callback was passed.

A JavaScript `TypeError` that the facade does not catch is a result of its
own. These are the throws the model covers:

- `cancel` calls `id.toString()`, which throws on an `undefined` or `null` id.
  `Cancel` reports this as `ThrewTypeError`.
- `add` and `addMulti` call `getTime()` on a `date` that is an object. It
  throws when the `date` is `null` or an object without a `getTime` method. `add`
  reports this as `ThrewTypeError` and `addMulti` as `completed == false`.
  Both call `toString` only on a truthy id, so they have no other throw.

After a throw nothing is dispatched, and the objects keep the changes made
before the throw. Throws caused by an argument that is not an object are
listed under "## Left out".

A `null` date does not pass through: `typeof null` is `'object'`, so
`null.getTime()` is reached and throws, and the model does the same
(`ConvertDate`, `NormalizeDate`).

## Model

| member | source | states |
|---|---|---|
| JsValue.TypeOf | www/local-notification.js:117 | `typeof` is `'object'` exactly for `null`, a `Date` and other objects, and `'undefined'` exactly for `undefined` |
| JsValue.ToText | www/local-notification.js:110 | `toString` throws exactly on `undefined`/`null`; a string is itself, a number its decimal text, a truthy value a non-empty string |
| JsValue.NatDecimalRoundTrip | www/local-notification.js:110 | the decimal digits of a natural number parse back to it (by induction on the digits) |
| JsValue.IntDecimalRoundTrip | www/local-notification.js:110 | a stringified integer id is a well-formed decimal and parses back to the same integer |
| JsValue.IntDecimalInjective | www/local-notification.js:110 | two numeric ids stringify to the same text if and only if they are equal |
| JsValue.EpochSeconds | www/local-notification.js:118 | `Math.round(ms/1000)` is the second within half a second of `ms`: `1000*s - 500 <= ms < 1000*s + 500` |
| JsValue.IndexOf | www/local-notification.js:121 | `indexOf` is -1 exactly when the item is absent, and otherwise the first index holding it |
| Descriptor.BaseDefaults | www/local-notification.js:22-32 | the seed table has exactly the keys message, title, autoCancel, badge, id, json, repeat, all defined |
| Descriptor.OverrideKeepsKeys | www/local-notification.js:49-57 | `setDefaults` neither adds nor removes a default key; keys only in the argument are ignored |
| Descriptor.OverrideValues | www/local-notification.js:52-55 | a default key takes the argument's value when that is defined and keeps its own otherwise |
| Descriptor.OverrideIdempotent | www/local-notification.js:49-57 | calling `setDefaults` twice with the same object is calling it once |
| Descriptor.OverrideSelf | www/local-notification.js:49-57 | `setDefaults(getDefaults())` changes nothing |
| Descriptor.OverridePreservesDefined | www/local-notification.js:53-54 | only defined values are written, so defaults that are all defined stay so |
| Descriptor.WithPlatformKeys | www/local-notification.js:81-97 | the platform step adds exactly its platform's keys (none on an unknown platform) and leaves every other default as it was |
| Descriptor.WithPlatformValues | www/local-notification.js:85-95 | the values each platform sets: Android icon/smallIcon/ongoing/sound, iOS sound, Windows the three image fields null |
| Descriptor.WithPlatformIdempotent | www/local-notification.js:81-97 | running the platform step twice is running it once |
| Descriptor.WithPlatformPreservesDefined | www/local-notification.js:81-97 | the platform step never makes a default undefined |
| Descriptor.MergeKeysStep | www/local-notification.js:69-73 | one turn of the merge loop on a new default key copies it exactly when the descriptor leaves it undefined |
| Descriptor.Merge | www/local-notification.js:66-76 | the merged descriptor has exactly the keys of the descriptor and the defaults |
| Descriptor.MergeValues | www/local-notification.js:69-73 | the merge keeps every defined value, fills each undefined default key from the defaults, touches no other key, and leaves every default key defined when the defaults are |
| Descriptor.MergeIdempotent | www/local-notification.js:66-76 | merging an already merged descriptor changes nothing |
| Descriptor.MergeSelf | www/local-notification.js:66-76 | `mergeWithDefaults(getDefaults())` changes nothing |
| Descriptor.MergeStable | www/local-notification.js:69-73 | a descriptor that holds every default key, each defined or `undefined` only where the default is `undefined` too, is its own merge |
| Descriptor.StringifyId | www/local-notification.js:109-111 | keys are unchanged; a truthy id becomes its `toString` text, itself truthy; a falsy id leaves the descriptor as it was |
| Descriptor.StringifyIdOthers | www/local-notification.js:109-111 | stringifying the id changes no other property |
| Descriptor.DefaultDate | www/local-notification.js:113-115 | `date` is added; it becomes the clock reading exactly when it was undefined |
| Descriptor.DefaultDateOthers | www/local-notification.js:113-115 | defaulting the date changes no other property |
| Descriptor.ConvertDate | www/local-notification.js:117-119 | keys are unchanged; `getTime` throws exactly on a `null` date or an object date without `getTime`; a `Date` becomes its rounded epoch seconds; a non-object date passes through |
| Descriptor.ConvertDateOthers | www/local-notification.js:117-119 | converting the date changes no other property |
| Descriptor.NormalizeAll | www/local-notification.js:141-156 | normalising a batch yields one descriptor per input descriptor, each normalised on its own at the clock reading of its own loop turn |
| Descriptor.NormalizeFields | www/local-notification.js:106-119 | a normalised descriptor has the caller's keys, the default keys and `date`; apart from `id` and `date`, caller values are kept, missing ones come from the defaults, and other keys are untouched |
| Descriptor.NormalizeId | www/local-notification.js:109-111 | a truthy merged id leaves as its non-empty `toString` text and a falsy one unchanged, so the returned id is truthy exactly when the merged one is |
| Descriptor.NormalizeDate | www/local-notification.js:113-119 | the throw happens exactly on a `null` date or an object date without `getTime`; a missing date becomes the clock's epoch seconds, a `Date` its epoch seconds, other values pass through |
| Descriptor.NormalizeNumericId | www/local-notification.js:109-129 | a non-zero numeric id is returned as its decimal text, which parses back to the same number |
| Descriptor.NormalizeDefined | www/local-notification.js:106-119 | against fully defined defaults, a descriptor that normalises without a throw has every default key and `date` defined |
| Descriptor.NormalizeIdempotent | www/local-notification.js:106-119 | normalising an already normalised descriptor, at any later clock reading, changes nothing |
| Descriptor.WantsCallbackAsWrittenUnlessWinCE | www/local-notification.js:121-125 | the platform test as written holds on every platform except `'WinCE'` (Android gets the callback, WinCE does not) |
| Descriptor.WantsCallbackOnWindows | www/local-notification.js:121-125 | the corrected test holds exactly on `'WinCE'` and `'Win32NT'` |
| Facade.LocalNotification.constructor | www/local-notification.js:22-32 | a new facade owns a fresh defaults object holding the seed table, and nothing has been dispatched |
| Facade.LocalNotification.GetDefaults | www/local-notification.js:40-42 | returns the live defaults object itself |
| Facade.LocalNotification.SetDefaults | www/local-notification.js:49-57 | the defaults become the override of the old defaults by the argument's old values (also when the argument is the defaults object), and stay fully defined if they were |
| Facade.LocalNotification.MergeWithDefaults | www/local-notification.js:66-76 | the argument object itself is returned, holding the merge of its old values with the defaults; the defaults are unchanged |
| Facade.LocalNotification.ApplyPlatformSpecificOptions | www/local-notification.js:81-97 | the defaults become the old defaults plus the platform's fields, and stay fully defined if they were |
| Facade.LocalNotification.NormalizeInPlace | www/local-notification.js:106-119 | the descriptor object ends as its normalisation, and `ok` is false exactly when `getTime` threw; the defaults change only when the descriptor is the defaults object |
| Facade.LocalNotification.Add | www/local-notification.js:105-130 | the descriptor is normalised in place; without a throw, one `'add'` command carrying it is dispatched, with a result callback exactly when the platform's index in `['WinCE', 'Win32NT']` is truthy (every platform but `'WinCE'`), and its normalised id is returned; with a throw, a TypeError and no dispatch |
| Facade.LocalNotification.NormalizeAt | www/local-notification.js:142-155 | one loop turn: slot `i` ends as the normalisation of its old descriptor and the other slots are unchanged |
| Facade.LocalNotification.NormalizeEach | www/local-notification.js:141-156 | slot `i` is normalised at the clock reading `clock(i)` of its own turn; the slots before the throwing index are normalised, the one at it keeps its partial changes, and the rest are untouched; it completes exactly when nothing threw |
| Facade.LocalNotification.AddMulti | www/local-notification.js:138-164 | without a throw, every descriptor is normalised, each at its own turn's clock reading, a falsy `cancelAll` becomes `false`, and one `'addMulti'` command is dispatched with no callback; a throw stops at the first bad descriptor with `cancelAll` untouched and nothing dispatched |
| Facade.LocalNotification.Cancel | www/local-notification.js:171-173 | throws exactly on an `undefined`/`null` id; otherwise dispatches one `'cancel'` command with the id's text |
| Facade.LocalNotification.CancelAll | www/local-notification.js:178-180 | dispatches one `'cancelAll'` command with no arguments |
| Facade.LocalNotification.HasPermission | www/local-notification.js:190-196 | dispatches one `'hasPermission'` command with a result callback |
| Facade.LocalNotification.PromptForPermission | www/local-notification.js:201-203 | dispatches one `'promptForPermission'` command with no arguments |
| Facade.LocalNotification.Ready | www/local-notification.js:254-256 | dispatches one `'ready'` command with no arguments |

## Findings

| source | as written | input that shows it | evidently intended | confidence | as-written member | corrected member |
|---|---|---|---|---|---|---|
| www/local-notification.js:121 | `if (['WinCE', 'Win32NT'].indexOf(device.platform))` takes the index as a boolean | platform `'Android'` (index -1, truthy) gets the `eval` callback; platform `'WinCE'` (index 0, falsy) does not | pass the callback exactly when the platform is in the list (`indexOf(...) !== -1`) | medium, not executed | Descriptor.WantsCallbackAsWrittenUnlessWinCE | Descriptor.WantsCallbackOnWindows |

`Facade.LocalNotification.Add` dispatches as the code is written
(`WantsCallbackAsWritten`); `WantsCallback` is the corrected test, with its
intended property proved.

## Left out

- The native executor: `cordova.exec` is only recorded in the `calls` log. What the native side does with a command, and any answer it sends back, are not modelled.
- The callbacks themselves: the function `add` passes (`eval(cmd)`) and the one `hasPermission` builds around the caller's `callback` and `scope`. Only the presence of a callback is recorded.
- The event hooks `onadd`, `onaddmulti`, `ontrigger`, `onclick` and `oncancel` (lines 212-248): they are empty placeholders that callers replace.
- Module bootstrap (lines 259-265): creating the single instance, the `deviceready` listener that calls `applyPlatformSpecificOptions`, and the export. The platform name is passed to `ApplyPlatformSpecificOptions` and `Add` as a parameter, in place of `device.platform`.
- The clock: each `new Date()` is a parameter, in milliseconds: `now` for `add`, and `clock(i)` for turn `i` of the `addMulti` loop, which reads the clock afresh on every turn.
- Numbers are integers: fractions, `NaN`, `Infinity` and the 53-bit precision of JavaScript numbers are outside the model.
- JsValue.ToText: the text of a `Date` depends on the host's locale and time zone; the model renders its milliseconds.
- Descriptor.ConvertDate: a non-`Date` object with its own `getTime` method is not modelled; JavaScript would call that method and round its result instead of throwing.
- Descriptor.NormalizeDate: the same duck-typed date is not modelled; the throw is promised only for `null` and plain objects without `getTime`.
- JsValue.ToText: an object is a plain object with the built-in `toString` (text `[object Object]`). Arrays (`[].toString()` is `''`) and objects with their own `toString` are not modelled, and "a truthy value has non-empty text" is only promised for the values modelled.
- Descriptor.StringifyId: a truthy id leaves truthy only for the modelled values; an array id such as `[]` would leave as the falsy `''`, which the model does not capture.
- Descriptor.NormalizeId: "the returned id is truthy exactly when the merged one is" holds for the modelled values only; `add({id: []})` would return `''`.
- Property enumeration order, and inherited enumerable properties: `for (key in obj)` visits the object's own keys, in an order the results here do not depend on.
- `setDefaults`, `add` and `addMulti` with an argument that is not an object (`undefined`, `null`, a primitive): the model always passes an object. In JavaScript, `undefined` and `null` throw a TypeError there: `setDefaults` when it reads `newDefaults[key]`, `add` when it reads `options[key]` in the merge, and `addMulti` when it reads `options.notifications`.
- Facade.LocalNotification.AddMulti: `notifications` is either absent or falsy (null), or an array of descriptors. A truthy non-array value is not modelled. The batch's elements are held as values, one per slot, and each is normalised as a fresh object. So it does not capture two slots that share one object, or a slot that holds the defaults object itself; in both cases JavaScript would see earlier changes in later turns. The dispatched batch argument carries only `notifications` and `cancelAll`; other keys of the batch object are not modelled.
