# mobx-loading-store, modelled in Dafny

`LoadingStore` tracks the status of asynchronous requests, one entry per
*request type*. A request type is a caller-chosen string or number. The
store keeps three plain objects keyed by request type:

- `loadingMap`: is an action of this type running?
- `errorMap`: the last failure, as `{ instance, code }`;
- `requestedMap`: has an attempt of this type completed?

It derives a few views from them. Per key there are `loading`, `error`,
`errorInstance`, `errorCode`, `requested`, `loaded` and `requestStatus`.
`anyX` aggregates over every stored entry, and `anyOfX` aggregates over a
given list of request types. The entry points `request` and
`requestUndefined` run one attempt of a caller's action:

1. A wait gate lets the call proceed once the key is no longer loading, or
   gives up after a timeout.
2. The key is marked loading.
3. The action runs, and its success or failure is recorded.

Two helpers sit beside the store:

- `getRecordEntries` lists an object's entries and turns each all-digit key
  back into a number.
- `isLoadingStoreRequestError` is a shape validator for the store's request
  errors.

The model has six modules:

- `JsValues` (`js_value.dfy`): the untyped JavaScript values that the code
  inspects, with `typeof`, truthiness and property reads.
- `Utils` (`utils.dfy`): `isRecord`, and the digit-key test with
  `Number(key)`. It also defines the property name (`PropKey`) under which a
  string or number request type is stored in a plain object, so `7` and
  `"7"` share one entry. It also has `getRecordEntries`.
- `Errors` (`error.dfy`): `RequestError`, the two exception classes as
  records, the objects they build, and `isLoadingStoreRequestError`.
- `Store` (`store.dfy`): the `LoadingStore` class.
  - Its three tables are `map<string, …>` fields keyed by property name.
  - Its views are functions that read the fields.
  - Its mutators and coordinator are methods. Each method's postcondition
    states the new tables in full.
- `StoreProperties` (`store_properties.dfy`): lemmas relating the
  aggregates to the per-key views.
- `Scenarios` (`scenarios.dfy`): store scenarios as verified assertions.

`scenarios.dfy` replays the repository's store tests on the model as
verified assertions. Two of its scenarios have no counterpart in
test/store.test.ts and are added here: `FailedRequestUndefined` and
`ResetOneAndAll`. A call that is still in flight while another arrives is
written out step by step: first "mark loading", then `onRequestSuccess`.

The coordinator's environment is passed in as inputs:

- `proceed`: the verdict of `waitForRequest`.
- `ActionOutcome`: how `action()` settled.
- `Callback`: whether `onSuccess` and `onError` are absent, return, or throw.

Each entry point returns a `Completion`, meaning it resolved or it rejected
with an `Exception`. It also returns the ordered trace of calls it made
into the caller's code.

Where the code and its tests disagree, the model follows the code:

- The tests (test/const.ts:3-30, test/store.test.ts:215-222) expect
  `loadedOnce` and `errorOnce` fields in the status. `lib/store.ts` neither
  stores nor computes them, so the model has no such fields.
- `code` is typed `number`, but a custom extractor can put any value
  there. The model keeps it as a JavaScript value, so
  `isLoadingStoreRequestError`'s `typeof … === 'number'` test can fail.

`requestAnyStatus` is modelled as written: its `loaded` is the as-written
`anyLoaded`. `RequestAnyStatusByKey` is the same aggregate with the
corrected `anyLoaded` (see Findings).

## Model

| member | source | states |
|---|---|---|
| `Utils.IsRecord` | lib/utils.ts:5-7 | a value is a record exactly when it is a non-array, non-null object |
| `Utils.RecordsAreNonArrayObjects` | lib/utils.ts:5-7 | `null`, arrays and primitives are not records; a plain object is |
| `Utils.IsDigitString` | lib/utils.ts:3 | `/^\d+$/`: non-empty and every character one of `0`…`9` |
| `Utils.EntryKey` | lib/utils.ts:15 | a property name becomes a (non-negative) number exactly when it is a digit string, and otherwise stays the same string |
| `Utils.PropKey` | lib/store.ts:78 | the property name `object[key]` uses: a string as it is, a non-negative number as a digit string without leading zero, a negative one as `-` and digits |
| `Utils.Decimal` | lib/utils.ts:15 | a number's decimal rendering (its property name) is a non-empty digit string with no leading zero |
| `Utils.DecimalRoundTrip` | lib/utils.ts:15 | `Number` of a number's decimal rendering is that number |
| `Utils.CanonicalDigitsRoundTrip` | lib/utils.ts:15 | a digit string without a leading zero is the decimal rendering of its value |
| `Utils.GetRecordEntries` | lib/utils.ts:9-17 | one pair per input entry, same order, values unchanged; a key becomes a number exactly when it matches `/^\d+$/` |
| `Utils.NumberKeyRoundTrip` | lib/utils.ts:15 | a non-negative number key comes back as the same number; a negative one comes back as its string "-…" |
| `Utils.EntryKeyNamesSameProperty` | lib/utils.ts:13-16 | a rewritten entry key names the original property exactly when the key is not a digit string with a leading zero |
| `Utils.OtherKeysStayStrings` | lib/utils.ts:3 | `""`, `"-1"`, `"1.5"` and `"a1"` stay strings; `"42"` becomes 42 and `"007"` becomes 7 |
| `Errors.WaitTimeoutErrorValue` | lib/error.ts:6-13 | the timeout error object carries the given message and `type`, and has no `error` |
| `Errors.RequestErrorObject` | lib/error.ts:15-25 | the request error object carries the given message, `type` and `error` unchanged |
| `Errors.RequestErrorValue` | lib/store.ts:19 | the `{ instance, code }` literal is a record holding exactly the given instance and code |
| `Errors.IsLoadingStoreRequestError` | lib/error.ts:27-31 | an accepted value is an object with a defined `type`, an object `error`, a numeric `code` and an instance that is not falsy |
| `Errors.NonRecordIsNotRequestError` | lib/error.ts:27-31 | `null`, arrays and primitives are rejected |
| `Errors.MissingTypeIsNotRequestError` | lib/error.ts:29 | a value whose `type` is undefined is rejected |
| `Errors.PlainErrorIsNotRequestError` | test/error.test.ts:5 | a plain `Error` is rejected |
| `Errors.MalformedErrorIsNotRequestError` | lib/error.ts:29 | a non-record `error`, a non-number `code` or a falsy `instance` is rejected |
| `Errors.WellFormedShapeIsRequestError` | lib/error.ts:27-31 | `{ type, error: { code: <number>, instance: <truthy> } }` is accepted, whatever else it carries |
| `Errors.ValidatorExamples` | test/error.test.ts:4-12 | the test's three values are classified as the test expects |
| `Errors.ThrownRequestErrorRecognised` | lib/error.ts:27-31 | the store's own request error is accepted exactly when its code is a number and its instance is truthy |
| `Errors.WaitTimeoutIsNotRequestError` | lib/error.ts:6-13 | a timeout error is never accepted as a request error |
| `Store.DefaultRequestErrorExtractor` | lib/store.ts:16-22 | yields `{ instance: data, code: status }` of the response exactly for an HTTP client error with a truthy response, else nothing |
| `Store.TimedOutMessage` | lib/store.ts:197 | the timeout message is `Request "`, the request type's property name, then `" is timed out` |
| `Store.FailedMessage` | lib/store.ts:207 | the failure message is `Request "`, the request type's property name, then `" failed` |
| `Store.RejectionMessages` | test/store.test.ts:106 | for `"request"` the messages are exactly the strings test/store.test.ts:106 and :214 expect; the number 7 is quoted as `7` |
| `Store.CaughtValue` | lib/store.ts:199-207 | control reaches `catch` exactly when the action rejects, with its reason, or when `onSuccess` throws, with that value |
| `Store.LoadingStore.constructor` | lib/store.ts:37-41 | all tables start empty; the extractor is the given one, or else the default |
| `Store.LoadingStore.Loading` | lib/store.ts:93-95 | a loading request type makes `anyLoading` true |
| `Store.LoadingStore.Error` | lib/store.ts:105-107 | a failed request type makes `anyError` true |
| `Store.LoadingStore.ErrorInstance` | lib/store.ts:109-111 | reads `undefined` for a request type without an error |
| `Store.LoadingStore.ErrorCode` | lib/store.ts:113-115 | reads `undefined` for a request type without an error |
| `Store.LoadingStore.Requested` | lib/store.ts:125-127 | a requested request type makes `anyRequested` true |
| `Store.LoadingStore.Loaded` | lib/store.ts:137-142 | a loaded request type makes the corrected `anyLoaded` true |
| `Store.LoadingStore.AnyLoading` | lib/store.ts:97-99 | true exactly when some stored entry holds `true` |
| `Store.LoadingStore.AnyError` | lib/store.ts:117-119 | true exactly when the error table has an entry |
| `Store.LoadingStore.AnyRequested` | lib/store.ts:129-131 | true exactly when some stored entry holds `true` |
| `Store.LoadingStore.AnyOfLoaded` | lib/store.ts:150-152 | a loaded list contains some loaded request type |
| `Store.LoadingStore.ErrorFromThrown` | lib/store.ts:205 | the extractor's error when it yields one, otherwise `{ instance: e, code: -1 }` |
| `Store.AsList` | lib/store.ts:57 | a single request type becomes a one-element list, so only an empty list selects every entry |
| `Store.LoadingStore.GetRequestStatus` | lib/store.ts:154-160 | `loaded` is exactly requested, not loading and no error; a set flag has a table entry |
| `Store.LoadingStore.AnyOfLoading` | lib/store.ts:101-103 | true exactly when some listed request type is loading |
| `Store.LoadingStore.AnyOfError` | lib/store.ts:121-123 | true exactly when some listed request type has an error |
| `Store.LoadingStore.AnyOfRequested` | lib/store.ts:133-135 | true exactly when some listed request type is requested |
| `Store.LoadingStore.RequestAnyOfStatus` | lib/store.ts:171-178 | a loaded list is requested, not loading and without error |
| `Store.LoadingStore.AnyLoaded` | lib/store.ts:144-148 | as written: reads each requested entry's status under its rewritten key; implies `anyRequested` |
| `Store.LoadingStore.AnyLoadedByKey` | lib/store.ts:144-148 | corrected `anyLoaded`: reads each requested entry's status under its own property name; implies `anyRequested` |
| `Store.LoadingStore.RequestAnyStatus` | lib/store.ts:162-169 | the aggregate status, with `loaded` being the as-written `anyLoaded`; `loaded` implies `requested`; with an empty requested table neither is set |
| `Store.LoadingStore.RequestAnyStatusByKey` | lib/store.ts:162-169 | the aggregate status with the corrected `anyLoaded`: `loaded` holds exactly when some stored request type is loaded |
| `Store.LoadingStore.SetLoading` | lib/store.ts:77-79 | only the key's loading entry changes, to the given flag; the other tables and keys are unchanged |
| `Store.LoadingStore.SetError` | lib/store.ts:81-87 | `undefined` deletes the entry, so there is no error and `errorInstance`/`errorCode` read undefined; otherwise they read the stored instance and code; other keys are unchanged |
| `Store.LoadingStore.SetRequested` | lib/store.ts:89-91 | only the key's requested entry changes, to the given flag; other keys are unchanged |
| `Store.LoadingStore.ResetOne` | lib/store.ts:63-73 | deletes the key's entries that are truthy, and only those |
| `Store.LoadingStore.ResetRequestStatus` | lib/store.ts:56-75 | an empty list empties every table, so every view and aggregate is false; otherwise the listed keys read as untouched and every other key keeps its status |
| `Store.LoadingStore.AttemptOf` | lib/store.ts:199-207 | success exactly when nothing is caught; otherwise the error is `requestErrorExtractor(e)` or `{ instance: e, code: -1 }`, and `onError` throwing is the third outcome |
| `Store.LoadingStore.OnRequestSuccess` | lib/store.ts:233-244 | the key becomes requested, not loading and without error, so it is loaded; `onSuccess` is called with the response |
| `Store.LoadingStore.OnRequestError` | lib/store.ts:246-253 | the key becomes requested, not loading and failed with the given error; `onError` is called with it |
| `Store.LoadingStore.RunAttempt` | lib/store.ts:199-207 | the action is called once; the key is left requested and not loading; it is loaded on success, and on failure it holds the error; other keys are unchanged |
| `Store.LoadingStore.RecordFailure` | lib/store.ts:204-206 | the stored and reported error is `ErrorFromThrown` of the caught value; the key is requested, not loading and holds that error; `onError` is called with it, and its throw is reported |
| `Store.LoadingStore.Settle` | lib/store.ts:201-207 | the action is called, then `onSuccess` on resolution, then `onError` on a caught value; the key ends requested and not loading, with its error entry being the attempt's error or gone |
| `Store.LoadingStore.Request` | lib/store.ts:189-209 | on timeout: rejects with a timeout error carrying the key, calls nothing, changes nothing; otherwise: as `RunAttempt`, returning the response or rejecting with a request error carrying the key and the stored error |
| `Store.LoadingStore.RequestUndefined` | lib/store.ts:211-231 | the same state changes and calls as `Request`; a failure resolves with `undefined` instead of rejecting |
| `StoreProperties.UntouchedKeyReadsInitial` | lib/store.ts:93-142 | a key with no entries reads not loading, no error, not requested and not loaded, with undefined instance and code |
| `StoreProperties.EmptyStoreReadsInitial` | lib/store.ts:154-178 | with empty tables every key and aggregate status is all false |
| `StoreProperties.SamePropertySameStatus` | lib/store.ts:93-127 | request types with the same property name read the same status |
| `StoreProperties.NumberAndDigitStringShareStatus` | lib/store.ts:93-127 | 7 and `"7"` read the same status |
| `StoreProperties.AnyLoadingIffSomeKeyLoading` | lib/store.ts:97-99 | `anyLoading` holds exactly when some request type is loading |
| `StoreProperties.AnyErrorIffSomeKeyFailed` | lib/store.ts:117-119 | `anyError` holds exactly when some request type has an error |
| `StoreProperties.AnyRequestedIffSomeKeyRequested` | lib/store.ts:129-131 | `anyRequested` holds exactly when some request type is requested |
| `StoreProperties.AnyLoadedByKeyIffSomeKeyLoaded` | lib/store.ts:144-148 | the corrected `anyLoaded` holds exactly when some request type is loaded |
| `StoreProperties.RequestAnyStatusByKeyIffSomeKeyLoaded` | lib/store.ts:162-169 | the corrected aggregate status is loaded exactly when some request type is loaded |
| `StoreProperties.AnyLoadedMisreadsLeadingZeroKey` | lib/store.ts:144-148 | as written, a requested and still loading `"007"` makes `anyLoaded` and `requestAnyStatus.loaded` true although no request type is loaded |
| `StoreProperties.AnyLoadedMissesLeadingZeroKey` | lib/store.ts:144-148 | as written, a loaded `"007"` whose misread property `"7"` is loading makes `anyLoaded` and `requestAnyStatus.loaded` false |
| `StoreProperties.AnyLoadedAgreesWithoutLeadingZeros` | lib/store.ts:144-148 | as-written and corrected `anyLoaded` agree when no requested key has a leading zero |
| `StoreProperties.AnyLoadedOverRecordEntries` | lib/store.ts:145-147 | `anyLoaded` is the `some` over `getRecordEntries` of any listing of the requested table |
| `StoreProperties.AnyOfSingleton` | lib/store.ts:101-178 | a one-element list reads exactly that key's status |
| `StoreProperties.AnyOfLoadedMeaning` | lib/store.ts:150-152 | `anyOfLoaded` holds exactly when some listed key is loaded and no listed key is loading or failed |
| `StoreProperties.AnyOfLoadedIsNotSomeLoaded` | lib/store.ts:150-152 | a loaded key listed beside a loading one does not make the list loaded |
| `StoreProperties.AnyOfReadsOnlyListedKeys` | lib/store.ts:171-178 | two stores that agree on the listed keys agree on the list aggregates |
| `StoreProperties.DefaultExtractorFallback` | lib/store.ts:205 | with the default extractor, an unrecognised failure is recorded as `{ instance: e, code: -1 }` |
| `StoreProperties.DefaultExtractorResponse` | lib/store.ts:17-19 | with the default extractor, an HTTP client error is recorded as its response's data and status |
| `StoreProperties.FalsyCauseNotRecognised` | lib/store.ts:204-207 | a failure with an unrecognised falsy cause is thrown as a request error that the validator rejects |

## Findings

| source | as written | input that shows it | evidently intended | confidence | as-written member | corrected member |
|---|---|---|---|---|---|---|
| lib/store.ts:144-148 | `anyLoaded` reads `loading` and `error` under the key that `getRecordEntries` reports. An all-digit string key with a leading zero comes back as a number, and that number names another property. | String request type `"007"`, requested and still loading: the key is reported as 7, property `"7"` has no entries, so `anyLoaded` is true while no request type is loaded. Conversely, `"007"` requested with `"7"` loading: `"007"` is loaded, but `anyLoaded` reads `"7"` and is false. | `anyLoaded` is true exactly when some request type is loaded. | not executed; medium | `StoreProperties.AnyLoadedMisreadsLeadingZeroKey` and `StoreProperties.AnyLoadedMissesLeadingZeroKey` about `Store.LoadingStore.AnyLoaded` and `Store.LoadingStore.RequestAnyStatus` | `Store.LoadingStore.AnyLoadedByKey` and `Store.LoadingStore.RequestAnyStatusByKey`, with `StoreProperties.AnyLoadedByKeyIffSomeKeyLoaded` and `StoreProperties.RequestAnyStatusByKeyIffSomeKeyLoaded` |

## Left out

- MobX reactivity (`@observable`, `@computed`, `computedFn`, `makeObservable`, `when`) is left out. The views are plain functions of the current tables.
- `waitForRequest` (lib/store.ts:180-187) is not modelled. Its timers and promises are concurrency, so its verdict is the input `proceed`. The `waitTimeout` option and its default of 30000 ms only configure that timer.
- Interleaving is not modelled: each entry point runs as one step, and writes by other tasks while the action is pending are not captured. The scenarios build overlapping calls from the public mutators instead.
- Wait timeouts do not cancel the attempt that is in flight. The model has no such attempt to affect.
- The action and the callbacks are foreign code. They appear only as their outcome, plus an entry in the returned call trace. Callback return values are ignored, as in the source.
- `isAxiosError` is imported by lib/store.ts:14 from `./utils`, but lib/utils.ts does not define it, so the model takes it as a constructor parameter.
- A custom extractor that throws is left out. An extractor result that is falsy but not `undefined` is treated as "nothing".
- `init`, `whenInitialized` and `dispose` (lib/store.ts:43-54) are left out. They are a lifecycle flag and a MobX wait.
- `loadedOnce` and `errorOnce`, and their sticky behaviour, are left out. Only the tests mention them; the code has no such fields.
- Property lookups that reach `Object.prototype` are left out. For example, `errorMap["toString"]` is truthy in JavaScript. The model's tables hold only own entries.
- `setError` with `null` is left out; the type forbids it.
- Number keys are integers. Non-integer and exponent-form numbers, and the precision loss of `Number` on long digit strings, are floating-point behaviour.
- `Object.entries` order is left out: the aggregates do not depend on it, and `StoreProperties.AnyLoadedOverRecordEntries` holds for any listing.
- JavaScript values do not include `BigInt`, `Symbol` or the infinities. `Error` objects keep only their `message`, not `name` or `stack`.
