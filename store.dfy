/**
 * `LoadingStore`: the per-request-type status table (three plain objects
 * mapping a request type to its loading flag, its last error and its
 * requested flag), its derived views, and the `request` /
 * `requestUndefined` coordinator that drives one attempt of an action.
 *
 * Request types are strings or numbers; like every key of a plain
 * JavaScript object they are stored under their property name
 * (`Utils.PropKey`), so `"7"` and `7` name the same entry.
 */
module Store {
  import opened JsValues
  import opened Utils
  import opened Errors

  datatype Option<T> = None | Some(value: T)

  /** `RequestStatus`: the four booleans of one request type or aggregate. */
  datatype RequestStatus = RequestStatus(loading: bool, error: bool, requested: bool, loaded: bool)

  /** The status of a request type nobody has touched. */
  const InitialRequestStatus := RequestStatus(false, false, false, false)

  /** The argument of `resetRequestStatus`: one request type or a list. */
  datatype RequestTypes = Single(requestType: RecordEntryKey) | List(requestTypes: seq<RecordEntryKey>)

  /** `Array.isArray(requestTypes) ? requestTypes : [requestTypes]` */
  function AsList(requestTypes: RequestTypes): (r: seq<RecordEntryKey>)
    ensures r == [] <==> requestTypes == List([])
    ensures requestTypes.Single? ==> r == [requestTypes.requestType]
  {
    match requestTypes
    case Single(k) => [k]
    case List(ks) => ks
  }

  /** The property names a list of request types is stored under. */
  function PropKeys(ks: seq<RecordEntryKey>): set<string> {
    set k | k in ks :: PropKey(k)
  }

  /** `m` after `if (m[name]) delete m[name]` for every name in `names`:
      only entries holding `true` go. */
  function DropTruthy(m: map<string, bool>, names: set<string>): map<string, bool> {
    map s | s in m && !(s in names && m[s]) :: m[s]
  }

  /** The error table after `setError(name, error)`. */
  function WithError(m: map<string, RequestError>, name: string, error: Option<RequestError>): map<string, RequestError> {
    match error
    case None => m - {name}
    case Some(e) => m[name := e]
  }

  // ---------------------------------------------------------------------
  // The coordinator's environment: the action and the callbacks

  /** How the caller's `action()` settled. */
  datatype ActionOutcome<R> = Resolved(response: R) | Rejected(reason: JsValue)

  /** An optional `onSuccess` / `onError` callback, by what it does when
      called. */
  datatype Callback = NoCallback | Returns | Throws(thrown: JsValue)

  /** A call the coordinator makes into the caller's code. */
  datatype Invocation<R> = ActionCalled | OnSuccessCalled(response: R) | OnErrorCalled(error: RequestError)

  /** What `request` or `requestUndefined` rejects with. */
  datatype Exception =
    | TimedOut(timeout: WaitTimeoutError)
    | RequestFailed(failure: LoadingStoreRequestError)
    | CallbackThrew(value: JsValue)

  /** How an entry point settles: it resolves with a value or rejects. */
  datatype Completion<T> = Returned(value: T) | Threw(exception: Exception)

  /** How the part of an attempt after the wait gate ends. */
  datatype Attempt<R> =
    | Succeeded(response: R)
    | Failed(error: RequestError)
    | OnErrorThrew(error: RequestError, thrown: JsValue)
  {
    /** The error the attempt leaves in the table, if any. */
    function StoredError(): Option<RequestError> {
      if Succeeded? then None else Some(error)
    }
  }

  /** The value the `catch` clause receives, if control gets there: the
      action's rejection reason, or what `onSuccess` threw, since
      `onRequestSuccess` runs inside the `try`. */
  function CaughtValue<R>(outcome: ActionOutcome<R>, onSuccess: Callback): (caught: Option<JsValue>)
    ensures caught.None? <==> outcome.Resolved? && !onSuccess.Throws?
    ensures outcome.Rejected? ==> caught == Some(outcome.reason)
    ensures outcome.Resolved? && onSuccess.Throws? ==> caught == Some(onSuccess.thrown)
  {
    match outcome
    case Rejected(reason) => Some(reason)
    case Resolved(_) => if onSuccess.Throws? then Some(onSuccess.thrown) else None
  }

  /** The invocation a callback gives rise to: none when it is absent. */
  function IfPresent<R>(callback: Callback, invocation: Invocation<R>): seq<Invocation<R>> {
    if callback.NoCallback? then [] else [invocation]
  }

  /** The message of the wait-timeout rejection: the template literal
      quotes the request type's string form. */
  function TimedOutMessage(requestType: RecordEntryKey): (message: string)
    ensures |message| == |PropKey(requestType)| + 23
    ensures message[..9] == "Request \"" && message[|message| - 14..] == "\" is timed out"
    ensures message[9..|message| - 14] == PropKey(requestType)
  {
    "Request \"" + PropKey(requestType) + "\" is timed out"
  }

  /** The message of the failed-request rejection. */
  function FailedMessage(requestType: RecordEntryKey): (message: string)
    ensures |message| == |PropKey(requestType)| + 17
    ensures message[..9] == "Request \"" && message[|message| - 8..] == "\" failed"
    ensures message[9..|message| - 8] == PropKey(requestType)
  {
    "Request \"" + PropKey(requestType) + "\" failed"
  }

  /** The messages the store's tests expect, and those of a number key. */
  lemma RejectionMessages()
    ensures FailedMessage(StrKey("request")) == "Request \"request\" failed"
    ensures TimedOutMessage(StrKey("request")) == "Request \"request\" is timed out"
    ensures FailedMessage(NumKey(7)) == "Request \"7\" failed"
  {
    assert PropKey(NumKey(7)) == "7";
  }

  /** `defaultRequestErrorExtractor`: an HTTP client error carrying a
      response becomes `{ instance: data, code: status }`; anything else
      yields nothing. The recognition test `isAxiosError` belongs to the
      HTTP client and is a parameter here. */
  function DefaultRequestErrorExtractor(isAxiosError: JsValue -> bool, e: JsValue): (r: Option<RequestError>)
    ensures r.Some? <==> isAxiosError(e) && Truthy(Get(e, "response"))
    ensures r.Some? ==> r.value.instance == Get(Get(e, "response"), "data")
    ensures r.Some? ==> r.value.code == Get(Get(e, "response"), "status")
  {
    if isAxiosError(e) && Truthy(Get(e, "response")) then
      var response := Get(e, "response");
      Some(RequestError(Get(response, "data"), Get(response, "status")))
    else
      None
  }

  /** `LoadingStoreOptions`. */
  datatype LoadingStoreOptions = LoadingStoreOptions(requestErrorExtractor: Option<JsValue -> Option<RequestError>>)

  class LoadingStore {
    const requestErrorExtractor: JsValue -> Option<RequestError>
    var loadingMap: map<string, bool>
    var errorMap: map<string, RequestError>
    var requestedMap: map<string, bool>

    /** A fresh store: all three tables empty, the extractor the one given
        or else the default one. */
    constructor (options: LoadingStoreOptions, isAxiosError: JsValue -> bool)
      ensures loadingMap == map[] && errorMap == map[] && requestedMap == map[]
      ensures options.requestErrorExtractor.Some? ==>
        forall e :: requestErrorExtractor(e) == options.requestErrorExtractor.value(e)
      ensures options.requestErrorExtractor.None? ==>
        forall e :: requestErrorExtractor(e) == DefaultRequestErrorExtractor(isAxiosError, e)
    {
      loadingMap, errorMap, requestedMap := map[], map[], map[];
      match options.requestErrorExtractor
      case Some(f) =>
        requestErrorExtractor := f;
      case None =>
        requestErrorExtractor := e => DefaultRequestErrorExtractor(isAxiosError, e);
    }

    // -------------------------------------------------------------------
    // Per-key views

    /** `loadingMap[requestType] === true` */
    predicate Loading(requestType: RecordEntryKey)
      reads this
      ensures Loading(requestType) ==> AnyLoading()
    {
      PropKey(requestType) in loadingMap && loadingMap[PropKey(requestType)]
    }

    /** `!!errorMap[requestType]`; a stored `RequestError` is an object
        and therefore truthy. */
    predicate Error(requestType: RecordEntryKey)
      reads this
      ensures Error(requestType) ==> AnyError()
    {
      PropKey(requestType) in errorMap
    }

    /** `errorMap[requestType]?.instance` */
    function ErrorInstance(requestType: RecordEntryKey): (instance: JsValue)
      reads this
      ensures !Error(requestType) ==> instance == Undefined
    {
      if PropKey(requestType) in errorMap then errorMap[PropKey(requestType)].instance else Undefined
    }

    /** `errorMap[requestType]?.code` */
    function ErrorCode(requestType: RecordEntryKey): (code: JsValue)
      reads this
      ensures !Error(requestType) ==> code == Undefined
    {
      if PropKey(requestType) in errorMap then errorMap[PropKey(requestType)].code else Undefined
    }

    /** `requestedMap[requestType] === true` */
    predicate Requested(requestType: RecordEntryKey)
      reads this
      ensures Requested(requestType) ==> AnyRequested()
    {
      PropKey(requestType) in requestedMap && requestedMap[PropKey(requestType)]
    }

    /** `requested && !loading && !error` */
    predicate Loaded(requestType: RecordEntryKey)
      reads this
      ensures Loaded(requestType) ==> AnyLoadedByKey()
    {
      Requested(requestType) && !Loading(requestType) && !Error(requestType)
    }

    function GetRequestStatus(requestType: RecordEntryKey): (status: RequestStatus)
      reads this
      ensures status.loaded <==> status.requested && !status.loading && !status.error
      ensures status.requested ==> PropKey(requestType) in requestedMap
      ensures status.loading ==> PropKey(requestType) in loadingMap
    {
      RequestStatus(Loading(requestType), Error(requestType), Requested(requestType), Loaded(requestType))
    }

    // -------------------------------------------------------------------
    // Aggregates over every stored entry

    /** `Object.values(loadingMap).includes(true)` */
    predicate AnyLoading()
      reads this
      ensures AnyLoading() <==> exists s :: s in loadingMap && loadingMap[s]
    {
      true in loadingMap.Values
    }

    /** `!!Object.values(errorMap).find((error) => !!error)`; every stored
        error is truthy. */
    predicate AnyError()
      reads this
      ensures AnyError() <==> errorMap != map[]
    {
      errorMap.Values != {}
    }

    /** `Object.values(requestedMap).includes(true)` */
    predicate AnyRequested()
      reads this
      ensures AnyRequested() <==> exists s :: s in requestedMap && requestedMap[s]
    {
      true in requestedMap.Values
    }

    /** `anyLoaded` as written: over `getRecordEntries(requestedMap)`, a
        requested entry whose rewritten key `EntryKey(s)` reads neither
        loading nor failed. The rewritten key can name a different
        property than `s` (see `AnyLoadedByKey`). */
    predicate AnyLoaded()
      reads this
      ensures AnyLoaded() ==> AnyRequested()
    {
      exists s :: s in requestedMap && requestedMap[s] && !Loading(EntryKey(s)) && !Error(EntryKey(s))
    }

    /** `anyLoaded` with each entry's status read under the entry's own
        property name: some stored request type is loaded. */
    predicate AnyLoadedByKey()
      reads this
      ensures AnyLoadedByKey() ==> AnyRequested()
    {
      exists s :: s in requestedMap && requestedMap[s] && !Loading(StrKey(s)) && !Error(StrKey(s))
    }

    /** `requestAnyStatus` as written: its `loaded` is `anyLoaded`. */
    function RequestAnyStatus(): (status: RequestStatus)
      reads this
      ensures status.loaded ==> status.requested
      ensures requestedMap == map[] ==> !status.requested && !status.loaded
    {
      RequestStatus(AnyLoading(), AnyError(), AnyRequested(), AnyLoaded())
    }

    /** `requestAnyStatus` with the corrected `anyLoaded`: its `loaded` holds
        exactly when some request type is loaded. */
    function RequestAnyStatusByKey(): (status: RequestStatus)
      reads this
      ensures status.loaded <==> exists s :: s in requestedMap && Loaded(StrKey(s))
      ensures status.loaded ==> status.requested
    {
      RequestStatus(AnyLoading(), AnyError(), AnyRequested(), AnyLoadedByKey())
    }

    // -------------------------------------------------------------------
    // Aggregates over a given list of request types: `requestTypes.some(…)`

    predicate AnyOfLoading(requestTypes: seq<RecordEntryKey>)
      reads this
      ensures AnyOfLoading(requestTypes) <==> exists i :: 0 <= i < |requestTypes| && Loading(requestTypes[i])
    {
      requestTypes != [] && (Loading(requestTypes[0]) || AnyOfLoading(requestTypes[1..]))
    }

    predicate AnyOfError(requestTypes: seq<RecordEntryKey>)
      reads this
      ensures AnyOfError(requestTypes) <==> exists i :: 0 <= i < |requestTypes| && Error(requestTypes[i])
    {
      requestTypes != [] && (Error(requestTypes[0]) || AnyOfError(requestTypes[1..]))
    }

    predicate AnyOfRequested(requestTypes: seq<RecordEntryKey>)
      reads this
      ensures AnyOfRequested(requestTypes) <==> exists i :: 0 <= i < |requestTypes| && Requested(requestTypes[i])
    {
      requestTypes != [] && (Requested(requestTypes[0]) || AnyOfRequested(requestTypes[1..]))
    }

    /** `anyOfRequested && !anyOfLoading && !anyOfError`: a conjunction of
        the three list aggregates, not a `some` over `loaded`. */
    predicate AnyOfLoaded(requestTypes: seq<RecordEntryKey>)
      reads this
      ensures AnyOfLoaded(requestTypes) ==> exists i :: 0 <= i < |requestTypes| && Loaded(requestTypes[i])
    {
      AnyOfRequested(requestTypes) && !AnyOfLoading(requestTypes) && !AnyOfError(requestTypes)
    }

    function RequestAnyOfStatus(requestTypes: seq<RecordEntryKey>): (status: RequestStatus)
      reads this
      ensures status.loaded ==> status.requested && !status.loading && !status.error
    {
      RequestStatus(AnyOfLoading(requestTypes), AnyOfError(requestTypes),
                    AnyOfRequested(requestTypes), AnyOfLoaded(requestTypes))
    }

    // -------------------------------------------------------------------
    // Mutators

    method SetLoading(requestType: RecordEntryKey, loading: bool)
      modifies this
      ensures loadingMap == old(loadingMap)[PropKey(requestType) := loading]
      ensures errorMap == old(errorMap) && requestedMap == old(requestedMap)
      ensures Loading(requestType) == loading
      ensures forall k :: PropKey(k) != PropKey(requestType) ==> Loading(k) == old(Loading(k))
    {
      loadingMap := loadingMap[PropKey(requestType) := loading];
    }

    method SetError(requestType: RecordEntryKey, error: Option<RequestError>)
      modifies this
      ensures errorMap == WithError(old(errorMap), PropKey(requestType), error)
      ensures loadingMap == old(loadingMap) && requestedMap == old(requestedMap)
      ensures error.None? ==> !Error(requestType) && ErrorInstance(requestType) == Undefined && ErrorCode(requestType) == Undefined
      ensures error.Some? ==> Error(requestType) && ErrorInstance(requestType) == error.value.instance && ErrorCode(requestType) == error.value.code
      ensures forall k :: PropKey(k) != PropKey(requestType) ==>
        Error(k) == old(Error(k)) && ErrorInstance(k) == old(ErrorInstance(k)) && ErrorCode(k) == old(ErrorCode(k))
    {
      if error.None? {
        errorMap := errorMap - {PropKey(requestType)};
      } else {
        errorMap := errorMap[PropKey(requestType) := error.value];
      }
    }

    method SetRequested(requestType: RecordEntryKey, requested: bool)
      modifies this
      ensures requestedMap == old(requestedMap)[PropKey(requestType) := requested]
      ensures loadingMap == old(loadingMap) && errorMap == old(errorMap)
      ensures Requested(requestType) == requested
      ensures forall k :: PropKey(k) != PropKey(requestType) ==> Requested(k) == old(Requested(k))
    {
      requestedMap := requestedMap[PropKey(requestType) := requested];
    }

    /** With no request type (an empty list), empties all three tables;
        otherwise deletes, for each listed request type, the entries that
        are truthy. */
    method ResetRequestStatus(requestTypes: RequestTypes)
      modifies this
      ensures AsList(requestTypes) == [] ==>
        loadingMap == map[] && errorMap == map[] && requestedMap == map[]
      ensures AsList(requestTypes) != [] ==>
        var names := PropKeys(AsList(requestTypes));
        && loadingMap == DropTruthy(old(loadingMap), names)
        && errorMap == old(errorMap) - names
        && requestedMap == DropTruthy(old(requestedMap), names)
      ensures AsList(requestTypes) == [] ==> RequestAnyStatus() == InitialRequestStatus
      ensures forall k :: AsList(requestTypes) == [] || PropKey(k) in PropKeys(AsList(requestTypes)) ==>
        GetRequestStatus(k) == InitialRequestStatus && ErrorInstance(k) == Undefined && ErrorCode(k) == Undefined
      ensures forall k :: AsList(requestTypes) != [] && PropKey(k) !in PropKeys(AsList(requestTypes)) ==>
        GetRequestStatus(k) == old(GetRequestStatus(k)) && ErrorInstance(k) == old(ErrorInstance(k))
        && ErrorCode(k) == old(ErrorCode(k))
    {
      var reqTypes := AsList(requestTypes);
      if |reqTypes| == 0 {
        loadingMap, errorMap, requestedMap := map[], map[], map[];
        return;
      }
      var i := 0;
      while i < |reqTypes|
        invariant 0 <= i <= |reqTypes|
        invariant loadingMap == DropTruthy(old(loadingMap), PropKeys(reqTypes[..i]))
        invariant errorMap == old(errorMap) - PropKeys(reqTypes[..i])
        invariant requestedMap == DropTruthy(old(requestedMap), PropKeys(reqTypes[..i]))
      {
        PropKeysSnoc(reqTypes, i);
        DropTruthyStep(old(loadingMap), PropKeys(reqTypes[..i]), PropKey(reqTypes[i]));
        DropTruthyStep(old(requestedMap), PropKeys(reqTypes[..i]), PropKey(reqTypes[i]));
        ResetOne(reqTypes[i]);
        i := i + 1;
      }
      assert reqTypes[..i] == reqTypes;
    }

    /** The `forEach` callback of `resetRequestStatus`: deletes each of the
        request type's entries that is truthy. */
    method ResetOne(requestType: RecordEntryKey)
      modifies this
      ensures loadingMap == DropTruthy(old(loadingMap), {PropKey(requestType)})
      ensures errorMap == old(errorMap) - {PropKey(requestType)}
      ensures requestedMap == DropTruthy(old(requestedMap), {PropKey(requestType)})
    {
      var name := PropKey(requestType);
      if name in loadingMap && loadingMap[name] {
        loadingMap := loadingMap - {name};
      }
      if name in errorMap {
        errorMap := errorMap - {name};
      }
      if name in requestedMap && requestedMap[name] {
        requestedMap := requestedMap - {name};
      }
    }

    // -------------------------------------------------------------------
    // The coordinator

    /** The error recorded for a thrown value:
        `requestErrorExtractor(e) || { instance: e, code: -1 }`. */
    function ErrorFromThrown(e: JsValue): (error: RequestError)
      ensures requestErrorExtractor(e).Some? ==> error == requestErrorExtractor(e).value
      ensures requestErrorExtractor(e).None? ==> error.instance == e && error.code == Num(-1.0)
    {
      match requestErrorExtractor(e)
      case Some(error) => error
      case None => RequestError(e, Num(-1.0))
    }

    /** How an attempt that passed the wait gate ends. */
    function AttemptOf<R>(outcome: ActionOutcome<R>, onSuccess: Callback, onError: Callback): (a: Attempt<R>)
      ensures a.Succeeded? <==> CaughtValue(outcome, onSuccess).None?
      ensures a.Succeeded? ==> outcome == Resolved(a.response)
      ensures !a.Succeeded? ==> a.error == ErrorFromThrown(CaughtValue(outcome, onSuccess).value)
      ensures a.OnErrorThrew? <==> !a.Succeeded? && onError.Throws?
    {
      match CaughtValue(outcome, onSuccess)
      case None => Succeeded(outcome.response)
      case Some(e) =>
        var error := ErrorFromThrown(e);
        if onError.Throws? then OnErrorThrew(error, onError.thrown) else Failed(error)
    }

    /** The calls into the caller's code an attempt makes, in order. */
    function TraceOf<R>(outcome: ActionOutcome<R>, onSuccess: Callback, onError: Callback): seq<Invocation<R>> {
      [ActionCalled]
      + (if outcome.Resolved? then IfPresent(onSuccess, OnSuccessCalled(outcome.response)) else [])
      + (match AttemptOf(outcome, onSuccess, onError)
         case Succeeded(_) => []
         case Failed(error) => IfPresent(onError, OnErrorCalled(error))
         case OnErrorThrew(error, _) => IfPresent(onError, OnErrorCalled(error)))
    }

    /** The tables after an attempt that passed the wait gate: the request
        type is requested and not loading, and its error entry is the
        attempt's error or gone. */
    twostate predicate Recorded<R>(requestType: RecordEntryKey, attempt: Attempt<R>)
      reads this
    {
      && requestedMap == old(requestedMap)[PropKey(requestType) := true]
      && loadingMap == old(loadingMap)[PropKey(requestType) := false]
      && errorMap == WithError(old(errorMap), PropKey(requestType), attempt.StoredError())
    }

    /** `onRequestSuccess`: marks the request type requested, not loading
        and without error, then calls `onSuccess`. */
    method OnRequestSuccess<R>(requestType: RecordEntryKey, response: R, onSuccess: Callback)
      returns (calls: seq<Invocation<R>>, thrown: Option<JsValue>)
      modifies this
      ensures requestedMap == old(requestedMap)[PropKey(requestType) := true]
      ensures loadingMap == old(loadingMap)[PropKey(requestType) := false]
      ensures errorMap == old(errorMap) - {PropKey(requestType)}
      ensures Loaded(requestType)
      ensures calls == IfPresent(onSuccess, OnSuccessCalled(response))
      ensures thrown == if onSuccess.Throws? then Some(onSuccess.thrown) else None
    {
      SetRequested(requestType, true);
      SetLoading(requestType, false);
      SetError(requestType, None);
      calls := IfPresent(onSuccess, OnSuccessCalled(response));
      thrown := if onSuccess.Throws? then Some(onSuccess.thrown) else None;
    }

    /** `onRequestError`: marks the request type requested and not loading,
        stores the error, then calls `onError`. */
    method OnRequestError<R>(requestType: RecordEntryKey, error: RequestError, onError: Callback)
      returns (calls: seq<Invocation<R>>, thrown: Option<JsValue>)
      modifies this
      ensures requestedMap == old(requestedMap)[PropKey(requestType) := true]
      ensures loadingMap == old(loadingMap)[PropKey(requestType) := false]
      ensures errorMap == old(errorMap)[PropKey(requestType) := error]
      ensures Requested(requestType) && !Loading(requestType) && Error(requestType) && !Loaded(requestType)
      ensures ErrorInstance(requestType) == error.instance && ErrorCode(requestType) == error.code
      ensures calls == IfPresent(onError, OnErrorCalled(error))
      ensures thrown == if onError.Throws? then Some(onError.thrown) else None
    {
      SetRequested(requestType, true);
      SetLoading(requestType, false);
      SetError(requestType, Some(error));
      calls := IfPresent(onError, OnErrorCalled(error));
      thrown := if onError.Throws? then Some(onError.thrown) else None;
    }

    /** The part of `request` and `requestUndefined` after the wait gate:
        mark loading, then run the action and record its outcome. */
    method RunAttempt<R>(requestType: RecordEntryKey, outcome: ActionOutcome<R>, onSuccess: Callback, onError: Callback)
      returns (attempt: Attempt<R>, calls: seq<Invocation<R>>)
      modifies this
      ensures attempt == AttemptOf(outcome, onSuccess, onError)
      ensures calls == TraceOf(outcome, onSuccess, onError)
      ensures Recorded(requestType, attempt)
      ensures Requested(requestType) && !Loading(requestType)
      ensures Loaded(requestType) <==> attempt.Succeeded?
      ensures Error(requestType) <==> !attempt.Succeeded?
      ensures !attempt.Succeeded? ==>
        ErrorInstance(requestType) == attempt.error.instance && ErrorCode(requestType) == attempt.error.code
      ensures forall k :: PropKey(k) != PropKey(requestType) ==>
        GetRequestStatus(k) == old(GetRequestStatus(k)) && ErrorInstance(k) == old(ErrorInstance(k))
        && ErrorCode(k) == old(ErrorCode(k))
    {
      SetLoading(requestType, true);
      attempt, calls := Settle(requestType, outcome, onSuccess, onError);
    }

    /** The `try`/`catch` of `request` and `requestUndefined`: run the
        action, then `onRequestSuccess`, and on a caught value
        `onRequestError` with the extracted error. */
    method Settle<R>(requestType: RecordEntryKey, outcome: ActionOutcome<R>, onSuccess: Callback, onError: Callback)
      returns (attempt: Attempt<R>, calls: seq<Invocation<R>>)
      modifies this
      ensures attempt == AttemptOf(outcome, onSuccess, onError)
      ensures calls == TraceOf(outcome, onSuccess, onError)
      ensures Recorded(requestType, attempt)
    {
      calls := [ActionCalled];
      var caught: Option<JsValue>;
      match outcome {
        case Resolved(response) =>
          var successCalls, thrown := OnRequestSuccess(requestType, response, onSuccess);
          calls := calls + successCalls;
          caught := thrown;
        case Rejected(reason) =>
          caught := Some(reason);
      }
      if caught.None? {
        attempt := Succeeded(outcome.response);
      } else {
        var errorCalls;
        attempt, errorCalls := RecordFailure(requestType, caught.value, onError);
        calls := calls + errorCalls;
      }
    }

    /** The `catch` block of `request` and `requestUndefined`: extract the
        error from the caught value and hand it to `onRequestError`. */
    method RecordFailure<R>(requestType: RecordEntryKey, caught: JsValue, onError: Callback)
      returns (attempt: Attempt<R>, calls: seq<Invocation<R>>)
      modifies this
      ensures attempt.Failed? || attempt.OnErrorThrew?
      ensures attempt.error == ErrorFromThrown(caught)
      ensures attempt.OnErrorThrew? <==> onError.Throws?
      ensures attempt.OnErrorThrew? ==> attempt.thrown == onError.thrown
      ensures calls == IfPresent(onError, OnErrorCalled(ErrorFromThrown(caught)))
      ensures requestedMap == old(requestedMap)[PropKey(requestType) := true]
      ensures loadingMap == old(loadingMap)[PropKey(requestType) := false]
      ensures errorMap == old(errorMap)[PropKey(requestType) := ErrorFromThrown(caught)]
    {
      var error := ErrorFromThrown(caught);
      var thrown;
      calls, thrown := OnRequestError<R>(requestType, error, onError);
      attempt := if thrown.Some? then OnErrorThrew(error, thrown.value) else Failed(error);
    }

    /** `request`: `proceed` is what `waitForRequest` reported. */
    method Request<R>(requestType: RecordEntryKey, proceed: bool, outcome: ActionOutcome<R>,
                      onSuccess: Callback, onError: Callback)
      returns (result: Completion<R>, calls: seq<Invocation<R>>)
      modifies this
      ensures !proceed ==>
        && result == Threw(TimedOut(WaitTimeoutError(TimedOutMessage(requestType), requestType)))
        && calls == []
        && loadingMap == old(loadingMap) && errorMap == old(errorMap) && requestedMap == old(requestedMap)
      ensures proceed ==>
        var attempt := AttemptOf(outcome, onSuccess, onError);
        && calls == TraceOf(outcome, onSuccess, onError)
        && Recorded(requestType, attempt)
        && Requested(requestType) && !Loading(requestType)
        && (Loaded(requestType) <==> attempt.Succeeded?)
        && (Error(requestType) <==> !attempt.Succeeded?)
        && (!attempt.Succeeded? ==>
              ErrorInstance(requestType) == attempt.error.instance && ErrorCode(requestType) == attempt.error.code)
        && (forall k :: PropKey(k) != PropKey(requestType) ==>
              GetRequestStatus(k) == old(GetRequestStatus(k)) && ErrorInstance(k) == old(ErrorInstance(k))
              && ErrorCode(k) == old(ErrorCode(k)))
        && result == match attempt
                     case Succeeded(response) => Returned(response)
                     case Failed(error) =>
                       Threw(RequestFailed(LoadingStoreRequestError(FailedMessage(requestType), requestType, error)))
                     case OnErrorThrew(_, thrown) => Threw(CallbackThrew(thrown))
    {
      if !proceed {
        result := Threw(TimedOut(WaitTimeoutError(TimedOutMessage(requestType), requestType)));
        calls := [];
        return;
      }
      var attempt;
      attempt, calls := RunAttempt(requestType, outcome, onSuccess, onError);
      match attempt {
        case Succeeded(response) =>
          result := Returned(response);
        case Failed(error) =>
          result := Threw(RequestFailed(LoadingStoreRequestError(FailedMessage(requestType), requestType, error)));
        case OnErrorThrew(_, thrown) =>
          result := Threw(CallbackThrew(thrown));
      }
    }

    /** `requestUndefined`: as `request`, but a failed action resolves with
        `undefined` (`None`) instead of rejecting. */
    method RequestUndefined<R>(requestType: RecordEntryKey, proceed: bool, outcome: ActionOutcome<R>,
                               onSuccess: Callback, onError: Callback)
      returns (result: Completion<Option<R>>, calls: seq<Invocation<R>>)
      modifies this
      ensures !proceed ==>
        && result == Threw(TimedOut(WaitTimeoutError(TimedOutMessage(requestType), requestType)))
        && calls == []
        && loadingMap == old(loadingMap) && errorMap == old(errorMap) && requestedMap == old(requestedMap)
      ensures proceed ==>
        var attempt := AttemptOf(outcome, onSuccess, onError);
        && calls == TraceOf(outcome, onSuccess, onError)
        && Recorded(requestType, attempt)
        && Requested(requestType) && !Loading(requestType)
        && (Loaded(requestType) <==> attempt.Succeeded?)
        && (Error(requestType) <==> !attempt.Succeeded?)
        && (!attempt.Succeeded? ==>
              ErrorInstance(requestType) == attempt.error.instance && ErrorCode(requestType) == attempt.error.code)
        && (forall k :: PropKey(k) != PropKey(requestType) ==>
              GetRequestStatus(k) == old(GetRequestStatus(k)) && ErrorInstance(k) == old(ErrorInstance(k))
              && ErrorCode(k) == old(ErrorCode(k)))
        && result == match attempt
                     case Succeeded(response) => Returned(Some(response))
                     case Failed(_) => Returned(None)
                     case OnErrorThrew(_, thrown) => Threw(CallbackThrew(thrown))
    {
      if !proceed {
        result := Threw(TimedOut(WaitTimeoutError(TimedOutMessage(requestType), requestType)));
        calls := [];
        return;
      }
      var attempt;
      attempt, calls := RunAttempt(requestType, outcome, onSuccess, onError);
      match attempt {
        case Succeeded(response) =>
          result := Returned(Some(response));
        case Failed(_) =>
          result := Returned(None);
        case OnErrorThrew(_, thrown) =>
          result := Threw(CallbackThrew(thrown));
      }
    }
  }

  lemma PropKeysSnoc(ks: seq<RecordEntryKey>, i: nat)
    requires i < |ks|
    ensures PropKeys(ks[..i + 1]) == PropKeys(ks[..i]) + {PropKey(ks[i])}
  {
    assert ks[..i + 1] == ks[..i] + [ks[i]];
  }

  lemma DropTruthyStep(m: map<string, bool>, names: set<string>, name: string)
    ensures DropTruthy(DropTruthy(m, names), {name}) == DropTruthy(m, names + {name})
  {
  }
}
