/**
 * The store's error values: the `RequestError` record it keeps per request
 * type, the two exceptions it throws, and the `isLoadingStoreRequestError`
 * shape validator that callers use to recognise the second of them.
 */
module Errors {
  import opened JsValues
  import opened Utils

  /** `{ instance, code }`: the original failure value and its numeric
      classification. Both are untyped at run time: a custom extractor may
      put anything in `code`. */
  datatype RequestError = RequestError(instance: JsValue, code: JsValue)

  /** `LoadingStoreRequestWaitTimeoutError`: the wait gate gave up. */
  datatype WaitTimeoutError = WaitTimeoutError(message: string, requestType: RecordEntryKey)

  /** `LoadingStoreRequestError`: the action ran and failed. */
  datatype LoadingStoreRequestError =
    LoadingStoreRequestError(message: string, requestType: RecordEntryKey, error: RequestError)

  /** A request type as a JavaScript value. */
  function KeyValue(key: RecordEntryKey): (v: JsValue)
    ensures v != Undefined
  {
    match key
    case StrKey(s) => Str(s)
    case NumKey(n) => Num(n as real)
  }

  /** The object literal `{ instance, code }`. */
  function RequestErrorValue(error: RequestError): (v: JsValue)
    ensures IsRecord(v)
    ensures Get(v, "instance") == error.instance && Get(v, "code") == error.code
  {
    Obj(map["instance" := error.instance, "code" := error.code])
  }

  /** The thrown `LoadingStoreRequestWaitTimeoutError` object: the
      constructor stores `message` (through `Error`) and `type`. */
  function WaitTimeoutErrorValue(e: WaitTimeoutError): (v: JsValue)
    ensures IsRecord(v)
    ensures Get(v, "message") == Str(e.message) && Get(v, "type") == KeyValue(e.requestType)
    ensures Get(v, "error") == Undefined
  {
    Obj(map["message" := Str(e.message), "type" := KeyValue(e.requestType)])
  }

  /** The thrown `LoadingStoreRequestError` object: the constructor stores
      `message`, `type` and `error` unchanged. */
  function RequestErrorObject(e: LoadingStoreRequestError): (v: JsValue)
    ensures IsRecord(v)
    ensures Get(v, "message") == Str(e.message) && Get(v, "type") == KeyValue(e.requestType)
    ensures Get(v, "error") == RequestErrorValue(e.error)
  {
    Obj(map["message" := Str(e.message), "type" := KeyValue(e.requestType),
             "error" := RequestErrorValue(e.error)])
  }

  /** A plain `new Error(message)`. */
  function PlainError(message: string): JsValue {
    Obj(map["message" := Str(message)])
  }

  /** `isLoadingStoreRequestError(e)`. */
  predicate IsLoadingStoreRequestError(e: JsValue)
    ensures IsLoadingStoreRequestError(e) ==>
      && e.Obj? && "type" in e.props
      && e.props["type"] != Undefined
      && Get(e, "error").Obj?
      && (Get(Get(e, "error"), "code").Num? || Get(Get(e, "error"), "code").NaN?)
      && Get(Get(e, "error"), "instance") !in {Undefined, Null, Bool(false), Num(0.0), NaN, Str("")}
  {
    && IsRecord(e)
    && Get(e, "type") != Undefined
    && IsRecord(Get(e, "error"))
    && TypeOf(Get(Get(e, "error"), "code")) == "number"
    && Truthy(Get(Get(e, "error"), "instance"))
  }

  lemma NonRecordIsNotRequestError(e: JsValue)
    requires e.Null? || e.Arr? || !(TypeOf(e) == "object")
    ensures !IsLoadingStoreRequestError(e)
  {
  }

  lemma MissingTypeIsNotRequestError(e: JsValue)
    requires Get(e, "type") == Undefined
    ensures !IsLoadingStoreRequestError(e)
  {
  }

  lemma PlainErrorIsNotRequestError(message: string)
    ensures !IsLoadingStoreRequestError(PlainError(message))
  {
    assert Get(PlainError(message), "type") == Undefined;
  }

  lemma MalformedErrorIsNotRequestError(e: JsValue)
    requires || !IsRecord(Get(e, "error"))
             || TypeOf(Get(Get(e, "error"), "code")) != "number"
             || !Truthy(Get(Get(e, "error"), "instance"))
    ensures !IsLoadingStoreRequestError(e)
  {
  }

  /** The shape `{ type, error: { code: <number>, instance: <truthy> } }` is
      recognised whatever else the object carries. */
  lemma WellFormedShapeIsRequestError(e: JsValue, errorProps: map<string, JsValue>)
    requires e.Obj? && "type" in e.props && e.props["type"] != Undefined
    requires "error" in e.props && e.props["error"] == Obj(errorProps)
    requires "code" in errorProps && (errorProps["code"].Num? || errorProps["code"].NaN?)
    requires "instance" in errorProps && Truthy(errorProps["instance"])
    ensures IsLoadingStoreRequestError(e)
  {
  }

  lemma ValidatorExamples()
    ensures IsLoadingStoreRequestError(Obj(map["type" := Str("request"),
      "error" := Obj(map["code" := Num(403.0), "instance" := PlainError("Forbidden")])]))
    ensures IsLoadingStoreRequestError(Obj(map["type" := Str("anotherRequest"),
      "error" := Obj(map["code" := Num(401.0), "instance" := Str("Unauthorized")])]))
    ensures !IsLoadingStoreRequestError(PlainError("Request error"))
  {
    PlainErrorIsNotRequestError("Request error");
  }

  /** The store's own `LoadingStoreRequestError` is recognised exactly when
      its error code is a number and its instance is truthy: a failure
      whose cause is `0`, `""`, `false`, `null` or `undefined` is thrown as
      a `LoadingStoreRequestError` that the validator rejects. */
  lemma ThrownRequestErrorRecognised(e: LoadingStoreRequestError)
    ensures IsLoadingStoreRequestError(RequestErrorObject(e))
        <==> TypeOf(e.error.code) == "number" && Truthy(e.error.instance)
  {
  }

  /** A wait timeout is never mistaken for a request error. */
  lemma WaitTimeoutIsNotRequestError(e: WaitTimeoutError)
    ensures !IsLoadingStoreRequestError(WaitTimeoutErrorValue(e))
  {
  }
}
