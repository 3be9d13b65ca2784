/**
 * The store's test scenarios replayed on the model. An attempt that is in
 * flight while another call arrives is written out step by step: its
 * "mark loading" step, then its completion through `onRequestSuccess`.
 */
module Scenarios {
  import opened JsValues
  import opened Utils
  import opened Errors
  import opened Store

  const Key := StrKey("request")
  const AnotherKey := StrKey("anotherRequest")

  function NoHttpErrors(e: JsValue): bool { false }

  method SingleSuccessfulRequest() {
    var store := new LoadingStore(LoadingStoreOptions(None), NoHttpErrors);
    assert store.GetRequestStatus(Key) == InitialRequestStatus;
    var result, calls := store.Request(Key, true, Resolved("response"), NoCallback, NoCallback);
    assert result == Returned("response") && calls == [ActionCalled];
    assert store.GetRequestStatus(Key) == RequestStatus(false, false, true, true);
  }

  method SingleFailedRequest() {
    var store := new LoadingStore(LoadingStoreOptions(None), NoHttpErrors);
    var cause := PlainError("Something's going wrong");
    var result, calls := store.Request<string>(Key, true, Rejected(cause), NoCallback, NoCallback);
    var error := RequestError(cause, Num(-1.0));
    assert result == Threw(RequestFailed(LoadingStoreRequestError(FailedMessage(Key), Key, error)));
    assert calls == [ActionCalled];
    assert store.GetRequestStatus(Key) == RequestStatus(false, true, true, false);
    assert store.ErrorInstance(Key) == cause;
  }

  method FailedRequestUndefined() {
    var store := new LoadingStore(LoadingStoreOptions(None), NoHttpErrors);
    var cause := PlainError("Something's going wrong");
    var result, calls := store.RequestUndefined<string>(Key, true, Rejected(cause), NoCallback, Returns);
    var error := RequestError(cause, Num(-1.0));
    assert result == Returned(None);
    assert calls == [ActionCalled, OnErrorCalled(error)];
    assert store.GetRequestStatus(Key) == RequestStatus(false, true, true, false);
  }

  method ConcurrentRequestsOfDifferentTypes() {
    var store := new LoadingStore(LoadingStoreOptions(None), NoHttpErrors);
    store.SetLoading(Key, true);
    store.SetLoading(AnotherKey, true);
    assert store.RequestAnyStatus() == RequestStatus(true, false, false, false);
    var calls, thrown := store.OnRequestSuccess(Key, "response", NoCallback);
    assert store.GetRequestStatus(Key) == RequestStatus(false, false, true, true);
    assert store.GetRequestStatus(AnotherKey) == RequestStatus(true, false, false, false);
    assert store.Loaded(Key);
    assert store.RequestAnyStatus() == RequestStatus(true, false, true, true);
    calls, thrown := store.OnRequestSuccess(AnotherKey, "another-response", NoCallback);
    assert store.RequestAnyStatus() == RequestStatus(false, false, true, true);
  }

  method ConcurrentRequestsOfTheSameType() {
    var store := new LoadingStore(LoadingStoreOptions(None), NoHttpErrors);
    // first call: marked loading, then completes
    store.SetLoading(Key, true);
    var calls, thrown := store.OnRequestSuccess(Key, "response", NoCallback);
    // second call passed the gate once the first finished
    store.SetLoading(Key, true);
    assert store.GetRequestStatus(Key) == RequestStatus(true, false, true, false);
    calls, thrown := store.OnRequestSuccess(Key, "response", NoCallback);
    assert store.GetRequestStatus(Key) == RequestStatus(false, false, true, true);
  }

  method TimedOutConcurrentRequestOfTheSameType() {
    var store := new LoadingStore(LoadingStoreOptions(None), NoHttpErrors);
    // first call: marked loading and still running
    store.SetLoading(Key, true);
    // second call: its wait gate times out
    var result, calls := store.Request(Key, false, Resolved("response"), NoCallback, NoCallback);
    assert result == Threw(TimedOut(WaitTimeoutError(TimedOutMessage(Key), Key)));
    assert calls == [];
    assert store.GetRequestStatus(Key) == RequestStatus(true, false, false, false);
    // first call completes
    var successCalls, thrown := store.OnRequestSuccess(Key, "response", NoCallback);
    assert store.GetRequestStatus(Key) == RequestStatus(false, false, true, true);
  }

  method ResetOneAndAll() {
    var store := new LoadingStore(LoadingStoreOptions(None), NoHttpErrors);
    var r1, c1 := store.Request(Key, true, Resolved("response"), NoCallback, NoCallback);
    var r2, c2 := store.Request(AnotherKey, true, Resolved("another-response"), NoCallback, NoCallback);
    store.ResetRequestStatus(Single(Key));
    assert store.GetRequestStatus(Key) == InitialRequestStatus;
    assert store.GetRequestStatus(AnotherKey) == RequestStatus(false, false, true, true);
    store.ResetRequestStatus(List([]));
    assert store.GetRequestStatus(AnotherKey) == InitialRequestStatus;
    assert store.RequestAnyStatus() == InitialRequestStatus;
  }
}
