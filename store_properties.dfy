/**
 * Properties of the store's derived views: what an untouched request type
 * reads, how the aggregates relate to the per-key views, and where
 * `anyLoaded` as written departs from "some request type is loaded".
 */
module StoreProperties {
  import opened JsValues
  import opened Utils
  import opened Errors
  import opened Store

  /** A request type with no entry in any table reads as never touched. */
  lemma UntouchedKeyReadsInitial(store: LoadingStore, k: RecordEntryKey)
    requires PropKey(k) !in store.loadingMap && PropKey(k) !in store.errorMap
    requires PropKey(k) !in store.requestedMap
    ensures store.GetRequestStatus(k) == InitialRequestStatus
    ensures store.ErrorInstance(k) == Undefined && store.ErrorCode(k) == Undefined
  {
  }

  /** With all tables empty every view and every aggregate is false. */
  lemma EmptyStoreReadsInitial(store: LoadingStore)
    requires store.loadingMap == map[] && store.errorMap == map[] && store.requestedMap == map[]
    ensures forall k :: store.GetRequestStatus(k) == InitialRequestStatus
    ensures store.RequestAnyStatus() == InitialRequestStatus
    ensures forall ks :: store.RequestAnyOfStatus(ks) == InitialRequestStatus
  {
  }

  /** Request types with the same property name share one entry: the
      number 7 and the string "7" read the same status. */
  lemma SamePropertySameStatus(store: LoadingStore, a: RecordEntryKey, b: RecordEntryKey)
    requires PropKey(a) == PropKey(b)
    ensures store.GetRequestStatus(a) == store.GetRequestStatus(b)
    ensures store.ErrorInstance(a) == store.ErrorInstance(b) && store.ErrorCode(a) == store.ErrorCode(b)
  {
  }

  /** A worked instance of `SamePropertySameStatus`. */
  lemma NumberAndDigitStringShareStatus(store: LoadingStore)
    ensures store.GetRequestStatus(NumKey(7)) == store.GetRequestStatus(StrKey("7"))
  {
    assert PropKey(NumKey(7)) == "7";
  }

  // ---------------------------------------------------------------------
  // Aggregates over all entries

  lemma {:induction false} AnyLoadingIffSomeKeyLoading(store: LoadingStore)
    ensures store.AnyLoading() <==> exists k :: store.Loading(k)
  {
    if store.AnyLoading() {
      var s :| s in store.loadingMap && store.loadingMap[s];
      assert store.Loading(StrKey(s));
    }
    if k :| store.Loading(k) {
      assert store.loadingMap[PropKey(k)] in store.loadingMap.Values;
    }
  }

  lemma {:induction false} AnyErrorIffSomeKeyFailed(store: LoadingStore)
    ensures store.AnyError() <==> exists k :: store.Error(k)
  {
    if store.AnyError() {
      var e :| e in store.errorMap.Values;
      var s :| s in store.errorMap && store.errorMap[s] == e;
      assert store.Error(StrKey(s));
    }
    if k :| store.Error(k) {
      assert store.errorMap[PropKey(k)] in store.errorMap.Values;
    }
  }

  lemma {:induction false} AnyRequestedIffSomeKeyRequested(store: LoadingStore)
    ensures store.AnyRequested() <==> exists k :: store.Requested(k)
  {
    if store.AnyRequested() {
      var s :| s in store.requestedMap && store.requestedMap[s];
      assert store.Requested(StrKey(s));
    }
    if k :| store.Requested(k) {
      assert store.requestedMap[PropKey(k)] in store.requestedMap.Values;
    }
  }

  /** The corrected `anyLoaded` holds exactly when some request type is
      loaded. */
  lemma {:induction false} AnyLoadedByKeyIffSomeKeyLoaded(store: LoadingStore)
    ensures store.AnyLoadedByKey() <==> exists k :: store.Loaded(k)
  {
    if store.AnyLoadedByKey() {
      var s :| s in store.requestedMap && store.requestedMap[s]
                && !store.Loading(StrKey(s)) && !store.Error(StrKey(s));
      assert store.Loaded(StrKey(s));
    }
    if k :| store.Loaded(k) {
      var s := PropKey(k);
      assert PropKey(StrKey(s)) == s;
      assert s in store.requestedMap && store.requestedMap[s]
             && !store.Loading(StrKey(s)) && !store.Error(StrKey(s));
    }
  }

  /** The corrected aggregate status is loaded exactly when some request
      type is loaded. */
  lemma RequestAnyStatusByKeyIffSomeKeyLoaded(store: LoadingStore)
    ensures store.RequestAnyStatusByKey().loaded <==> exists k :: store.Loaded(k)
  {
    AnyLoadedByKeyIffSomeKeyLoaded(store);
  }

  /** `anyLoaded` as written, for a string request type "007" that is
      requested and still loading: `getRecordEntries` reports the key as
      the number 7, whose property "7" has no entry, so `anyLoaded` is
      true although no request type is loaded. */
  lemma AnyLoadedMisreadsLeadingZeroKey(store: LoadingStore)
    requires store.requestedMap == map["007" := true]
    requires store.loadingMap == map["007" := true]
    requires store.errorMap == map[]
    ensures store.AnyLoaded()
    ensures store.Requested(StrKey("007")) && store.Loading(StrKey("007"))
    ensures !store.AnyLoadedByKey()
    ensures forall k :: !store.Loaded(k)
    ensures store.RequestAnyStatus().loaded && !store.RequestAnyStatusByKey().loaded
  {
    OtherKeysStayStrings();
    assert PropKey(NumKey(7)) == "7";
    assert !store.Loading(EntryKey("007")) && !store.Error(EntryKey("007"));
    AnyLoadedByKeyIffSomeKeyLoaded(store);
  }

  /** The same misread hides a loaded key: "007" is requested and neither
      loading nor failed, but its status is read under "7", which is
      loading, so `anyLoaded` is false although "007" is loaded. */
  lemma AnyLoadedMissesLeadingZeroKey(store: LoadingStore)
    requires store.requestedMap == map["007" := true]
    requires store.loadingMap == map["7" := true]
    requires store.errorMap == map[]
    ensures store.Loaded(StrKey("007"))
    ensures !store.AnyLoaded() && !store.RequestAnyStatus().loaded
    ensures store.RequestAnyStatusByKey().loaded
  {
    OtherKeysStayStrings();
    assert PropKey(NumKey(7)) == "7";
    assert store.Loading(EntryKey("007"));
  }

  /** When no stored property name is a digit string with a leading zero,
      `anyLoaded` as written and the corrected one agree. */
  lemma {:induction false} AnyLoadedAgreesWithoutLeadingZeros(store: LoadingStore)
    requires forall s :: s in store.requestedMap ==> !HasLeadingZero(s)
    ensures store.AnyLoaded() == store.AnyLoadedByKey()
  {
    forall s | s in store.requestedMap
      ensures store.Loading(EntryKey(s)) == store.Loading(StrKey(s))
      ensures store.Error(EntryKey(s)) == store.Error(StrKey(s))
    {
      EntryKeyNamesSameProperty(s);
    }
  }

  /** `anyLoaded` read through `getRecordEntries` over any listing of the
      requested table's entries, as `Object.entries` gives them. */
  lemma {:induction false} AnyLoadedOverRecordEntries(store: LoadingStore, entries: seq<(string, bool)>)
    requires forall e :: e in entries ==> e.0 in store.requestedMap && store.requestedMap[e.0] == e.1
    requires forall s :: s in store.requestedMap ==> (s, store.requestedMap[s]) in entries
    ensures store.AnyLoaded() <==>
      exists p :: p in GetRecordEntries(entries) && p.1 && !store.Loading(p.0) && !store.Error(p.0)
  {
    var r := GetRecordEntries(entries);
    if store.AnyLoaded() {
      var s :| s in store.requestedMap && store.requestedMap[s]
                && !store.Loading(EntryKey(s)) && !store.Error(EntryKey(s));
      var i :| 0 <= i < |entries| && entries[i] == (s, true);
      assert r[i] == (EntryKey(s), true);
    } else {
      forall p | p in r && p.1
        ensures store.Loading(p.0) || store.Error(p.0)
      {
        var i :| 0 <= i < |r| && r[i] == p;
        var s := entries[i].0;
        assert entries[i] in entries;
        assert p.0 == EntryKey(s) && s in store.requestedMap && store.requestedMap[s];
      }
    }
  }

  // ---------------------------------------------------------------------
  // Aggregates over a list of request types

  /** A one-element list reads exactly the per-key status. */
  lemma AnyOfSingleton(store: LoadingStore, k: RecordEntryKey)
    ensures store.RequestAnyOfStatus([k]) == store.GetRequestStatus(k)
  {
  }

  /** `anyOfLoaded` holds exactly when some listed request type is loaded
      and none of them is loading or failed. */
  lemma {:induction false} AnyOfLoadedMeaning(store: LoadingStore, ks: seq<RecordEntryKey>)
    ensures store.AnyOfLoaded(ks) <==>
      && (exists i :: 0 <= i < |ks| && store.Loaded(ks[i]))
      && (forall i :: 0 <= i < |ks| ==> !store.Loading(ks[i]) && !store.Error(ks[i]))
  {
    if store.AnyOfLoaded(ks) {
      var i :| 0 <= i < |ks| && store.Requested(ks[i]);
      assert store.Loaded(ks[i]);
    }
  }

  /** `anyOfLoaded` is not a `some` over `loaded`: one loaded request type
      does not make its list loaded while another listed one is loading. */
  lemma AnyOfLoadedIsNotSomeLoaded(store: LoadingStore, a: RecordEntryKey, b: RecordEntryKey)
    requires store.Loaded(a) && store.Loading(b)
    ensures !store.AnyOfLoaded([a, b])
  {
    assert [a, b][1] == b;
  }

  /** Request types outside the list never contribute. */
  lemma {:induction false} AnyOfReadsOnlyListedKeys(s1: LoadingStore, s2: LoadingStore, ks: seq<RecordEntryKey>)
    requires forall i :: 0 <= i < |ks| ==> s1.GetRequestStatus(ks[i]) == s2.GetRequestStatus(ks[i])
    ensures s1.RequestAnyOfStatus(ks) == s2.RequestAnyOfStatus(ks)
  {
    assert forall i :: 0 <= i < |ks| ==>
      s1.Loading(ks[i]) == s2.Loading(ks[i]) && s1.Error(ks[i]) == s2.Error(ks[i])
      && s1.Requested(ks[i]) == s2.Requested(ks[i]);
  }

  // ---------------------------------------------------------------------
  // The error recorded for a failure

  /** With the default extractor, a failure that is not an HTTP client
      error with a response is recorded as `{ instance: e, code: -1 }`. */
  lemma DefaultExtractorFallback(store: LoadingStore, isAxiosError: JsValue -> bool, e: JsValue)
    requires forall v :: store.requestErrorExtractor(v) == DefaultRequestErrorExtractor(isAxiosError, v)
    requires !isAxiosError(e) || !Truthy(Get(e, "response"))
    ensures store.ErrorFromThrown(e) == RequestError(e, Num(-1.0))
  {
    assert store.requestErrorExtractor(e) == None;
  }

  /** With the default extractor, an HTTP client error carrying a response
      is recorded as the response's data and status. */
  lemma DefaultExtractorResponse(store: LoadingStore, isAxiosError: JsValue -> bool, e: JsValue)
    requires forall v :: store.requestErrorExtractor(v) == DefaultRequestErrorExtractor(isAxiosError, v)
    requires isAxiosError(e) && Truthy(Get(e, "response"))
    ensures store.ErrorFromThrown(e) == RequestError(Get(Get(e, "response"), "data"), Get(Get(e, "response"), "status"))
  {
    assert store.requestErrorExtractor(e).Some?;
  }

  /** A failure with a falsy cause that the default extractor does not
      recognise (`throw undefined`, a rejection with `""`) is thrown by
      `request` as a `LoadingStoreRequestError` that
      `isLoadingStoreRequestError` rejects. */
  lemma FalsyCauseNotRecognised(store: LoadingStore, isAxiosError: JsValue -> bool, k: RecordEntryKey, e: JsValue)
    requires forall v :: store.requestErrorExtractor(v) == DefaultRequestErrorExtractor(isAxiosError, v)
    requires !isAxiosError(e) && !Truthy(e)
    ensures !IsLoadingStoreRequestError(
      RequestErrorObject(LoadingStoreRequestError(FailedMessage(k), k, store.ErrorFromThrown(e))))
  {
    DefaultExtractorFallback(store, isAxiosError, e);
    ThrownRequestErrorRecognised(LoadingStoreRequestError(FailedMessage(k), k, store.ErrorFromThrown(e)));
  }
}
