/** What the cache promises across calls: writes read back, hits skip the
    function, misses (falsy cached values included) run it, and a key that
    holds a truthy value is not recomputed while the server keeps the entry.
    Here `fn` and `getKey` are pure functions of their arguments, and only
    this cache writes the store; nothing expires. */
module CacheProperties {
  import opened Wrappers
  import opened Js
  import opened Store
  import opened TeaCache

  /** `get` after `set(key, value, life)` decodes exactly `value`, whatever
      the life, and every other key reads as before. */
  lemma WriteThenGet(json: Codec, store: map<string, Entry>, key: string, value: string, life: int, other: string)
    requires other != key
    ensures Decode(json, Lookup(Apply(store, Dispatch(key, value, life)), key)) == Decode(json, Some(value))
    ensures Lookup(Apply(store, Dispatch(key, value, life)), other) == Lookup(store, other)
  {
  }

  /** A stringified JSON value comes back deep-equal to itself. */
  lemma StringifiedValueReadsBack(json: Codec, store: map<string, Entry>, key: string, v: Json, life: int)
    requires RoundTrips(json, v)
    ensures Decode(json, Lookup(Apply(store, Dispatch(key, json.stringify(v), life)), key)) == Defined(v)
  {
  }

  /** A non-empty string that is not JSON comes back unchanged, and the empty
      string reads as `undefined`. */
  lemma RawStringReadsBack(json: Codec, store: map<string, Entry>, key: string, s: string, life: int)
    requires s == "" || json.parse(s) == None
    ensures s != "" ==> Decode(json, Lookup(Apply(store, Dispatch(key, s, life)), key)) == Defined(Str(s))
    ensures s == "" ==> Decode(json, Lookup(Apply(store, Dispatch(key, s, life)), key)) == Undefined
  {
  }

  /** On a hit the wrapper answers with the cached value, does not invoke
      `fn` and writes nothing. */
  lemma HitSkipsFn(json: Codec, store: map<string, Entry>, w: Wrapper, args: seq<Json>, key: string)
    requires w.getKey(args) == Return(Str(key))
    requires TruthyValue(Decode(json, Lookup(store, key)))
    ensures var s := Wrapped(json, store, w, args);
      s.result == Return(Decode(json, Lookup(store, key)).json) && s.fnArg == None && s.writes == []
  {
  }

  /** On a miss the wrapper invokes `fn` once with the whole argument list as
      one array, writes the stringified result under the derived key with the
      wrapper's life, and returns the result; if `fn` throws, nothing is
      written and the error propagates. */
  lemma MissInvokesFn(json: Codec, store: map<string, Entry>, w: Wrapper, args: seq<Json>, key: string)
    requires w.getKey(args) == Return(Str(key))
    requires !TruthyValue(Decode(json, Lookup(store, key)))
    ensures var s := Wrapped(json, store, w, args);
      && s.fnArg == Some(Arr(args))
      && (w.fn([Arr(args)]).Return? ==>
            s.result == w.fn([Arr(args)]) &&
            s.writes == [Dispatch(key, json.stringify(w.fn([Arr(args)]).value), w.life)])
      && (w.fn([Arr(args)]).Throw? ==> s.result == w.fn([Arr(args)]) && s.writes == [])
  {
  }

  /** A throw from `getKey` propagates before the store or `fn` is touched. */
  lemma KeyThrowPropagates(json: Codec, store: map<string, Entry>, w: Wrapper, args: seq<Json>)
    requires w.getKey(args).Throw?
    ensures var s := Wrapped(json, store, w, args);
      s.result == w.getKey(args) && s.fnArg == None && s.writes == []
  {
  }

  /** A stored value that parses to `null`, `false`, `0` or `""` is a miss. */
  lemma FalsyStoredValueIsMiss(json: Codec, store: map<string, Entry>, w: Wrapper, args: seq<Json>, key: string)
    requires w.getKey(args) == Return(Str(key))
    requires key in store && store[key].value != ""
    requires json.parse(store[key].value).Some? && !Truthy(json.parse(store[key].value).value)
    ensures Wrapped(json, store, w, args).fnArg == Some(Arr(args))
  {
  }

  /** A stored non-empty string that is not JSON is a hit on the string. */
  lemma NonJsonStoredStringIsHit(json: Codec, store: map<string, Entry>, w: Wrapper, args: seq<Json>, key: string)
    requires w.getKey(args) == Return(Str(key))
    requires key in store && store[key].value != "" && json.parse(store[key].value) == None
    ensures var s := Wrapped(json, store, w, args);
      s.result == Return(Str(store[key].value)) && s.fnArg == None && s.writes == []
  {
  }

  /** Memoization: when a call returned a truthy value that the codec round
      trips (or hit on one), calling again with the same arguments is a hit
      on that very value. */
  lemma RepeatCallHits(json: Codec, store: map<string, Entry>, w: Wrapper, args: seq<Json>)
    requires KeyIsString(w, args)
    requires Wrapped(json, store, w, args).result.Return?
    requires Truthy(Wrapped(json, store, w, args).result.value)
    requires Wrapped(json, store, w, args).fnArg.Some? ==>
      RoundTrips(json, Wrapped(json, store, w, args).result.value)
    ensures var first := Wrapped(json, store, w, args);
      var second := Wrapped(json, Replay(store, first.writes), w, args);
      second.result == first.result && second.fnArg == None && second.writes == []
  {
  }

  /** A falsy result is never served from the cache: the next call with the
      same arguments invokes `fn` again and writes again. */
  lemma FalsyResultIsRecomputed(json: Codec, store: map<string, Entry>, w: Wrapper, args: seq<Json>)
    requires KeyIsString(w, args)
    requires Wrapped(json, store, w, args).fnArg.Some?
    requires Wrapped(json, store, w, args).result.Return?
    requires !Truthy(Wrapped(json, store, w, args).result.value)
    requires RoundTrips(json, Wrapped(json, store, w, args).result.value)
    ensures var first := Wrapped(json, store, w, args);
      Wrapped(json, Replay(store, first.writes), w, args) == first
  {
  }

  /** Every call in `calls` can derive its key. */
  predicate KeysAreStrings(w: Wrapper, calls: seq<seq<Json>>) {
    forall i | 0 <= i < |calls| :: KeyIsString(w, calls[i])
  }

  /** What a run of successive wrapper calls did, call by call. */
  datatype Trace = Trace(results: seq<Completion>, invoked: seq<bool>, writes: seq<Command>)

  /** Successive calls of one wrapper, each on the store the previous ones
      left behind. */
  function Session(json: Codec, store: map<string, Entry>, w: Wrapper, calls: seq<seq<Json>>): (t: Trace)
    requires KeysAreStrings(w, calls)
    ensures |t.results| == |calls| && |t.invoked| == |calls|
    decreases |calls|
  {
    if calls == [] then Trace([], [], [])
    else
      var s := Wrapped(json, store, w, calls[0]);
      assert KeysAreStrings(w, calls[1..]) by {
        forall i | 0 <= i < |calls| - 1 ensures KeyIsString(w, calls[1..][i]) {
          assert calls[1..][i] == calls[i + 1];
        }
      }
      var rest := Session(json, Replay(store, s.writes), w, calls[1..]);
      Trace([s.result] + rest.results, [s.fnArg.Some?] + rest.invoked, s.writes + rest.writes)
  }

  /** Once a key holds a value that decodes truthy, no later call of the run
      recomputes it (entries do not expire here): every call deriving that key hits on the same value without
      invoking `fn`, nothing writes that key again, and it keeps its entry. */
  lemma {:induction false} CachedKeyIsNeverRecomputed(
    json: Codec, store: map<string, Entry>, w: Wrapper, calls: seq<seq<Json>>, key: string)
    requires KeysAreStrings(w, calls)
    requires TruthyValue(Decode(json, Lookup(store, key)))
    ensures var t := Session(json, store, w, calls);
      && (forall i | 0 <= i < |calls| && w.getKey(calls[i]) == Return(Str(key)) ::
            !t.invoked[i] && t.results[i] == Return(Decode(json, Lookup(store, key)).json))
      && (forall c | c in t.writes :: c.key != key)
      && key in Replay(store, t.writes) && Replay(store, t.writes)[key] == store[key]
    decreases |calls|
  {
    var t := Session(json, store, w, calls);
    if calls == [] {
      return;
    }
    var s := Wrapped(json, store, w, calls[0]);
    var next := Replay(store, s.writes);
    // The first call writes, if at all, a key that read falsy: not `key`.
    forall c | c in s.writes ensures c.key != key {
      assert w.getKey(calls[0]).Return?;
      assert !TruthyValue(Decode(json, Lookup(store, w.getKey(calls[0]).value.s)));
    }
    LastWriteWins(store, s.writes, key);
    assert Lookup(next, key) == Lookup(store, key);
    assert KeysAreStrings(w, calls[1..]) by {
      forall i | 0 <= i < |calls| - 1 ensures KeyIsString(w, calls[1..][i]) {
        assert calls[1..][i] == calls[i + 1];
      }
    }
    CachedKeyIsNeverRecomputed(json, next, w, calls[1..], key);
    var rest := Session(json, next, w, calls[1..]);
    assert t == Trace([s.result] + rest.results, [s.fnArg.Some?] + rest.invoked, s.writes + rest.writes);
    forall i | 0 <= i < |calls| && w.getKey(calls[i]) == Return(Str(key))
      ensures !t.invoked[i] && t.results[i] == Return(Decode(json, Lookup(store, key)).json)
    {
      if i > 0 {
        assert calls[1..][i - 1] == calls[i];
      }
    }
    ReplayConcat(store, s.writes, rest.writes);
  }
}

