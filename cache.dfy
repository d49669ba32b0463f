/** The `Cache` class of tea-cache: a cache-aside layer over a Redis client.
    `get` reads and decodes, `set` picks SET or SETEX by `life`, and
    `caching` turns a function into a memoized one. */
module TeaCache {
  import opened Wrappers
  import opened Js
  import opened Store

  /** The messages `caching` throws with, in the order it checks. */
  const FnNotFunction: string := "The first argument must be a function"
  const LifeNotNumber: string := "The second argument must be a number and great then 0"
  const KeyNotFunction: string := "The third argument must be a function"

  /** What `get` makes of GET's answer: nil or the empty string become
      `undefined`; any other string is parsed as JSON, and the string itself
      is the value when it does not parse. */
  function Decode(json: Codec, raw: Option<string>): Value {
    match raw
    case None => Undefined
    case Some(s) =>
      if s == "" then Undefined
      else
        match json.parse(s)
        case Some(j) => Defined(j)
        case None => Defined(Str(s))
  }

  /** The write `set(key, value, life)` issues: `life` 0 means SET without
      expiry, any other number (negative ones too) means SETEX with it. */
  function Dispatch(key: string, value: string, life: int): (c: Command)
    ensures c.key == key && c.value == value
    ensures c.SetCmd? <==> life == 0
    ensures c.SetExCmd? ==> c.life == life
  {
    if life == 0 then SetCmd(key, value) else SetExCmd(key, life, value)
  }

  /** The function `caching` returns: the three arguments it closed over. */
  datatype Wrapper = Wrapper(fn: JsFunction, life: int, getKey: JsFunction)

  /** The wrapper can only look a key up when `getKey` yields a string (or
      throws). */
  predicate KeyIsString(w: Wrapper, args: seq<Json>) {
    w.getKey(args).Return? ==> w.getKey(args).value.Str?
  }

  /** One call of a wrapper: how it ends, the argument `fn` was invoked with
      (None: `fn` was not invoked), and the writes it issued. */
  datatype Step = Step(result: Completion, fnArg: Option<Json>, writes: seq<Command>)

  /** One call of a wrapper on the store it finds, step by step: derive the
      key from the spread arguments, `get` it, return the data if it is
      truthy, and otherwise call `fn` with the argument array, write its
      stringified result under the same key with the same life, and return
      the result. A throw from `getKey` or `fn` ends the call with nothing
      (more) done. */
  function Wrapped(json: Codec, store: map<string, Entry>, w: Wrapper, args: seq<Json>): Step
    requires KeyIsString(w, args)
  {
    match w.getKey(args)
    case Throw(e) => Step(Throw(e), None, [])
    case Return(k) =>
      var data := Decode(json, Lookup(store, k.s));
      if TruthyValue(data) then Step(Return(data.json), None, [])
      else
        match w.fn([Arr(args)])
        case Throw(e) => Step(Throw(e), Some(Arr(args)), [])
        case Return(res) =>
          Step(Return(res), Some(Arr(args)), [Dispatch(k.s, json.stringify(res), w.life)])
  }

  class Cache {
    /** The contents of the Redis server the client talks to. */
    var store: map<string, Entry>
    /** `JSON.stringify` and `JSON.parse`. */
    const json: Codec
    /** The server's contents when the cache was built. */
    ghost const initial: map<string, Entry>
    /** Every SET and SETEX this cache issued, oldest first. */
    ghost var writes: seq<Command>
    /** The argument of every invocation of a wrapped `fn`, oldest first. */
    ghost var fnArgs: seq<Json>

    /** The store is exactly what the logged writes made of it. */
    ghost predicate Valid()
      reads this
    {
      store == Replay(initial, writes)
    }

    constructor (json: Codec, contents: map<string, Entry>)
      ensures Valid()
      ensures this.json == json && store == contents
      ensures writes == [] && fnArgs == []
    {
      this.json := json;
      store := contents;
      initial := contents;
      writes := [];
      fnArgs := [];
    }

    /** Through `Valid()`, the write log explains the store: a key some write
        touched holds what the last such write left, and any other key holds
        what the server held when the cache was built. */
    lemma StoreFollowsWriteLog(key: string)
      requires Valid()
      ensures LastWrite(writes, key).Some? ==>
        key in store && store[key] == Effect(LastWrite(writes, key).value)
      ensures LastWrite(writes, key).None? ==>
        (key in store <==> key in initial) && (key in initial ==> store[key] == initial[key])
    {
      LastWriteWins(initial, writes, key);
    }

    /** `get(key)`. */
    function Get(key: string): (v: Value)
      reads this
      ensures v.Undefined? <==> key !in store || store[key].value == ""
      ensures key in store && store[key].value != "" && json.parse(store[key].value).Some? ==>
        v == Defined(json.parse(store[key].value).value)
      ensures key in store && store[key].value != "" && json.parse(store[key].value).None? ==>
        v == Defined(Str(store[key].value))
    {
      Decode(json, Lookup(store, key))
    }

    /** `set(key, value, life)`. */
    method Set(key: string, value: string, life: int) returns (ack: string)
      requires Valid()
      modifies this`store, this`writes
      ensures Valid()
      ensures life == 0 ==> writes == old(writes) + [SetCmd(key, value)]
      ensures life != 0 ==> writes == old(writes) + [SetExCmd(key, life, value)]
      ensures store == old(store)[key := Entry(value, if life == 0 then None else Some(life))]
      ensures Get(key) == Decode(json, Some(value))
      ensures ack == Ok
    {
      if life == 0 {
        store := store[key := Entry(value, None)];
        writes := writes + [SetCmd(key, value)];
        ack := Ok;
        return;
      }
      store := store[key := Entry(value, Some(life))];
      writes := writes + [SetExCmd(key, life, value)];
      ack := Ok;
    }

    /** `caching(fn, life, getKey)`: the three type checks, in order, and
        otherwise the wrapper. A `life` of 0 or below passes. */
    function Caching(fn: Dyn, life: Dyn, getKey: Dyn): (r: Result<Wrapper, string>)
      ensures r.Success? <==> IsFunction(fn) && IsNumber(life) && IsFunction(getKey)
      ensures !IsFunction(fn) ==> r == Failure(FnNotFunction)
      ensures IsFunction(fn) && !IsNumber(life) ==> r == Failure(LifeNotNumber)
      ensures IsFunction(fn) && IsNumber(life) && !IsFunction(getKey) ==> r == Failure(KeyNotFunction)
      ensures r.Success? ==>
        r.value.fn == fn.call && r.value.life == life.json.n && r.value.getKey == getKey.call
    {
      if !IsFunction(fn) then Failure(FnNotFunction)
      else if !IsNumber(life) then Failure(LifeNotNumber)
      else if !IsFunction(getKey) then Failure(KeyNotFunction)
      else Success(Wrapper(fn.call, life.json.n, getKey.call))
    }

    /** A call of the wrapper `w` with positional arguments `args`. */
    method Call(w: Wrapper, args: seq<Json>) returns (r: Completion)
      requires Valid()
      requires KeyIsString(w, args)
      modifies this`store, this`writes, this`fnArgs
      ensures Valid()
      ensures var s := Wrapped(json, old(store), w, args);
        && r == s.result
        && writes == old(writes) + s.writes
        && store == Replay(old(store), s.writes)
        && fnArgs == old(fnArgs) + (if s.fnArg.Some? then [s.fnArg.value] else [])
      ensures w.getKey(args).Return? && TruthyValue(old(Get(w.getKey(args).value.s))) ==>
        r == Return(old(Get(w.getKey(args).value.s)).json) &&
        writes == old(writes) && fnArgs == old(fnArgs) && store == old(store)
      ensures w.getKey(args).Return? && !TruthyValue(old(Get(w.getKey(args).value.s))) ==>
        fnArgs == old(fnArgs) + [Arr(args)] &&
        (w.fn([Arr(args)]).Return? ==>
          r == w.fn([Arr(args)]) &&
          writes == old(writes) + [Dispatch(w.getKey(args).value.s, json.stringify(r.value), w.life)])
    {
      var k := w.getKey(args);
      if k.Throw? {
        r := k;
        return;
      }
      var key := k.value.s;
      var data := Get(key);
      if TruthyValue(data) {
        r := Return(data.json);
        return;
      }
      fnArgs := fnArgs + [Arr(args)];
      var res := w.fn([Arr(args)]);
      if res.Throw? {
        r := res;
        return;
      }
      var _ := Set(key, json.stringify(res.value), w.life);
      r := res;
    }
  }
}
