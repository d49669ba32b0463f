/** Calls of memoized functions driven through the class, one per caching
    test of the repository (test/index.test.ts:192-278): a miss that computes
    and stores a user record, and a hit on stored text; then the wrap-time
    checks of `caching`. */
module CacheScenarios {
  import opened Wrappers
  import opened Js
  import opened Store
  import opened TeaCache

  /** The key function of the tests: the first argument, when it is a string. */
  function FirstArgument(args: seq<Json>): Completion {
    if |args| > 0 && args[0].Str? then Return(args[0]) else Throw(Str("no key"))
  }

  /** The user record of the tests. */
  const User: Json := Obj([("name", Str("jason")), ("gender", Str("male"))])

  /** Nothing is stored under "hello" and `fn` answers the user record: the
      call misses, runs `fn` once with the argument array `["hello"]`, issues
      SETEX("hello", 300000, stringify(user)) and resolves to the record. */
  method MissComputesUser(json: Codec) returns (result: Completion, store: map<string, Entry>, ghost invocations: seq<Json>, ghost issued: seq<Command>)
    requires RoundTrips(json, User)
    ensures result == Return(User)
    ensures store == map["hello" := Entry(json.stringify(User), Some(300000))]
    ensures invocations == [Arr([Str("hello")])]
    ensures issued == [SetExCmd("hello", 300000, json.stringify(User))]
  {
    var cache := new Cache(json, map[]);
    var fn: JsFunction := (args: seq<Json>) => Return(User);
    var wrapped := cache.Caching(Fn(fn), Data(Num(300000)), Fn(FirstArgument));
    assert wrapped.Success?;
    result := cache.Call(wrapped.value, [Str("hello")]);
    store := cache.store;
    invocations := cache.fnArgs;
    issued := cache.writes;
  }

  /** The store already holds the text `OK`, which is not JSON: the call hits
      on the string "OK", runs nothing and writes nothing. */
  method HitOnStoredText(json: Codec, fn: JsFunction) returns (result: Completion, store: map<string, Entry>, ghost invocations: seq<Json>, ghost issued: seq<Command>)
    requires json.parse("OK") == None
    ensures result == Return(Str("OK"))
    ensures store == map["hello" := Entry("OK", None)]
    ensures invocations == [] && issued == []
  {
    var cache := new Cache(json, map["hello" := Entry("OK", None)]);
    var wrapped := cache.Caching(Fn(fn), Data(Num(300000)), Fn(FirstArgument));
    assert wrapped.Success?;
    result := cache.Call(wrapped.value, [Str("hello")]);
    store := cache.store;
    invocations := cache.fnArgs;
    issued := cache.writes;
  }

  /** `caching` rejects a wrapper whose arguments have the wrong types, in
      the order it checks them, and accepts a negative life. */
  method WrapTimeChecks(fn: JsFunction) returns (noFn: Result<Wrapper, string>, noLife: Result<Wrapper, string>, noKey: Result<Wrapper, string>, negative: Result<Wrapper, string>)
    ensures noFn == Failure(FnNotFunction)
    ensures noLife == Failure(LifeNotNumber)
    ensures noKey == Failure(KeyNotFunction)
    ensures negative.Success? && negative.value.life == -1
  {
    var cache := new Cache(Codec((j: Json) => "", (s: string) => None), map[]);
    noFn := cache.Caching(Data(Str("f")), Undef, Undef);
    noLife := cache.Caching(Fn(fn), Data(Str("300000")), Undef);
    noKey := cache.Caching(Fn(fn), Data(Num(0)), Data(Null));
    negative := cache.Caching(Fn(fn), Data(Num(-1)), Fn(FirstArgument));
  }
}
