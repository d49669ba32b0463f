# tea-cache in Dafny

A model of the `Cache` class of tea-cache (`src/index.ts`), a cache-aside
layer over a Redis client, with proofs of what it does.

- `get(key)` reads the raw string under `key`. Nil and the empty string give
  `undefined`. Any other string is parsed as JSON, and the string itself is
  the value when parsing throws.
- `set(key, value, life)` issues `SET key value` when `life` is exactly 0.
  Any other number, negative ones included, issues `SETEX key life value`.
  It returns the server's reply.
- `caching(fn, life, getKey)` checks its three arguments' types when it is
  called and returns a memoized wrapper. A call of the wrapper derives the
  key from its spread arguments and looks it up. A truthy result is returned
  without running `fn`. Otherwise `fn` runs with the whole argument list as
  ONE array argument, its `JSON.stringify`d result is written under the same
  key with the same `life`, and the result is returned.

JavaScript truthiness is reproduced, not repaired. A cached value that
parses to `null`, `false`, `0` or `""` is a miss, so such a result is
recomputed on every call (`FalsyResultIsRecomputed`). A stored non-empty
string that is not JSON is always a hit on that string; the empty string is
a miss.

Files:

- `wrappers.dfy`: `Option` and `Result`.
- `js.dfy`: JSON values and `Truthy`, the value `get` resolves to (`undefined`
  or JSON), the runtime's JSON codec as a pair of function values,
  completions (return or throw) of JavaScript calls, and the dynamically
  typed arguments of `caching` with lodash's `isFunction` / `isNumber`.
- `store.dfy`: the Redis server as a map from keys to entries (string plus
  the TTL of its last write), the SET / SETEX commands, replay of a command
  log, and "last write wins".
- `cache.dfy`: the class `Cache`. Its fields are the server's contents, the
  codec, a ghost log of every write issued and a ghost log of every argument
  a wrapped `fn` received. `Valid()` says the store is exactly the replay of
  the write log over the initial contents. `Get` is a function; `Set` and the
  wrapper call `Call` are methods. `Call` is proved against `Wrapped`, a
  function giving one call's result, `fn` invocation and writes in terms of
  the store it finds.
- `cache_properties.dfy`: lemmas about `Wrapped` and the store, including
  successive calls (`Session`).
- `cache_scenarios.dfy`: client methods that drive the class through the
  two caching tests of the repository (a miss that computes and stores a
  user record, a hit on stored text) and through the wrap-time checks.

Where the library's documentation and `src/index.ts` disagree, the model
follows the code:

- Any non-zero life, negative or not, takes the SETEX path.
- An empty stored string reads as `undefined`, not only a missing key.
- `caching` only checks that `life` is a number. Its message reads "great
  then 0", but 0 and negative lives pass.

## Model

| member | source | states |
|---|---|---|
| `TeaCache.Cache.constructor` | src/index.ts:16-24 | the cache starts over the server's current contents with empty write and `fn` logs, and `Valid()` holds |
| `TeaCache.Cache.Get` | src/index.ts:26-40 | `undefined` exactly when the key is missing or holds `""`; otherwise the parsed value when the string parses, and the raw string when it does not |
| `TeaCache.Dispatch` | src/index.ts:42-51 | the write keeps key and value; it is SET exactly when life is 0, and otherwise SETEX carrying that life |
| `TeaCache.Cache.Set` | src/index.ts:42-51 | life 0 logs exactly one SET of (key, value); any other life logs exactly one SETEX(key, life, value); the key now holds the value with no TTL or that TTL; nothing else changes; the reply is returned unchanged; `Valid()` is kept |
| `TeaCache.Cache.Caching` | src/index.ts:53-57 | fails exactly when `fn` is not a function, `life` is not a number or `getKey` is not a function, with the message of the first failing check in that order; otherwise the wrapper closes over `fn`, the numeric life (0 and negatives included) and `getKey` |
| `TeaCache.Cache.Call` | src/index.ts:58-70 | the call's result, writes and `fn` invocation are those of `Wrapped` on the old store; a hit returns the cached value and changes nothing; a miss logs one `fn` call with `Arr(args)`, and when `fn` returns it writes `Dispatch(key, stringify(res), life)` and returns `res`; `Valid()` is kept |
| `Store.LastWrite` | src/index.ts:42-51 | the write it picks is a write of the key in the log with no later write of that key; there is none exactly when no write touched the key |
| `TeaCache.Cache.StoreFollowsWriteLog` | src/index.ts:42-51 | under `Valid()` a key some write touched holds the entry its last write left, and any other key holds what the server held at construction |
| `Store.LastWriteWins` | src/index.ts:42-51 | after any sequence of SET/SETEX writes a key holds the entry left by its last write, and a key never written keeps its old entry or stays absent |
| `CacheProperties.WriteThenGet` | src/index.ts:26-51 | after `set(key, value, life)`, `get(key)` decodes exactly `value` whatever the life, and other keys read as before |
| `CacheProperties.StringifiedValueReadsBack` | src/index.ts:31-33 | a value whose stringified form parses back to it comes back deep-equal from `get` after being written |
| `CacheProperties.RawStringReadsBack` | src/index.ts:31-37 | a written non-empty string that is not JSON comes back unchanged; a written empty string reads as `undefined` |
| `CacheProperties.HitSkipsFn` | src/index.ts:59-63 | when the looked-up value is truthy the call returns it, does not run `fn` and writes nothing |
| `CacheProperties.MissInvokesFn` | src/index.ts:59-69 | on a miss `fn` runs once with the argument array; if it returns, its stringified result is written under the derived key with the wrapper's life and returned; if it throws, the error propagates and nothing is written |
| `CacheProperties.KeyThrowPropagates` | src/index.ts:58-59 | an exception from `getKey` ends the call before the store or `fn` is touched |
| `CacheProperties.FalsyStoredValueIsMiss` | src/index.ts:61-63 | a stored string that parses to a falsy JSON value makes the call run `fn` |
| `CacheProperties.NonJsonStoredStringIsHit` | src/index.ts:31-63 | a stored non-empty string that is not JSON is a hit on that string: no `fn` call, no write |
| `CacheProperties.RepeatCallHits` | src/index.ts:58-70 | after a call that returned a truthy value (cached, or computed and round-tripping through the codec) the same call again is a hit on that same value, with no `fn` call and no write |
| `CacheProperties.FalsyResultIsRecomputed` | src/index.ts:61-67 | when `fn` produced a falsy value on a miss, the next identical call runs `fn` again and repeats the same write and result |
| `CacheProperties.CachedKeyIsNeverRecomputed` | src/index.ts:58-70 | over any run of successive wrapper calls, a key that holds a truthy value is not recomputed while the server keeps the entry (nothing expires in the model): each call deriving it hits on that value without running `fn`, no call writes it, and it keeps its entry |
| `CacheScenarios.MissComputesUser` | test/index.test.ts:231-277 | with nothing stored under "hello" and `fn` answering the user record, the one call runs `fn` once with `["hello"]`, issues SETEX("hello", 300000, stringify(user)), leaves exactly that entry in the store and resolves to the record |
| `CacheScenarios.HitOnStoredText` | test/index.test.ts:193-229 | with the non-JSON text `OK` stored under "hello" the call returns the string "OK", runs nothing and writes nothing |
| `CacheScenarios.WrapTimeChecks` | src/index.ts:54-56 | each type check fails with its own message, in order, and a negative life is accepted |

## Left out

- The Redis client and `promisify` binding in the constructor (src/index.ts:16-24) are I/O over a library outside this model. The constructor takes the server's contents and the JSON codec instead.
- Failures of the server or connection are not modelled. Every GET, SET and SETEX succeeds, and writes are answered with Redis's "OK". The code passes such failures through unchanged, and the model has none to pass.
- Redis rejects SETEX with a life of 0 or below with an error reply. The server is abstract here: it records the TTL it was sent, and the cache sends any non-zero life, as the code does.
- Entries actually expiring is the server's job. An entry only records the TTL of its last write.
- `JSON.parse` and `JSON.stringify` are foreign code. They are the two function values of `Codec`. Their round trip is a per-value hypothesis `RoundTrips` wherever a lemma relies on it; it is never assumed globally.
- JSON numbers are integers. Fractions, `-0`, `NaN` and `Infinity` are not modelled, and neither is lodash `isNumber`'s acceptance of them or of `Number` objects.
- A function returning `undefined` (whose `JSON.stringify` is `undefined`) is not modelled: JSON values here have no `undefined`.
- TeaCache.Cache.Call: requires `getKey` to return a string when it returns. The Redis client's coercion of other key types is not modelled.
- CacheProperties.FalsyResultIsRecomputed, CacheProperties.RepeatCallHits, CacheProperties.CachedKeyIsNeverRecomputed: `fn` and `getKey` are pure, deterministic functions of their arguments (`JsFunction`), so a second call with the same arguments derives the same key and gets the same result. A `fn` with side effects (writing the cache itself, say) or a `getKey` that reads the clock cannot be expressed. These lemmas also rely on entries never expiring and on no other client writing the store, so "never recomputed" holds only while the server keeps the entry.
- Asynchronous interleaving, including concurrent misses on one key that both run `fn`, is not modelled. Each wrapper call is one sequential step. `Store.LastWriteWins` states what the server holds after any order of writes.
- src/types.ts holds only an interface and the `RedisError = string | null` alias, with no behaviour. The value `get` resolves to is `undefined` or a JSON value.
- test/index.test.ts is a mock harness. It is used only in the `CacheScenarios` methods.
