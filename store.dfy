/** The Redis server behind the client, as far as the cache uses it: a map
    from keys to strings, written by SET and SETEX and read by GET. Expiry
    itself is the server's business; an entry only records the time-to-live
    its last write asked for. */
module Store {
  import opened Wrappers

  /** A stored string and the TTL it was written with (None: no expiry). */
  datatype Entry = Entry(value: string, ttl: Option<int>)

  /** A write the cache issues: `SET key value` or `SETEX key life value`. */
  datatype Command =
    | SetCmd(key: string, value: string)
    | SetExCmd(key: string, life: int, value: string)

  /** The status reply Redis gives to a successful SET or SETEX. */
  const Ok: string := "OK"

  /** What GET answers: the stored string, or nil. */
  function Lookup(store: map<string, Entry>, key: string): Option<string> {
    if key in store then Some(store[key].value) else None
  }

  /** The entry a command leaves under its key. A plain SET also drops any
      earlier TTL of the key. */
  function Effect(c: Command): Entry {
    match c
    case SetCmd(_, v) => Entry(v, None)
    case SetExCmd(_, life, v) => Entry(v, Some(life))
  }

  function Apply(store: map<string, Entry>, c: Command): map<string, Entry> {
    store[c.key := Effect(c)]
  }

  /** The store after the commands `cs`, oldest first. */
  function Replay(store: map<string, Entry>, cs: seq<Command>): map<string, Entry>
    decreases |cs|
  {
    if cs == [] then store else Apply(Replay(store, cs[..|cs| - 1]), cs[|cs| - 1])
  }

  /** The most recent command of `cs`, if any, that wrote `key`. */
  function LastWrite(cs: seq<Command>, key: string): (r: Option<Command>)
    ensures r.Some? ==> r.value in cs && r.value.key == key
    ensures r.None? <==> forall c | c in cs :: c.key != key
    ensures r.Some? ==>
      exists i | 0 <= i < |cs| :: cs[i] == r.value && forall j | i < j < |cs| :: cs[j].key != key
    decreases |cs|
  {
    if cs == [] then None
    else if cs[|cs| - 1].key == key then Some(cs[|cs| - 1])
    else
      assert cs == cs[..|cs| - 1] + [cs[|cs| - 1]];
      LastWrite(cs[..|cs| - 1], key)
  }

  /** Replaying two batches of commands one after the other is replaying
      their concatenation. */
  lemma {:induction false} ReplayConcat(store: map<string, Entry>, cs: seq<Command>, ds: seq<Command>)
    ensures Replay(store, cs + ds) == Replay(Replay(store, cs), ds)
    decreases |ds|
  {
    if ds == [] {
      assert cs + ds == cs;
    } else {
      var n := |ds| - 1;
      assert (cs + ds)[..|cs + ds| - 1] == cs + ds[..n];
      ReplayConcat(store, cs, ds[..n]);
    }
  }

  /** Last write wins: after a sequence of writes, a key holds what the most
      recent write to it left there, and a key nobody wrote keeps its old
      entry (or stays absent). */
  lemma {:induction false} LastWriteWins(store: map<string, Entry>, cs: seq<Command>, key: string)
    ensures LastWrite(cs, key).Some? ==>
      key in Replay(store, cs) && Replay(store, cs)[key] == Effect(LastWrite(cs, key).value)
    ensures LastWrite(cs, key).None? ==>
      (key in Replay(store, cs) <==> key in store) &&
      (key in store ==> Replay(store, cs)[key] == store[key])
    decreases |cs|
  {
    if cs != [] {
      LastWriteWins(store, cs[..|cs| - 1], key);
    }
  }
}
