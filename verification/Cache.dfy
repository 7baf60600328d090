/** The in-memory TTL cache, and its refinement of a plain map that holds only live entries. */
module Cache {
  import opened Entities

  type Key = string

  datatype Item<V> = Item(value: V, expiresAt: Option<Time>)
  {
    predicate Expired(now: Time) {
      expiresAt.Some? && now > expiresAt.value
    }
  }

  /** A non-positive TTL means no expiry. */
  function ExpiryOf(ttl: int, now: Time): Option<Time> {
    if ttl <= 0 then None else Some(now + ttl)
  }

  /** The entries that have not expired. */
  function Live<V>(items: map<Key, Item<V>>, now: Time): map<Key, Item<V>> {
    map k | k in items && !items[k].Expired(now) :: items[k]
  }

  function Without<V>(items: map<Key, Item<V>>, keys: seq<Key>): map<Key, Item<V>> {
    map k | k in items && k !in keys :: items[k]
  }

  // ---------- the operations on the stored map ----------

  function Lookup<V>(items: map<Key, Item<V>>, key: Key, now: Time): Option<V> {
    if key in items && !items[key].Expired(now) then Some(items[key].value) else None
  }

  /** The second half of a Get that met an expired entry: the entry is tested again before it goes. */
  function LazyDelete<V>(items: map<Key, Item<V>>, key: Key, now: Time): map<Key, Item<V>> {
    if key in items && items[key].Expired(now) then Without(items, [key]) else items
  }

  /** Set needs room only for a key the map does not hold, expired or not. */
  predicate SetFull<V>(items: map<Key, Item<V>>, max: nat, key: Key) {
    key !in items && |items| >= max
  }

  /** SetNX needs room whenever the key is not live, even if an expired entry would be replaced. */
  predicate SetNXFull<V>(items: map<Key, Item<V>>, max: nat, key: Key, now: Time) {
    Lookup(items, key, now).None? && |items| >= max
  }

  function Put<V>(items: map<Key, Item<V>>, key: Key, value: V, ttl: int, now: Time): map<Key, Item<V>> {
    items[key := Item(value, ExpiryOf(ttl, now))]
  }

  datatype SetNXReply = Claimed | Taken | Full

  /** One cache behind its lock. Every method reads the clock it is given. */
  class MemoryCache<V(==)> {
    var items: map<Key, Item<V>>
    const maxItems: nat

    constructor (maxItems: nat)
      ensures items == map[] && this.maxItems == maxItems
    {
      this.items := map[];
      this.maxItems := maxItems;
    }

    method Get(key: Key, now: Time, later: Time) returns (r: Option<V>)
      modifies this
      ensures r == Lookup(old(items), key, now)
      ensures items == if key in old(items) && old(items)[key].Expired(now) then LazyDelete(old(items), key, later)
                       else old(items)
    {
      if key !in items { return None; }
      var item := items[key];
      if item.Expired(now) {
        if key in items && items[key].Expired(later) {
          items := Without(items, [key]);
        }
        return None;
      }
      return Some(item.value);
    }

    method Set(key: Key, value: V, ttl: int, now: Time) returns (ok: bool)
      modifies this
      ensures ok == !SetFull(old(items), maxItems, key)
      ensures items == if ok then Put(old(items), key, value, ttl, now) else old(items)
      ensures |old(items)| <= maxItems ==> |items| <= maxItems
    {
      if key !in items && |items| >= maxItems { return false; }
      items := items[key := Item(value, ExpiryOf(ttl, now))];
      ok := true;
    }

    method SetNX(key: Key, value: V, ttl: int, now: Time) returns (r: SetNXReply)
      modifies this
      ensures r == if Lookup(old(items), key, now).Some? then Taken
                   else if SetNXFull(old(items), maxItems, key, now) then Full
                   else Claimed
      ensures items == if r == Claimed then Put(old(items), key, value, ttl, now) else old(items)
      ensures |old(items)| <= maxItems ==> |items| <= maxItems
    {
      if key in items && !items[key].Expired(now) { return Taken; }
      if |items| >= maxItems { return Full; }
      items := items[key := Item(value, ExpiryOf(ttl, now))];
      r := Claimed;
    }

    method Del(keys: seq<Key>)
      modifies this
      ensures items == Without(old(items), keys)
    {
      for i := 0 to |keys|
        invariant items == Without(old(items), keys[..i])
      {
        items := Without(items, [keys[i]]);
        assert keys[..i + 1] == keys[..i] + [keys[i]];
      }
      assert keys[..|keys|] == keys;
    }

    method Exists(key: Key, now: Time) returns (r: bool)
      ensures r == Lookup(items, key, now).Some?
    {
      r := key in items && !items[key].Expired(now);
    }

    method EvictExpired(now: Time)
      modifies this
      ensures items == Live(old(items), now)
    {
      var todo := items.Keys;
      while todo != {}
        invariant todo <= old(items).Keys
        invariant items == map k | k in old(items) && (k in todo || !old(items)[k].Expired(now)) :: old(items)[k]
        decreases |todo|
      {
        var k :| k in todo;
        if items[k].Expired(now) {
          items := Without(items, [k]);
        }
        todo := todo - {k};
      }
    }
  }

  // ---------- any schedule of operations ----------

  datatype Op<V> =
    | OpGet(key: Key)
    | OpSet(key: Key, value: V, ttl: int)
    | OpSetNX(key: Key, value: V, ttl: int)
    | OpDel(keys: seq<Key>)
    | OpExists(key: Key)
    | OpLazyDelete(key: Key)
    | OpEvict
    | OpWait(seconds: nat)

  datatype Reply<V> = Value(found: Option<V>) | Flag(b: bool) | Unit | CapacityError

  datatype Store<V> = Store(now: Time, items: map<Key, Item<V>>, max: nat)

  function Apply<V>(s: Store<V>, op: Op<V>): (Store<V>, Reply<V>) {
    match op
    case OpGet(key) => (s, Value(Lookup(s.items, key, s.now)))
    case OpSet(key, value, ttl) =>
      if SetFull(s.items, s.max, key) then (s, CapacityError)
      else (s.(items := Put(s.items, key, value, ttl, s.now)), Unit)
    case OpSetNX(key, value, ttl) =>
      if Lookup(s.items, key, s.now).Some? then (s, Flag(false))
      else if SetNXFull(s.items, s.max, key, s.now) then (s, CapacityError)
      else (s.(items := Put(s.items, key, value, ttl, s.now)), Flag(true))
    case OpDel(keys) => (s.(items := Without(s.items, keys)), Unit)
    case OpExists(key) => (s, Flag(Lookup(s.items, key, s.now).Some?))
    case OpLazyDelete(key) => (s.(items := LazyDelete(s.items, key, s.now)), Unit)
    case OpEvict => (s.(items := Live(s.items, s.now)), Unit)
    case OpWait(seconds) => (s.(now := s.now + seconds), Unit)
  }

  /** The reference: an unbounded map of live entries, to which eviction means nothing. */
  datatype Plain<V> = Plain(now: Time, live: map<Key, Item<V>>)

  function ApplyPlain<V>(p: Plain<V>, op: Op<V>): (Plain<V>, Reply<V>) {
    match op
    case OpGet(key) => (p, Value(if key in p.live then Some(p.live[key].value) else None))
    case OpSet(key, value, ttl) => (p.(live := p.live[key := Item(value, ExpiryOf(ttl, p.now))]), Unit)
    case OpSetNX(key, value, ttl) =>
      if key in p.live then (p, Flag(false))
      else (p.(live := p.live[key := Item(value, ExpiryOf(ttl, p.now))]), Flag(true))
    case OpDel(keys) => (p.(live := map k | k in p.live && k !in keys :: p.live[k]), Unit)
    case OpExists(key) => (p, Flag(key in p.live))
    case OpLazyDelete(_) => (p, Unit)
    case OpEvict => (p, Unit)
    case OpWait(seconds) =>
      (Plain(p.now + seconds, map k | k in p.live && !p.live[k].Expired(p.now + seconds) :: p.live[k]), Unit)
  }

  function RunCache<V>(max: nat, ops: seq<Op<V>>): Store<V> {
    if ops == [] then Store(0, map[], max) else Apply(RunCache(max, ops[..|ops| - 1]), ops[|ops| - 1]).0
  }

  /** The reference goes through the operations the cache did not refuse for lack of room. */
  function RunPlain<V>(max: nat, ops: seq<Op<V>>): Plain<V> {
    if ops == [] then Plain(0, map[])
    else
      var front, op := ops[..|ops| - 1], ops[|ops| - 1];
      if Apply(RunCache(max, front), op).1 == CapacityError then RunPlain(max, front)
      else ApplyPlain(RunPlain(max, front), op).0
  }

  ghost predicate Mirrors<V(!new)>(s: Store<V>, p: Plain<V>) {
    s.now == p.now && Live(s.items, s.now) == p.live && |s.items| <= s.max
  }

  lemma PutIsLive<V>(items: map<Key, Item<V>>, key: Key, value: V, ttl: int, now: Time)
    ensures Live(Put(items, key, value, ttl, now), now) == Live(items, now)[key := Item(value, ExpiryOf(ttl, now))]
  {
  }

  lemma FewerItems<V>(small: map<Key, Item<V>>, big: map<Key, Item<V>>)
    requires small.Keys <= big.Keys
    ensures |small| <= |big|
  {
    assert big.Keys == small.Keys + (big.Keys - small.Keys);
  }

  lemma StepMirrors<V(!new)>(s: Store<V>, p: Plain<V>, op: Op<V>)
    requires Mirrors(s, p)
    ensures var (s', r) := Apply(s, op);
            if r == CapacityError then Mirrors(s', p) else Mirrors(s', ApplyPlain(p, op).0) && r == ApplyPlain(p, op).1
  {
    var s' := Apply(s, op).0;
    match op {
      case OpSet(key, value, ttl) =>
        PutIsLive(s.items, key, value, ttl, s.now);
        if key in s.items { assert s'.items.Keys == s.items.Keys; FewerItems(s'.items, s.items); }
      case OpSetNX(key, value, ttl) =>
        PutIsLive(s.items, key, value, ttl, s.now);
      case OpDel(_) => FewerItems(s'.items, s.items);
      case OpLazyDelete(_) => FewerItems(s'.items, s.items);
      case OpEvict => FewerItems(s'.items, s.items);
      case _ =>
    }
  }

  /** In any schedule the cache holds exactly the reference's live entries, never more than its capacity. */
  lemma {:induction false} CacheRefinesPlainMap<V(!new)>(max: nat, ops: seq<Op<V>>)
    ensures Mirrors(RunCache(max, ops), RunPlain(max, ops))
  {
    if ops != [] {
      CacheRefinesPlainMap(max, ops[..|ops| - 1]);
      StepMirrors(RunCache(max, ops[..|ops| - 1]), RunPlain(max, ops[..|ops| - 1]), ops[|ops| - 1]);
    }
  }

  /** Every reply but a capacity error is the reference's. */
  lemma {:induction false} RepliesAgree<V(!new)>(max: nat, ops: seq<Op<V>>, op: Op<V>)
    requires Apply(RunCache(max, ops), op).1 != CapacityError
    ensures Apply(RunCache(max, ops), op).1 == ApplyPlain(RunPlain(max, ops), op).1
  {
    CacheRefinesPlainMap(max, ops);
    StepMirrors(RunCache(max, ops), RunPlain(max, ops), op);
  }

  lemma {:induction false} MaxIsFixed<V>(max: nat, ops: seq<Op<V>>)
    ensures RunCache(max, ops).max == max
  {
    if ops != [] {
      MaxIsFixed(max, ops[..|ops| - 1]);
    }
  }

  /** A capacity error means a full map, and a key that Set does not hold or SetNX does not find live. */
  lemma CapacityErrorIff<V(!new)>(max: nat, ops: seq<Op<V>>, op: Op<V>)
    ensures Apply(RunCache(max, ops), op).1 == CapacityError <==>
              && |RunCache(max, ops).items| == max
              && ((op.OpSet? && op.key !in RunCache(max, ops).items)
                  || (op.OpSetNX? && op.key !in RunPlain(max, ops).live))
  {
    CacheRefinesPlainMap(max, ops);
    var s, p := RunCache(max, ops), RunPlain(max, ops);
    assert s.max == max by { MaxIsFixed(max, ops); }
    if op.OpSetNX? {
      assert op.key in Live(s.items, s.now) <==> op.key in p.live;
    }
  }

  /** A stored value is found for exactly its time to live after any wait, and for ever if that is not positive. */
  lemma TimeToLiveExact<V(!new)>(s: Store<V>, op: Op<V>, wait: nat)
    requires (op.OpSet? && Apply(s, op).1 == Unit) || (op.OpSetNX? && Apply(s, op).1 == Flag(true))
    ensures var later := Apply(Apply(s, op).0, OpWait(wait)).0;
            Apply(later, OpGet(op.key)).1 == Value(if op.ttl <= 0 || wait <= op.ttl then Some(op.value) else None)
  {
  }

  /** A lazy delete or an eviction, at whatever moment, removes no live entry. */
  lemma EvictionKeepsLive<V(!new)>(max: nat, ops: seq<Op<V>>, op: Op<V>)
    requires op.OpLazyDelete? || op.OpEvict?
    ensures var s := RunCache(max, ops);
            forall k :: k in Live(s.items, s.now) ==> k in Apply(s, op).0.items && Apply(s, op).0.items[k] == s.items[k]
  {
  }
}
