/** The idempotency middleware over the in-memory cache: claim, replay and release of a request key. */
module Idempotency {
  import opened Entities
  import opened Cache

  const TTL := 24 * 60 * 60
  const GUARD_TTL := 30

  datatype Response = Response(status: int, headers: map<string, string>, body: string)

  /** What a key holds: the processing guard, or the recorded response (its JSON form is a faithful copy). */
  datatype Entry = Guard | Recorded(response: Response)

  type Items = map<Key, Item<Entry>>

  /** "idempotency:{merchant}:{key}". */
  function CacheKey(merchant: string, key: string): Key {
    "idempotency:" + merchant + ":" + key
  }

  /** Merchant ids hold no colon, so no two merchants share a cache key. */
  lemma CacheKeysDiffer(m1: string, k1: string, m2: string, k2: string)
    requires ':' !in m1 && ':' !in m2 && CacheKey(m1, k1) == CacheKey(m2, k2)
    ensures m1 == m2 && k1 == k2
  {
    var prefix := "idempotency:";
    var a, b := m1 + ":" + k1, m2 + ":" + k2;
    assert CacheKey(m1, k1) == prefix + a && CacheKey(m2, k2) == prefix + b;
    assert a == (prefix + a)[|prefix|..] == b;
    assert a[|m1|] == ':' && b[|m2|] == ':';
    assert forall j :: 0 <= j < |m1| ==> a[j] == m1[j];
    assert forall j :: 0 <= j < |m2| ==> b[j] == m2[j];
    assert !(|m1| < |m2|) && !(|m2| < |m1|);
    assert m1 == a[..|m1|] && m2 == b[..|m2|] && k1 == a[|m1| + 1..] && k2 == b[|m2| + 1..];
  }

  /** How a request is met on arrival. */
  datatype Arrival = RunGuarded | Replay(response: Response) | Conflict | RunUnprotected

  /** The claim and, if it is lost, the lookup. */
  function Meet(items: Items, max: nat, key: Key, now: Time, cacheUp: bool): Arrival {
    if !cacheUp then RunUnprotected
    else if Lookup(items, key, now).None? then (if |items| >= max then RunUnprotected else RunGuarded)
    else match items[key].value
      case Guard => Conflict
      case Recorded(r) => Replay(r)
  }

  predicate Succeeded(handlerError: bool, r: Response) {
    !handlerError && r.status < 500
  }

  /** The end of a guarded handler: record its response, or release the key. */
  function Finish(items: Items, max: nat, key: Key, now: Time, handlerError: bool, r: Response, cacheUp: bool): Items {
    if !cacheUp then items
    else if !Succeeded(handlerError, r) then Without(items, [key])
    else if SetFull(items, max, key) then items
    else Put(items, key, Recorded(r), TTL, now)
  }

  /** The middleware up to the handler. */
  method Begin(cache: MemoryCache<Entry>, merchant: string, header: string, now: Time, cacheUp: bool)
    returns (a: Arrival)
    modifies cache
    ensures header == "" || merchant == "" ==> a == RunUnprotected && cache.items == old(cache.items)
    ensures header != "" && merchant != "" ==>
              var key := CacheKey(merchant, header);
              && a == Meet(old(cache.items), cache.maxItems, key, now, cacheUp)
              && cache.items == if a == RunGuarded then Put(old(cache.items), key, Guard, GUARD_TTL, now)
                                else old(cache.items)
  {
    if header == "" || merchant == "" { return RunUnprotected; }
    if !cacheUp { return RunUnprotected; }
    var key := CacheKey(merchant, header);
    var claimed := cache.SetNX(key, Guard, GUARD_TTL, now);
    match claimed {
      case Full => return RunUnprotected;
      case Claimed => return RunGuarded;
      case Taken =>
        var val := cache.Get(key, now, now);
        match val.value {
          case Guard => return Conflict;
          case Recorded(r) => return Replay(r);
        }
    }
  }

  /** The middleware after the handler of a request it guarded. */
  method Complete(cache: MemoryCache<Entry>, key: Key, now: Time, handlerError: bool, r: Response, cacheUp: bool)
    modifies cache
    ensures cache.items == Finish(old(cache.items), cache.maxItems, key, now, handlerError, r, cacheUp)
  {
    if !cacheUp { return; }
    if handlerError || r.status >= 500 {
      cache.Del([key]);
      return;
    }
    var ok := cache.Set(key, Recorded(r), TTL, now);
  }

  // ---------- the protocol as a step machine ----------

  datatype Request = Running(key: Key, claimedAt: Time) | Ended

  datatype Outcome =
    | Executed(response: Response)
    | HandlerFailed
    | Replayed(response: Response)
    | Refused409
    | Unprotected

  /** A request answered: on arrival, or when its handler ended. */
  datatype Served = Served(key: Key, at: Time, how: Outcome)

  datatype Gate = Gate(now: Time, items: Items, max: nat, requests: seq<Request>, served: seq<Served>)

  datatype GateAction =
    | Arrive(key: Key, cacheUp: bool)
    | HandlerEnds(i: nat, handlerError: bool, response: Response, cacheUp: bool)
    | Elapse(seconds: nat)
    | EvictAll
    | EvictOne(key: Key)

  function Serve(g: Gate, key: Key, how: Outcome): Gate {
    g.(served := g.served + [Served(key, g.now, how)])
  }

  function Step(g: Gate, a: GateAction): Gate {
    match a
    case Arrive(key, cacheUp) =>
      (match Meet(g.items, g.max, key, g.now, cacheUp)
       case RunGuarded =>
         g.(items := Put(g.items, key, Guard, GUARD_TTL, g.now), requests := g.requests + [Running(key, g.now)])
       case Replay(r) => Serve(g, key, Replayed(r))
       case Conflict => Serve(g, key, Refused409)
       case RunUnprotected => Serve(g, key, Unprotected))
    case HandlerEnds(i, handlerError, r, cacheUp) =>
      if i < |g.requests| && g.requests[i].Running? then
        var key := g.requests[i].key;
        var items := Finish(g.items, g.max, key, g.now, handlerError, r, cacheUp);
        Serve(g.(items := items, requests := g.requests[i := Ended]),
              key, if Succeeded(handlerError, r) then Executed(r) else HandlerFailed)
      else g
    case Elapse(seconds) => g.(now := g.now + seconds)
    case EvictAll => g.(items := Live(g.items, g.now))
    case EvictOne(key) => g.(items := LazyDelete(g.items, key, g.now))
  }

  function Run(max: nat, actions: seq<GateAction>): Gate {
    if actions == [] then Gate(0, map[], max, [], [])
    else Step(Run(max, actions[..|actions| - 1]), actions[|actions| - 1])
  }

  lemma RunAppend(max: nat, actions: seq<GateAction>, a: GateAction)
    ensures Run(max, actions + [a]) == Step(Run(max, actions), a)
  {
    assert (actions + [a])[..|actions|] == actions;
  }

  // ---------- handlers within their guard, and a cache that answers ----------

  /** Handlers end while their guard lasts, and no cache call fails. */
  ghost predicate Timely(g: Gate, a: GateAction) {
    match a
    case Arrive(key, cacheUp) => Meet(g.items, g.max, key, g.now, cacheUp) != RunUnprotected
    case HandlerEnds(_, _, _, cacheUp) => cacheUp
    case Elapse(seconds) =>
      forall i :: 0 <= i < |g.requests| && g.requests[i].Running? ==>
        g.now + seconds <= g.requests[i].claimedAt + GUARD_TTL
    case _ => true
  }

  ghost predicate TimelyRun(max: nat, actions: seq<GateAction>) {
    actions == [] ||
    (TimelyRun(max, actions[..|actions| - 1]) && Timely(Run(max, actions[..|actions| - 1]), actions[|actions| - 1]))
  }

  /** The last successful handler run for a key. */
  function LastSuccess(served: seq<Served>, key: Key): (r: Option<Served>)
    ensures r.Some? ==> r.value.key == key && r.value.how.Executed?
  {
    if served == [] then None
    else
      var last := served[|served| - 1];
      if last.key == key && last.how.Executed? then Some(last) else LastSuccess(served[..|served| - 1], key)
  }

  /** At this time a success of the key is at most 24 hours old. */
  predicate InWindow(served: seq<Served>, key: Key, now: Time) {
    var last := LastSuccess(served, key);
    last.Some? && now <= last.value.at + TTL
  }

  /** A request in the window of a success is answered with exactly its recorded response, and one outside
      any window never with a replay: it runs, or meets a running one with 409. */
  ghost predicate WellServed(served: seq<Served>) {
    served == [] ||
    var front, last := served[..|served| - 1], served[|served| - 1];
    && WellServed(front)
    && last.how != Unprotected
    && (if InWindow(front, last.key, last.at) then last.how == Replayed(LastSuccess(front, last.key).value.how.response)
        else !last.how.Replayed?)
  }

  lemma ServedAppend(served: seq<Served>, s: Served)
    ensures forall key ::
              LastSuccess(served + [s], key)
              == if s.key == key && s.how.Executed? then Some(s) else LastSuccess(served, key)
    ensures WellServed(served + [s]) <==>
              && WellServed(served) && s.how != Unprotected
              && (if InWindow(served, s.key, s.at) then s.how == Replayed(LastSuccess(served, s.key).value.how.response)
                  else !s.how.Replayed?)
  {
    assert (served + [s])[..|served|] == served;
  }

  ghost predicate InOrder(served: seq<Served>, now: Time) {
    && (forall i :: 0 <= i < |served| ==> served[i].at <= now)
    && (forall i, j :: 0 <= i < j < |served| ==> served[i].at <= served[j].at)
  }

  predicate IsRunning(requests: seq<Request>, key: Key) {
    exists i :: 0 <= i < |requests| && requests[i].Running? && requests[i].key == key
  }

  ghost predicate Distinct(requests: seq<Request>) {
    forall i, j :: 0 <= i < j < |requests| && requests[i].Running? && requests[j].Running? ==>
      requests[i].key != requests[j].key
  }

  /** What the cache says of a key: its response in the window, a guard while its handler runs, else nothing. */
  ghost predicate KeyState(g: Gate, key: Key) {
    if InWindow(g.served, key, g.now) then
      var last := LastSuccess(g.served, key).value;
      && key in g.items && g.items[key] == Item(Recorded(last.how.response), Some(last.at + TTL))
      && !IsRunning(g.requests, key)
    else
      Lookup(g.items, key, g.now).Some? ==> IsRunning(g.requests, key)
  }

  ghost predicate Guarded(items: Items, now: Time, r: Request) {
    r.Running? ==>
      && now <= r.claimedAt + GUARD_TTL
      && r.key in items && items[r.key] == Item(Guard, Some(r.claimedAt + GUARD_TTL))
  }

  ghost predicate AllGuarded(g: Gate) {
    forall r :: r in g.requests ==> Guarded(g.items, g.now, r)
  }

  ghost predicate GateKept(g: Gate) {
    && WellServed(g.served) && InOrder(g.served, g.now)
    && (forall key :: KeyState(g, key))
    && AllGuarded(g) && Distinct(g.requests)
  }

  lemma RunningAppend(requests: seq<Request>, r: Request)
    requires r.Running?
    ensures forall k :: IsRunning(requests + [r], k) <==> k == r.key || IsRunning(requests, k)
  {
    var after := requests + [r];
    assert after[|requests|] == r;
    forall k | IsRunning(requests, k) ensures IsRunning(after, k) {
      var i :| 0 <= i < |requests| && requests[i].Running? && requests[i].key == k;
      assert after[i] == requests[i];
    }
  }

  lemma RunningEnded(requests: seq<Request>, i: nat)
    requires i < |requests| && requests[i].Running? && Distinct(requests)
    ensures forall k :: IsRunning(requests[i := Ended], k) <==> k != requests[i].key && IsRunning(requests, k)
  {
    var after := requests[i := Ended];
    forall k | k != requests[i].key && IsRunning(requests, k) ensures IsRunning(after, k) {
      var j :| 0 <= j < |requests| && requests[j].Running? && requests[j].key == k;
      assert after[j] == requests[j];
    }
    forall k | IsRunning(after, k) ensures k != requests[i].key && IsRunning(requests, k) {
      var j :| 0 <= j < |after| && after[j].Running? && after[j].key == k;
      assert j != i && requests[j] == after[j];
    }
  }

  /** On arrival the three answers tell three exclusive states apart. */
  lemma MeetTells(g: Gate, key: Key)
    requires GateKept(g)
    ensures var last := LastSuccess(g.served, key);
            match Meet(g.items, g.max, key, g.now, true)
            case Replay(r) =>
              InWindow(g.served, key, g.now) && r == last.value.how.response && !IsRunning(g.requests, key)
            case Conflict => !InWindow(g.served, key, g.now) && IsRunning(g.requests, key)
            case RunGuarded => !InWindow(g.served, key, g.now) && !IsRunning(g.requests, key) && |g.items| < g.max
            case RunUnprotected => !InWindow(g.served, key, g.now) && !IsRunning(g.requests, key) && |g.items| >= g.max
  {
    assert KeyState(g, key);
    if IsRunning(g.requests, key) {
      var i :| 0 <= i < |g.requests| && g.requests[i].Running? && g.requests[i].key == key;
      assert Guarded(g.items, g.now, g.requests[i]);
    }
  }

  lemma ClaimKeeps(g: Gate, key: Key)
    requires GateKept(g) && Meet(g.items, g.max, key, g.now, true) == RunGuarded
    ensures GateKept(Step(g, Arrive(key, true)))
  {
    var g' := Step(g, Arrive(key, true));
    var r := Running(key, g.now);
    MeetTells(g, key);
    RunningAppend(g.requests, r);
    forall k ensures KeyState(g', k) { assert KeyState(g, k); }
    forall q | q in g'.requests ensures Guarded(g'.items, g'.now, q) {
      if q != r { assert q in g.requests && Guarded(g.items, g.now, q); }
    }
    assert Distinct(g'.requests);
  }

  lemma AnswerKeeps(g: Gate, key: Key)
    requires GateKept(g)
    requires var how := Meet(g.items, g.max, key, g.now, true); how.Conflict? || how.Replay?
    ensures GateKept(Step(g, Arrive(key, true)))
  {
    var how := Meet(g.items, g.max, key, g.now, true);
    var s := Served(key, g.now, if how.Conflict? then Refused409 else Replayed(how.response));
    var g' := g.(served := g.served + [s]);
    MeetTells(g, key);
    ServedAppend(g.served, s);
    forall k ensures KeyState(g', k) { assert KeyState(g, k); }
  }

  lemma OtherKeyKept(g: Gate, g': Gate, k: Key)
    requires KeyState(g, k) && g'.now == g.now && LastSuccess(g'.served, k) == LastSuccess(g.served, k)
    requires IsRunning(g'.requests, k) <==> IsRunning(g.requests, k)
    requires k in g.items <==> k in g'.items
    requires k in g.items ==> g'.items[k] == g.items[k]
    ensures KeyState(g', k)
  {
  }

  lemma HandlerEndKeepsKeys(g: Gate, i: nat, handlerError: bool, r: Response, k: Key)
    requires GateKept(g) && i < |g.requests| && g.requests[i].Running?
    ensures KeyState(Step(g, HandlerEnds(i, handlerError, r, true)), k)
  {
    var g' := Step(g, HandlerEnds(i, handlerError, r, true));
    var key := g.requests[i].key;
    assert g'.requests == g.requests[i := Ended] && g'.now == g.now;
    assert key in g.items by { assert Guarded(g.items, g.now, g.requests[i]); }
    RunningEnded(g.requests, i);
    var s := Served(key, g.now, if Succeeded(handlerError, r) then Executed(r) else HandlerFailed);
    assert g'.served == g.served + [s];
    ServedAppend(g.served, s);
    if k != key {
      OtherKeyKept(g, g', k);
    } else {
      assert KeyState(g, key);
      assert IsRunning(g.requests, key);
    }
  }

  lemma HandlerEndKeeps(g: Gate, i: nat, handlerError: bool, r: Response)
    requires GateKept(g) && i < |g.requests| && g.requests[i].Running?
    ensures GateKept(Step(g, HandlerEnds(i, handlerError, r, true)))
  {
    var g' := Step(g, HandlerEnds(i, handlerError, r, true));
    var key := g.requests[i].key;
    forall k ensures KeyState(g', k) { HandlerEndKeepsKeys(g, i, handlerError, r, k); }
    forall q | q in g'.requests ensures Guarded(g'.items, g'.now, q) {
      if q.Running? {
        var j :| 0 <= j < |g'.requests| && g'.requests[j] == q;
        assert g.requests[j] == q && Guarded(g.items, g.now, q) && q.key != key;
      }
    }
    assert Distinct(g'.requests);
    assert WellServed(g'.served) && InOrder(g'.served, g.now) by {
      assert KeyState(g, key) && IsRunning(g.requests, key);
      ServedAppend(g.served, Served(key, g.now, if Succeeded(handlerError, r) then Executed(r) else HandlerFailed));
    }
  }

  lemma ElapseKeeps(g: Gate, seconds: nat)
    requires GateKept(g) && Timely(g, Elapse(seconds))
    ensures GateKept(Step(g, Elapse(seconds)))
  {
    var g' := Step(g, Elapse(seconds));
    forall k ensures KeyState(g', k) { assert KeyState(g, k); }
    forall q | q in g'.requests ensures Guarded(g'.items, g'.now, q) { assert Guarded(g.items, g.now, q); }
  }

  /** Removing expired entries, all or one, changes nothing a request could see. */
  lemma EvictionKeeps(g: Gate, a: GateAction)
    requires GateKept(g) && (a.EvictAll? || a.EvictOne?)
    ensures GateKept(Step(g, a))
  {
    var g' := Step(g, a);
    forall k ensures KeyState(g', k) { assert KeyState(g, k); }
    forall q | q in g'.requests ensures Guarded(g'.items, g'.now, q) { assert Guarded(g.items, g.now, q); }
  }

  lemma {:induction false} TimelyRunsKeep(max: nat, actions: seq<GateAction>)
    requires TimelyRun(max, actions)
    ensures GateKept(Run(max, actions))
  {
    if actions != [] {
      var g, a := Run(max, actions[..|actions| - 1]), actions[|actions| - 1];
      TimelyRunsKeep(max, actions[..|actions| - 1]);
      match a {
        case Arrive(key, _) =>
          if Meet(g.items, g.max, key, g.now, true) == RunGuarded { ClaimKeeps(g, key); } else { AnswerKeeps(g, key); }
        case HandlerEnds(i, e, r, _) => if i < |g.requests| && g.requests[i].Running? { HandlerEndKeeps(g, i, e, r); }
        case Elapse(seconds) => ElapseKeeps(g, seconds);
        case _ => EvictionKeeps(g, a);
      }
    }
  }

  // ---------- the main results ----------

  lemma {:induction false} LastSuccessIsServed(served: seq<Served>, key: Key)
    requires LastSuccess(served, key).Some?
    ensures LastSuccess(served, key).value in served
  {
    var n := |served| - 1;
    if !(served[n].key == key && served[n].how.Executed?) {
      LastSuccessIsServed(served[..n], key);
      assert forall s :: s in served[..n] ==> s in served;
    }
  }

  lemma {:induction false} WellServedAt(served: seq<Served>, j: nat)
    requires WellServed(served) && j < |served|
    ensures WellServed(served[..j]) && WellServed(served[..j + 1])
  {
    var n := |served| - 1;
    assert served[..n + 1] == served;
    if j < n {
      WellServedAt(served[..n], j);
      assert served[..n][..j] == served[..j] && served[..n][..j + 1] == served[..j + 1];
    }
  }

  /** After a success every request of the key in its 24 hours is answered with exactly its response, so no
      second handler run succeeds; nothing is replayed but a success of the last 24 hours. */
  lemma IdempotentReplay(max: nat, actions: seq<GateAction>)
    requires TimelyRun(max, actions)
    ensures var served := Run(max, actions).served;
            && (forall i, j ::
                  0 <= i < j < |served| && served[i].key == served[j].key
                  && served[i].how.Executed? && served[j].at <= served[i].at + TTL
                  ==> served[j].how == Replayed(served[i].how.response))
            && (forall j :: 0 <= j < |served| && served[j].how.Replayed? ==>
                  exists i :: 0 <= i < j && served[i].key == served[j].key
                    && served[i].how == Executed(served[j].how.response) && served[j].at <= served[i].at + TTL)
  {
    TimelyRunsKeep(max, actions);
    var served := Run(max, actions).served;
    forall i, j | 0 <= i < j < |served| && served[i].key == served[j].key && served[i].how.Executed?
      && served[j].at <= served[i].at + TTL
      ensures served[j].how == Replayed(served[i].how.response)
    {
      ReplayedAfter(served, i, j);
    }
    forall j | 0 <= j < |served| && served[j].how.Replayed?
      ensures exists i :: 0 <= i < j && served[i].key == served[j].key
                && served[i].how == Executed(served[j].how.response) && served[j].at <= served[i].at + TTL
    {
      var i := ReplayedFrom(served, j);
    }
  }

  /** A replay has its success before it. */
  lemma ReplayedFrom(served: seq<Served>, j: nat) returns (i: nat)
    requires WellServed(served) && j < |served| && served[j].how.Replayed?
    ensures i < j && served[i].key == served[j].key
    ensures served[i].how == Executed(served[j].how.response) && served[j].at <= served[i].at + TTL
  {
    WellServedAt(served, j);
    assert served[..j + 1][..j] == served[..j];
    LastSuccessIsServed(served[..j], served[j].key);
    i :| 0 <= i < j && served[i] == LastSuccess(served[..j], served[j].key).value;
  }

  /** By induction on the requests between: each one answered after the success is a replay of it. */
  lemma {:induction false} ReplayedAfter(served: seq<Served>, i: nat, j: nat)
    requires i < j < |served| && WellServed(served)
    requires forall a, b :: 0 <= a < b < |served| ==> served[a].at <= served[b].at
    requires served[i].key == served[j].key && served[i].how.Executed? && served[j].at <= served[i].at + TTL
    ensures served[j].how == Replayed(served[i].how.response)
    decreases j
  {
    forall m | i < m < j && served[m].key == served[i].key ensures !served[m].how.Executed? {
      ReplayedAfter(served, i, m);
    }
    SoleSuccess(served, i, j);
    WellServedAt(served, j);
    assert served[..j + 1][..j] == served[..j];
  }

  lemma {:induction false} SoleSuccess(served: seq<Served>, i: nat, j: nat)
    requires i < j <= |served| && served[i].how.Executed?
    requires forall m :: i < m < j && served[m].key == served[i].key ==> !served[m].how.Executed?
    ensures LastSuccess(served[..j], served[i].key) == Some(served[i])
    decreases j
  {
    assert served[..j][..j - 1] == served[..j - 1];
    if i < j - 1 {
      SoleSuccess(served, i, j - 1);
    }
  }

  /** A request is run, refused or replayed exactly as the key is idle, running, or in its window. */
  lemma {:induction false} ArrivalTells(max: nat, actions: seq<GateAction>, key: Key)
    requires TimelyRun(max, actions)
    ensures var g := Run(max, actions);
            var met := Meet(g.items, g.max, key, g.now, true);
            && (met == Conflict <==> IsRunning(g.requests, key))
            && (met.Replay? <==> InWindow(g.served, key, g.now))
            && (met.RunGuarded? || met.RunUnprotected?
                <==> !IsRunning(g.requests, key) && !InWindow(g.served, key, g.now))
  {
    TimelyRunsKeep(max, actions);
    MeetTells(Run(max, actions), key);
  }

  // ---------- what is stored, in any state ----------

  /** The key has an entry that has not expired. */
  predicate HasLive(items: Items, key: Key, now: Time) {
    key in items && (items[key].expiresAt.None? || now <= items[key].expiresAt.value)
  }

  /** A request is met by what its key holds: a live guard, a live response, or nothing; without a cache, or without
      room for a guard, its handler runs unguarded. */
  lemma MeetExact(items: Items, max: nat, key: Key, now: Time, cacheUp: bool)
    ensures var met := Meet(items, max, key, now, cacheUp);
            && (met == Conflict <==> cacheUp && HasLive(items, key, now) && items[key].value == Guard)
            && (forall r ::
                  met == Replay(r) <==> cacheUp && HasLive(items, key, now) && items[key].value == Recorded(r))
            && (met == RunGuarded <==> cacheUp && !HasLive(items, key, now) && |items| < max)
            && (met == RunUnprotected <==> !cacheUp || (!HasLive(items, key, now) && |items| >= max))
  {
  }

  /** A guarded request leaves a guard for 30 seconds and nothing else; any other leaves the cache alone. */
  lemma ArriveEffect(g: Gate, key: Key, cacheUp: bool)
    ensures var g' := Step(g, Arrive(key, cacheUp));
            if Meet(g.items, g.max, key, g.now, cacheUp) == RunGuarded then
              g'.items == g.items[key := Item(Guard, Some(g.now + 30))] && g'.served == g.served
              && g'.requests == g.requests + [Running(key, g.now)]
            else g'.items == g.items && g'.requests == g.requests && |g'.served| == |g.served| + 1
  {
  }

  /** The end of a handler: after an error or a status from 500 the key is released and the next request runs; any
      other response is recorded for 24 hours and replayed to every request in them. */
  lemma {:induction false} HandlerEndDecides(
    max: nat, actions: seq<GateAction>, i: nat, handlerError: bool, r: Response)
    requires TimelyRun(max, actions) && i < |Run(max, actions).requests| && Run(max, actions).requests[i].Running?
    ensures var g, g' := Run(max, actions), Run(max, actions + [HandlerEnds(i, handlerError, r, true)]);
            var key := g.requests[i].key;
            && g'.requests == g.requests[i := Ended]
            && if handlerError || r.status >= 500 then
                 && key !in g'.items && g'.served == g.served + [Served(key, g.now, HandlerFailed)]
                 && !Meet(g'.items, g'.max, key, g'.now, true).Replay?
                 && !Meet(g'.items, g'.max, key, g'.now, true).Conflict?
               else
                 && g'.items == g.items[key := Item(Recorded(r), Some(g.now + 24 * 60 * 60))]
                 && g'.served == g.served + [Served(key, g.now, Executed(r))]
                 && forall t :: g.now <= t <= g.now + 24 * 60 * 60 ==> Meet(g'.items, g'.max, key, t, true) == Replay(r)
  {
    TimelyRunsKeep(max, actions);
    RunAppend(max, actions, HandlerEnds(i, handlerError, r, true));
    var g := Run(max, actions);
    assert Guarded(g.items, g.now, g.requests[i]);
  }

  /** While the cache does not answer, the end of a handler changes no entry: the guard runs out by itself. */
  lemma HandlerEndsUncached(g: Gate, i: nat, handlerError: bool, r: Response)
    requires i < |g.requests| && g.requests[i].Running?
    ensures var g' := Step(g, HandlerEnds(i, handlerError, r, false));
            && g'.items == g.items && g'.requests == g.requests[i := Ended]
            && g'.served == g.served + [Served(g.requests[i].key, g.now,
                                               if handlerError || r.status >= 500 then HandlerFailed else Executed(r))]
  {
  }

  ghost predicate NoErrorRecorded(g: Gate) {
    && (forall k <- g.items :: g.items[k].value.Recorded? ==> g.items[k].value.response.status < 500)
    && (forall s <- g.served :: s.how.Executed? || s.how.Replayed? ==> s.how.response.status < 500)
  }

  lemma StepNoError(g: Gate, a: GateAction)
    requires NoErrorRecorded(g)
    ensures NoErrorRecorded(Step(g, a))
  {
  }

  /** In every run, timely or not, no status from 500 is ever recorded, counted as a success, or replayed. */
  lemma {:induction false} NoServerErrorReplayed(max: nat, actions: seq<GateAction>)
    ensures NoErrorRecorded(Run(max, actions))
  {
    if actions != [] {
      NoServerErrorReplayed(max, actions[..|actions| - 1]);
      StepNoError(Run(max, actions[..|actions| - 1]), actions[|actions| - 1]);
    }
  }

  // ---------- where the assumptions end ----------

  /** A handler that overruns its guard, or whose record is not stored, admits a duplicate exactly when more than
      30 seconds have passed since the claim. */
  lemma {:induction false} GuardLastsThirtySeconds(max: nat, actions: seq<GateAction>, i: nat, seconds: nat)
    requires TimelyRun(max, actions)
    requires i < |Run(max, actions).requests| && Run(max, actions).requests[i].Running?
    ensures var g := Run(max, actions);
            var late := Run(max, actions + [Elapse(seconds)]);
            var met := Meet(late.items, late.max, g.requests[i].key, late.now, true);
            && (met == Conflict <==> g.now + seconds <= g.requests[i].claimedAt + GUARD_TTL)
            && (met == (if |g.items| < max then RunGuarded else RunUnprotected)
                <==> g.now + seconds > g.requests[i].claimedAt + GUARD_TTL)
  {
    TimelyRunsKeep(max, actions);
    RunAppend(max, actions, Elapse(seconds));
    MaxIsFixed(max, actions);
    var g := Run(max, actions);
    assert Guarded(g.items, g.now, g.requests[i]);
  }

  lemma {:induction false} MaxIsFixed(max: nat, actions: seq<GateAction>)
    ensures Run(max, actions).max == max
  {
    if actions != [] {
      MaxIsFixed(max, actions[..|actions| - 1]);
    }
  }

  lemma HandlerServes(g: Gate, i: nat, r: Response)
    requires i < |g.requests| && g.requests[i].Running? && r.status < 500
    ensures var g' := Step(g, HandlerEnds(i, false, r, true));
            && g'.served == g.served + [Served(g.requests[i].key, g.now, Executed(r))]
            && g'.requests == g.requests[i := Ended] && g'.now == g.now
  {
  }

  lemma {:induction false} DuplicateAdmitted(max: nat, actions: seq<GateAction>, i: nat, seconds: nat)
    requires TimelyRun(max, actions)
    requires var g := Run(max, actions);
             && i < |g.requests| && g.requests[i].Running? && |g.items| < max
             && g.now + seconds > g.requests[i].claimedAt + GUARD_TTL
    ensures var g := Run(max, actions);
            var g' := Run(max, actions + [Elapse(seconds)] + [Arrive(g.requests[i].key, true)]);
            && g'.requests == g.requests + [Running(g.requests[i].key, g.now + seconds)]
            && g'.served == g.served && g'.now == g.now + seconds
  {
    var key := Run(max, actions).requests[i].key;
    GuardLastsThirtySeconds(max, actions, i, seconds);
    RunAppend(max, actions, Elapse(seconds));
    RunAppend(max, actions + [Elapse(seconds)], Arrive(key, true));
  }

  /** Then both handlers can succeed, at the same moment: the window holds two successes. */
  lemma OverrunSucceedsTwice(max: nat, actions: seq<GateAction>, i: nat, seconds: nat, r1: Response, r2: Response)
    requires TimelyRun(max, actions) && r1.status < 500 && r2.status < 500
    requires var g := Run(max, actions);
             && i < |g.requests| && g.requests[i].Running? && |g.items| < max
             && g.now + seconds > g.requests[i].claimedAt + GUARD_TTL
    ensures var g := Run(max, actions);
            var key := g.requests[i].key;
            var after := Run(max, actions + [Elapse(seconds)] + [Arrive(key, true)]
                                  + [HandlerEnds(i, false, r1, true)] + [HandlerEnds(|g.requests|, false, r2, true)]);
            var late := g.now + seconds;
            after.served == g.served + [Served(key, late, Executed(r1)), Served(key, late, Executed(r2))]
  {
    var g := Run(max, actions);
    DuplicateAdmitted(max, actions, i, seconds);
    var a2 := actions + [Elapse(seconds)] + [Arrive(g.requests[i].key, true)];
    TwoSucceed(max, a2, i, |g.requests|, r1, r2, g.requests[i].key);
  }

  lemma TwoSucceed(max: nat, actions: seq<GateAction>, i: nat, j: nat, r1: Response, r2: Response, key: Key)
    requires r1.status < 500 && r2.status < 500
    requires var q := Run(max, actions).requests;
             && i < |q| && j < |q| && i != j && q[i].Running? && q[j].Running? && q[i].key == q[j].key == key
    ensures var g := Run(max, actions);
            Run(max, actions + [HandlerEnds(i, false, r1, true)] + [HandlerEnds(j, false, r2, true)]).served
            == g.served + [Served(key, g.now, Executed(r1)), Served(key, g.now, Executed(r2))]
  {
    var first, second := HandlerEnds(i, false, r1, true), HandlerEnds(j, false, r2, true);
    RunAppend(max, actions, first);
    HandlerServes(Run(max, actions), i, r1);
    RunAppend(max, actions + [first], second);
    HandlerServes(Run(max, actions + [first]), j, r2);
  }

  /** A response whose Set fails leaves the guard, so a retry after it expires runs the handler again. */
  lemma {:induction false} LostRecordRunsAgain(max: nat, actions: seq<GateAction>, i: nat, seconds: nat, r: Response)
    requires TimelyRun(max, actions) && r.status < 500
    requires i < |Run(max, actions).requests| && Run(max, actions).requests[i].Running?
    ensures var g := Run(max, actions);
            var late := Run(max, actions + [HandlerEnds(i, false, r, false)] + [Elapse(seconds)]);
            && LastSuccess(late.served, g.requests[i].key) == Some(Served(g.requests[i].key, g.now, Executed(r)))
            && Meet(late.items, late.max, g.requests[i].key, late.now, true)
               == if g.now + seconds <= g.requests[i].claimedAt + GUARD_TTL then Conflict
                  else if |g.items| < max then RunGuarded
                  else RunUnprotected
  {
    TimelyRunsKeep(max, actions);
    MaxIsFixed(max, actions);
    var g := Run(max, actions);
    assert Guarded(g.items, g.now, g.requests[i]);
    var ends := HandlerEnds(i, false, r, false);
    var s := Served(g.requests[i].key, g.now, Executed(r));
    RunAppend(max, actions, ends);
    assert Step(g, ends) == g.(requests := g.requests[i := Ended], served := g.served + [s]);
    ServedAppend(g.served, s);
    RunAppend(max, actions + [ends], Elapse(seconds));
  }
}
