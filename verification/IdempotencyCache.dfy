/** The idempotency cache: entries in order of last use, purged when their time is over
    and evicted, oldest use first, beyond the maximum. */
module IdempotencyCache {
  import opened Options

  const MAX_ENTRIES := 1000

  datatype Key = Key(tenant: string, name: string)

  /** A cached response, by its serialized form. */
  type Response = string

  datatype Entry = Entry(key: Key, expires: int, response: Response)

  type Cache = seq<Entry>

  // ---- The operations as functions ----

  function Filter(c: Cache, keep: Entry -> bool): (r: Cache)
    ensures |r| <= |c|
  {
    if c == [] then [] else (if keep(c[0]) then [c[0]] else []) + Filter(c[1..], keep)
  }

  function Purged(c: Cache, now: int): Cache {
    Filter(c, (e: Entry) => e.expires > now)
  }

  function Without(c: Cache, key: Key): Cache {
    Filter(c, (e: Entry) => e.key != key)
  }

  function Find(c: Cache, key: Key): Option<Entry> {
    if c == [] then None else if c[0].key == key then Some(c[0]) else Find(c[1..], key)
  }

  /** A hit moves the entry to the end, without prolonging it. */
  function Touched(c: Cache, key: Key, now: int): Cache {
    var live := Purged(c, now);
    var e := Find(live, key);
    if e.None? then live else Without(live, key) + [e.value]
  }

  function Newest(c: Cache): Cache {
    if |c| > MAX_ENTRIES then c[|c| - MAX_ENTRIES..] else c
  }

  function StoredIn(c: Cache, e: Entry, now: int): Cache {
    Newest(Without(Purged(c, now), e.key) + [e])
  }

  // ---- The executable form ----

  class ResponseCache {
    var entries: Cache

    constructor ()
      ensures entries == []
    {
      entries := [];
    }

    method PurgeExpired(now: int)
      modifies this
      ensures entries == Purged(old(entries), now)
    {
      var live: Cache := [];
      for k := |entries| downto 0
        invariant entries == old(entries) && live == Purged(entries[k..], now)
      {
        assert entries[k..][1..] == entries[k + 1..];
        if entries[k].expires > now {
          live := [entries[k]] + live;
        }
      }
      assert entries[0..] == entries;
      entries := live;
    }

    /** None when no key is given, and on a miss or an expired entry. */
    method GetResponse(key: Option<Key>, now: int) returns (r: Option<Response>)
      modifies this
      ensures key.None? ==> entries == old(entries) && r.None?
      ensures key.Some? ==> entries == Touched(old(entries), key.value, now)
      ensures key.Some? ==>
                var e := Find(Purged(old(entries), now), key.value);
                r == if e.Some? then Some(e.value.response) else None
    {
      if key.None? {
        return None;
      }
      PurgeExpired(now);
      var e := Find(entries, key.value);
      if e.None? {
        return None;
      }
      entries := Without(entries, key.value) + [e.value];
      r := Some(e.value.response);
    }

    method StoreResponse(key: Option<Key>, response: Response, ttl: nat, now: int)
      modifies this
      ensures entries == if key.Some? then StoredIn(old(entries), Entry(key.value, now + ttl, response), now)
                         else old(entries)
    {
      if key.None? {
        return;
      }
      PurgeExpired(now);
      entries := Without(entries, key.value) + [Entry(key.value, now + ttl, response)];
      ghost var full := entries;
      while |entries| > MAX_ENTRIES
        invariant |entries| <= |full| && entries == full[|full| - |entries|..]
        invariant |full| <= MAX_ENTRIES ==> entries == full
        invariant |full| > MAX_ENTRIES ==> |entries| >= MAX_ENTRIES
        decreases |entries|
      {
        entries := entries[1..];
      }
    }
  }

  // ---- What the cache means: the history of its uses ----

  /** A use of a key is a store of a response with its expiry, or a hit. */
  datatype Use = Stored(key: Key, expires: int, response: Response) | Hit(key: Key)

  function LastUse(log: seq<Use>, key: Key): (k: Option<nat>)
    ensures k.Some? ==> k.value < |log| && log[k.value].key == key
    ensures forall j :: (if k.Some? then k.value + 1 else 0) <= j < |log| ==> log[j].key != key
  {
    if log == [] then None
    else if log[|log| - 1].key == key then Some(|log| - 1)
    else LastUse(log[..|log| - 1], key)
  }

  function LatestStore(log: seq<Use>, key: Key): Option<Entry> {
    if log == [] then None
    else
      var u := log[|log| - 1];
      if u.Stored? && u.key == key then Some(Entry(key, u.expires, u.response))
      else LatestStore(log[..|log| - 1], key)
  }

  /** The keys used after position k. */
  function UsedSince(log: seq<Use>, k: nat): set<Key> {
    set j | k < j < |log| :: log[j].key
  }

  /** The position of a key's last use, -1 for none. */
  function Rank(log: seq<Use>): Key -> int {
    (key: Key) => if LastUse(log, key).Some? then LastUse(log, key).value else -1
  }

  /** Entries stand in the order of their last use; in particular their keys differ. */
  ghost predicate Ascending(c: Cache, rank: Key -> int) {
    forall i, j :: 0 <= i < j < |c| ==> rank(c[i].key) < rank(c[j].key)
  }

  /** Every entry is the latest store of its key. */
  ghost predicate Agrees(c: Cache, log: seq<Use>) {
    forall e :: e in c ==> LatestStore(log, e.key) == Some(e)
  }

  predicate HasKey(c: Cache, key: Key) {
    Find(c, key).Some?
  }

  /** As many other keys as the cache holds were used since the last use of this one. */
  predicate CrowdedOut(log: seq<Use>, key: Key) {
    LastUse(log, key).Some? && |UsedSince(log, LastUse(log, key).value)| >= MAX_ENTRIES
  }

  predicate LiveAt(log: seq<Use>, key: Key, now: int) {
    LatestStore(log, key).Some? && LatestStore(log, key).value.expires > now
  }

  /** A key whose latest response is still valid is missing only if it was crowded out. */
  ghost predicate MissingOnlyIfCrowdedOut(c: Cache, log: seq<Use>, now: int) {
    forall key :: !HasKey(c, key) && LiveAt(log, key, now) ==> CrowdedOut(log, key)
  }

  ghost predicate Sound(c: Cache, log: seq<Use>, now: int) {
    && |c| <= MAX_ENTRIES && Ascending(c, Rank(log)) && Agrees(c, log)
    && MissingOnlyIfCrowdedOut(c, log, now)
  }

  // ---- The list operations ----

  lemma {:induction false} FindIsMember(c: Cache, key: Key)
    ensures Find(c, key).Some? ==> Find(c, key).value in c && Find(c, key).value.key == key
    ensures Find(c, key).None? ==> forall e :: e in c ==> e.key != key
  {
    if c != [] {
      FindIsMember(c[1..], key);
      assert c == [c[0]] + c[1..];
    }
  }

  lemma {:induction false} FilterMembers(c: Cache, keep: Entry -> bool)
    ensures forall e :: e in Filter(c, keep) <==> e in c && keep(e)
  {
    if c != [] {
      FilterMembers(c[1..], keep);
      assert c == [c[0]] + c[1..];
    }
  }

  lemma {:induction false} FilterKeepsAscending(c: Cache, keep: Entry -> bool, rank: Key -> int)
    requires Ascending(c, rank)
    ensures Ascending(Filter(c, keep), rank)
  {
    if c != [] {
      FilterKeepsAscending(c[1..], keep, rank);
      FilterMembers(c[1..], keep);
      var tail := Filter(c[1..], keep);
      forall j | 0 <= j < |tail| ensures rank(c[0].key) < rank(tail[j].key) {
        assert tail[j] in c[1..];
      }
    }
  }

  /** Appending an entry whose key was used last keeps the order. */
  lemma AppendKeepsAscending(c: Cache, e: Entry, rank: Key -> int)
    requires Ascending(c, rank) && forall x :: x in c ==> rank(x.key) < rank(e.key)
    ensures Ascending(c + [e], rank)
  {
  }

  lemma SameRanksKeepAscending(c: Cache, before: Key -> int, after: Key -> int)
    requires Ascending(c, before) && forall x :: x in c ==> after(x.key) == before(x.key)
    ensures Ascending(c, after)
  {
  }

  // ---- The history grows ----

  lemma LastUseAppend(log: seq<Use>, u: Use, key: Key)
    ensures LastUse(log + [u], key) == if u.key == key then Some(|log|) else LastUse(log, key)
  {
    assert (log + [u])[..|log|] == log;
  }

  lemma LatestStoreAppend(log: seq<Use>, u: Use, key: Key)
    ensures LatestStore(log + [u], key) ==
            if u.Stored? && u.key == key then Some(Entry(key, u.expires, u.response)) else LatestStore(log, key)
  {
    assert (log + [u])[..|log|] == log;
  }

  lemma RanksAppend(log: seq<Use>, u: Use)
    ensures forall key :: Rank(log + [u])(key) == if key == u.key then |log| else Rank(log)(key)
    ensures forall key :: Rank(log)(key) < |log|
  {
    forall key ensures Rank(log + [u])(key) == if key == u.key then |log| else Rank(log)(key) {
      LastUseAppend(log, u, key);
    }
  }

  lemma CrowdingLasts(log: seq<Use>, u: Use, key: Key)
    requires CrowdedOut(log, key) && u.key != key
    ensures CrowdedOut(log + [u], key)
  {
    LastUseAppend(log, u, key);
    var k := LastUse(log, key).value;
    forall x | x in UsedSince(log, k) ensures x in UsedSince(log + [u], k) {
      var j :| k < j < |log| && log[j].key == x;
      assert (log + [u])[j].key == x;
    }
    SubsetIsSmaller(UsedSince(log, k), UsedSince(log + [u], k));
  }

  lemma {:induction false} SubsetIsSmaller<T>(a: set<T>, b: set<T>)
    requires a <= b
    ensures |a| <= |b|
  {
    assert b == a + (b - a);
  }

  /** Entries with later uses crowd a key out once there are enough of them. */
  lemma LaterEntriesCrowdOut(c: Cache, log: seq<Use>, key: Key)
    requires Ascending(c, Rank(log)) && LastUse(log, key).Some? && |c| >= MAX_ENTRIES
    requires forall e :: e in c ==> Rank(log)(e.key) > Rank(log)(key)
    ensures CrowdedOut(log, key)
  {
    var k := LastUse(log, key).value;
    forall i | 0 <= i < |c| ensures c[i].key in UsedSince(log, k) {
      assert c[i] in c;
      var j := LastUse(log, c[i].key).value;
      assert log[j].key == c[i].key;
    }
    KeysFitIn(c, Rank(log), UsedSince(log, k));
  }

  lemma {:induction false} KeysFitIn(c: Cache, rank: Key -> int, keys: set<Key>)
    requires Ascending(c, rank) && forall i :: 0 <= i < |c| ==> c[i].key in keys
    ensures |c| <= |keys|
  {
    if c != [] {
      var init, last := c[..|c| - 1], c[|c| - 1].key;
      forall i | 0 <= i < |init| ensures init[i].key in keys - {last} {
        assert rank(c[i].key) < rank(last);
      }
      KeysFitIn(init, rank, keys - {last});
    }
  }

  // ---- The operations keep the cache sound ----

  lemma TimePasses(c: Cache, log: seq<Use>, before: int, now: int)
    requires Sound(c, log, before) && before <= now
    ensures Sound(c, log, now)
  {
  }

  lemma PurgeKeepsSound(c: Cache, log: seq<Use>, now: int)
    requires Sound(c, log, now)
    ensures Sound(Purged(c, now), log, now)
    ensures forall e :: e in Purged(c, now) <==> e in c && e.expires > now
  {
    var keep := (e: Entry) => e.expires > now;
    var live := Purged(c, now);
    FilterMembers(c, keep);
    FilterKeepsAscending(c, keep, Rank(log));
    forall key | !HasKey(live, key) && LiveAt(log, key, now) ensures CrowdedOut(log, key) {
      FindIsMember(c, key);
      FindIsMember(live, key);
    }
  }

  lemma {:induction false} WithoutShrinks(c: Cache, key: Key)
    requires HasKey(c, key)
    ensures |Without(c, key)| < |c|
  {
    if c[0].key != key { WithoutShrinks(c[1..], key); }
  }

  /** The use u of a key moves or puts its entry e to the end of what else is kept. */
  lemma UseKeepsSound(live: Cache, log: seq<Use>, u: Use, e: Entry, now: int)
    requires Sound(live, log, now) && e.key == u.key && LatestStore(log + [u], u.key) == Some(e)
    ensures var c := Without(live, u.key) + [e];
            && Ascending(c, Rank(log + [u])) && Agrees(c, log + [u]) && MissingOnlyIfCrowdedOut(c, log + [u], now)
  {
    var rest, c := Without(live, u.key), Without(live, u.key) + [e];
    var keep := (x: Entry) => x.key != u.key;
    FilterMembers(live, keep);
    FilterKeepsAscending(live, keep, Rank(log));
    RanksAppend(log, u);
    SameRanksKeepAscending(rest, Rank(log), Rank(log + [u]));
    AppendKeepsAscending(rest, e, Rank(log + [u]));
    forall x | x in c ensures LatestStore(log + [u], x.key) == Some(x) {
      LatestStoreAppend(log, u, x.key);
    }
    forall key | !HasKey(c, key) && LiveAt(log + [u], key, now) ensures CrowdedOut(log + [u], key) {
      FindIsMember(c, key);
      FindIsMember(live, key);
      assert c[|rest|] == e;
      LatestStoreAppend(log, u, key);
      CrowdingLasts(log, u, key);
    }
  }

  lemma HitKeepsSound(c: Cache, log: seq<Use>, key: Key, now: int)
    requires Sound(c, log, now) && HasKey(Purged(c, now), key)
    ensures Sound(Touched(c, key, now), log + [Hit(key)], now)
  {
    var live := Purged(c, now);
    PurgeKeepsSound(c, log, now);
    FindIsMember(live, key);
    LatestStoreAppend(log, Hit(key), key);
    UseKeepsSound(live, log, Hit(key), Find(live, key).value, now);
    WithoutShrinks(live, key);
  }

  /** Evicting the oldest use is justified by the entries that remain. */
  lemma EvictionKeepsSound(c: Cache, log: seq<Use>, now: int)
    requires Ascending(c, Rank(log)) && Agrees(c, log) && MissingOnlyIfCrowdedOut(c, log, now)
    requires |c| == MAX_ENTRIES + 1 && forall e :: e in c ==> LastUse(log, e.key).Some?
    ensures Sound(c[1..], log, now)
  {
    var rest := c[1..];
    assert forall i :: 0 <= i < |rest| ==> rest[i] == c[i + 1];
    LaterEntriesCrowdOut(rest, log, c[0].key);
    forall key | !HasKey(rest, key) && LiveAt(log, key, now) ensures CrowdedOut(log, key) {
      MissingWithoutFirst(c, key);
    }
  }

  lemma MissingWithoutFirst(c: Cache, key: Key)
    requires c != [] && !HasKey(c[1..], key)
    ensures !HasKey(c, key) || key == c[0].key
  {
    FindIsMember(c, key);
    FindIsMember(c[1..], key);
    assert c == [c[0]] + c[1..];
  }

  lemma {:induction false} StoredWasUsed(log: seq<Use>, key: Key)
    requires LatestStore(log, key).Some?
    ensures LastUse(log, key).Some?
  {
    if log[|log| - 1].key != key { StoredWasUsed(log[..|log| - 1], key); }
  }

  lemma StoreKeepsSound(c: Cache, log: seq<Use>, e: Entry, now: int)
    requires Sound(c, log, now)
    ensures Sound(StoredIn(c, e, now), log + [Stored(e.key, e.expires, e.response)], now)
  {
    var u := Stored(e.key, e.expires, e.response);
    PurgeKeepsSound(c, log, now);
    LatestStoreAppend(log, u, e.key);
    UseKeepsSound(Purged(c, now), log, u, e, now);
    var full := Without(Purged(c, now), e.key) + [e];
    if |full| > MAX_ENTRIES {
      forall x | x in full ensures LastUse(log + [u], x.key).Some? { StoredWasUsed(log + [u], x.key); }
      EvictionKeepsSound(full, log + [u], now);
    }
  }

  // ---- Runs ----

  /** An operation, after some time has passed. */
  datatype Op = Get(key: Key, elapsed: nat) | Store(key: Key, response: Response, ttl: nat, elapsed: nat)

  datatype State = State(cache: Cache, log: seq<Use>, now: int)

  function AfterGet(c: Cache, log: seq<Use>, key: Key, now: int): State {
    State(Touched(c, key, now), if HasKey(Purged(c, now), key) then log + [Hit(key)] else log, now)
  }

  function AfterStore(c: Cache, log: seq<Use>, e: Entry, now: int): State {
    State(StoredIn(c, e, now), log + [Stored(e.key, e.expires, e.response)], now)
  }

  function Next(s: State, op: Op): State {
    var now := s.now + op.elapsed;
    match op
    case Get(key, _) => AfterGet(s.cache, s.log, key, now)
    case Store(key, response, ttl, _) => AfterStore(s.cache, s.log, Entry(key, now + ttl, response), now)
  }

  function After(ops: seq<Op>): State {
    if ops == [] then State([], [], 0) else Next(After(ops[..|ops| - 1]), ops[|ops| - 1])
  }

  ghost predicate SoundState(s: State) {
    Sound(s.cache, s.log, s.now)
  }

  lemma GetKeepsSound(s: State, key: Key, now: int)
    requires SoundState(s) && s.now <= now
    ensures SoundState(AfterGet(s.cache, s.log, key, now))
  {
    TimePasses(s.cache, s.log, s.now, now);
    if HasKey(Purged(s.cache, now), key) {
      HitKeepsSound(s.cache, s.log, key, now);
    } else {
      PurgeKeepsSound(s.cache, s.log, now);
    }
  }

  lemma PutKeepsSound(s: State, e: Entry, now: int)
    requires SoundState(s) && s.now <= now
    ensures SoundState(AfterStore(s.cache, s.log, e, now))
  {
    TimePasses(s.cache, s.log, s.now, now);
    StoreKeepsSound(s.cache, s.log, e, now);
  }

  lemma StateAfterGet(s: State, op: Op)
    requires op.Get?
    ensures Next(s, op) == AfterGet(s.cache, s.log, op.key, s.now + op.elapsed)
  {
  }

  lemma StateAfterStore(s: State, op: Op)
    requires op.Store?
    ensures Next(s, op) == AfterStore(s.cache, s.log, Entry(op.key, s.now + op.elapsed + op.ttl, op.response), s.now + op.elapsed)
  {
  }

  lemma OpKeepsSound(s: State, op: Op)
    requires SoundState(s)
    ensures SoundState(Next(s, op))
  {
    var now := s.now + op.elapsed;
    match op {
      case Get(key, _) =>
        StateAfterGet(s, op);
        GetKeepsSound(s, key, now);
      case Store(key, response, ttl, _) =>
        StateAfterStore(s, op);
        PutKeepsSound(s, Entry(key, now + ttl, response), now);
    }
  }

  lemma {:induction false} RunsAreSound(ops: seq<Op>)
    ensures SoundState(After(ops))
  {
    if ops != [] {
      RunsAreSound(ops[..|ops| - 1]);
      OpKeepsSound(After(ops[..|ops| - 1]), ops[|ops| - 1]);
    }
  }

  /** What a lookup answers, over every history: the latest stored response, still valid;
      or nothing, and then the key was never stored, its latest response has expired, or at
      least as many other keys as the cache holds were used since its last use. */
  lemma LookupIsExact(ops: seq<Op>, key: Key, elapsed: nat)
    ensures var s := After(ops);
            var now := s.now + elapsed;
            var found := Find(Purged(s.cache, now), key);
            && (found.Some? ==> LatestStore(s.log, key) == found && found.value.expires > now)
            && (found.None? ==> !LiveAt(s.log, key, now) || CrowdedOut(s.log, key))
  {
    RunsAreSound(ops);
    StateLookupIsExact(After(ops), key, elapsed);
  }

  lemma StateLookupIsExact(s: State, key: Key, elapsed: nat)
    requires SoundState(s)
    ensures var now := s.now + elapsed;
            var found := Find(Purged(s.cache, now), key);
            && (found.Some? ==> LatestStore(s.log, key) == found && found.value.expires > now)
            && (found.None? ==> !LiveAt(s.log, key, now) || CrowdedOut(s.log, key))
  {
    SoundLookupIsExact(s.cache, s.log, s.now, s.now + elapsed, key);
  }

  lemma SoundLookupIsExact(c: Cache, log: seq<Use>, before: int, now: int, key: Key)
    requires Sound(c, log, before) && before <= now
    ensures var found := Find(Purged(c, now), key);
            && (found.Some? ==> LatestStore(log, key) == found && found.value.expires > now)
            && (found.None? ==> !LiveAt(log, key, now) || CrowdedOut(log, key))
  {
    TimePasses(c, log, before, now);
    PurgeKeepsSound(c, log, now);
    FindIsMember(Purged(c, now), key);
  }

  /** The cache never exceeds its maximum. */
  lemma CacheIsBounded(ops: seq<Op>)
    ensures |After(ops).cache| <= MAX_ENTRIES
  {
    RunsAreSound(ops);
  }
}
