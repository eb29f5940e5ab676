/** When exactly a valid response is missing from the idempotency cache: some store since its
    key's last use found as many rivals of the key, still valid and used later, as the cache holds. */
module CacheEviction {
  import opened Options
  import opened IdempotencyCache

  // ---- What evicts a key ----

  /** The keys used after this one whose responses are valid, and the key being stored. */
  function Rivals(log: seq<Use>, key: Key, now: int, stored: Key): set<Key> {
    (set x | LastUse(log, key).Some? && x in UsedSince(log, LastUse(log, key).value) && LiveAt(log, x, now)) + {stored}
  }

  /** Whether the operation counts as a use of the key. */
  predicate Uses(s: State, op: Op, key: Key) {
    op.key == key && (op.Store? || HasKey(Purged(s.cache, s.now + op.elapsed), key))
  }

  predicate Crowds(s: State, op: Op, key: Key) {
    op.Store? && |Rivals(s.log, key, s.now + op.elapsed, op.key)| >= MAX_ENTRIES
  }

  /** Since the key's last use some store found the cache full of its rivals. */
  predicate Evicted(ops: seq<Op>, key: Key) {
    ops != [] &&
    var before, op := ops[..|ops| - 1], ops[|ops| - 1];
    !Uses(After(before), op, key) && (Evicted(before, key) || Crowds(After(before), op, key))
  }

  // ---- The invariant ----

  function KeysOf(c: Cache): set<Key> {
    set e | e in c :: e.key
  }

  /** Among the keys with a valid response, those that are not gone are cached. */
  ghost predicate Exact(c: Cache, log: seq<Use>, now: int, gone: Key -> bool) {
    forall key :: LiveAt(log, key, now) ==> (key in KeysOf(c) <==> !gone(key))
  }

  /** With a key the cache holds every valid one used later. */
  ghost predicate HoldsNewer(c: Cache, log: seq<Use>, now: int) {
    forall x, y :: y in KeysOf(c) && LiveAt(log, x, now) && Rank(log)(x) > Rank(log)(y) ==> x in KeysOf(c)
  }

  ghost predicate Complete(c: Cache, log: seq<Use>, now: int, gone: Key -> bool) {
    Sound(c, log, now) && Exact(c, log, now, gone) && HoldsNewer(c, log, now)
  }

  // ---- Keys of lists ----

  lemma HasKeyIsMember(c: Cache, key: Key)
    ensures HasKey(c, key) <==> key in KeysOf(c)
  {
    FindIsMember(c, key);
  }

  lemma {:induction false} KeysAreFew(c: Cache)
    ensures |KeysOf(c)| <= |c|
  {
    if c != [] {
      KeysAreFew(c[1..]);
      assert c == [c[0]] + c[1..];
      assert KeysOf(c) == KeysOf(c[1..]) + {c[0].key};
    }
  }

  lemma SubsetIsNoLarger(a: set<Key>, b: set<Key>)
    requires a <= b
    ensures |a| <= |b|
  {
    assert b == a + (b - a);
  }

  lemma KeysOfPurged(c: Cache, log: seq<Use>, now: int)
    requires Sound(c, log, now)
    ensures forall key :: key in KeysOf(Purged(c, now)) <==> key in KeysOf(c) && LiveAt(log, key, now)
  {
    PurgeKeepsSound(c, log, now);
    forall key ensures key in KeysOf(Purged(c, now)) <==> key in KeysOf(c) && LiveAt(log, key, now) {
      if key in KeysOf(c) {
        var e :| e in c && e.key == key;
        assert LatestStore(log, key) == Some(e);
      }
    }
  }

  lemma KeysOfMoved(c: Cache, e: Entry)
    ensures KeysOf(Without(c, e.key) + [e]) == KeysOf(c) + {e.key}
  {
    var keep := (x: Entry) => x.key != e.key;
    FilterMembers(c, keep);
    var moved := Without(c, e.key) + [e];
    forall key | key in KeysOf(c) ensures key in KeysOf(moved) {
      var x :| x in c && x.key == key;
      if key != e.key { assert x in Without(c, e.key); }
    }
    assert e in moved;
  }

  // ---- Time, purging and hits ----

  lemma LaterIsComplete(c: Cache, log: seq<Use>, before: int, now: int, gone: Key -> bool)
    requires Complete(c, log, before, gone) && before <= now
    ensures Complete(c, log, now, gone)
  {
    TimePasses(c, log, before, now);
    forall key | LiveAt(log, key, now) ensures LiveAt(log, key, before) { }
  }

  lemma PurgedIsComplete(c: Cache, log: seq<Use>, now: int, gone: Key -> bool)
    requires Complete(c, log, now, gone)
    ensures Complete(Purged(c, now), log, now, gone)
  {
    PurgeKeepsSound(c, log, now);
    KeysOfPurged(c, log, now);
  }

  lemma LivenessAfterHit(log: seq<Use>, key: Key, now: int)
    ensures forall x :: LiveAt(log + [Hit(key)], x, now) <==> LiveAt(log, x, now)
  {
    forall x ensures LiveAt(log + [Hit(key)], x, now) <==> LiveAt(log, x, now) { LatestStoreAppend(log, Hit(key), x); }
  }

  lemma HitIsComplete(c: Cache, log: seq<Use>, key: Key, now: int, gone: Key -> bool)
    requires Complete(c, log, now, gone) && HasKey(Purged(c, now), key)
    ensures Complete(Touched(c, key, now), log + [Hit(key)], now, x => x != key && gone(x))
  {
    var live := Purged(c, now);
    HitKeepsSound(c, log, key, now);
    PurgedIsComplete(c, log, now, gone);
    FindIsMember(live, key);
    HasKeyIsMember(live, key);
    KeysOfMoved(live, Find(live, key).value);
    LivenessAfterHit(log, key, now);
    RanksAppend(log, Hit(key));
  }

  // ---- Stores ----

  lemma LivenessAfterStore(log: seq<Use>, u: Use, now: int)
    ensures forall x :: x != u.key ==> (LiveAt(log + [u], x, now) <==> LiveAt(log, x, now))
  {
    forall x | x != u.key ensures LiveAt(log + [u], x, now) <==> LiveAt(log, x, now) { LatestStoreAppend(log, u, x); }
  }

  lemma LaterUsedIsRanked(log: seq<Use>, x: Key, y: Key)
    requires LastUse(log, x).Some?
    ensures y in UsedSince(log, LastUse(log, x).value) <==> Rank(log)(y) > Rank(log)(x)
  {
    var k := LastUse(log, x).value;
    if y in UsedSince(log, k) {
      var j :| k < j < |log| && log[j].key == y;
    }
    if Rank(log)(y) > Rank(log)(x) {
      assert log[LastUse(log, y).value].key == y;
    }
  }

  /** A cached key's rivals are all in the new list, and the key and every older one are not rivals. */
  lemma RivalsAreNewer(live: Cache, log: seq<Use>, now: int, key: Key, stored: Key)
    requires HoldsNewer(live, log, now) && key in KeysOf(live) && key != stored && LastUse(log, key).Some?
    ensures Rivals(log, key, now, stored) <= KeysOf(live) + {stored}
    ensures forall x :: x in Rivals(log, key, now, stored) && x != stored ==> Rank(log)(x) > Rank(log)(key)
  {
    forall x | x in Rivals(log, key, now, stored) && x != stored
      ensures x in KeysOf(live) && Rank(log)(x) > Rank(log)(key)
    {
      LaterUsedIsRanked(log, key, x);
    }
  }

  /** A list without eviction has fewer rivals of any of its keys than the cache holds. */
  lemma FittingHasFewRivals(live: Cache, log: seq<Use>, now: int, e: Entry, key: Key)
    requires HoldsNewer(live, log, now) && key in KeysOf(live) && key != e.key && LastUse(log, key).Some?
    requires |Without(live, e.key) + [e]| <= MAX_ENTRIES
    ensures |Rivals(log, key, now, e.key)| < MAX_ENTRIES
  {
    var full := Without(live, e.key) + [e];
    var rivals := Rivals(log, key, now, e.key);
    RivalsAreNewer(live, log, now, key, e.key);
    KeysOfMoved(live, e);
    KeysAreFew(full);
    assert key !in rivals;
    SubsetIsNoLarger(rivals, KeysOf(full) - {key});
  }

  /** Of a list that is one too long, the oldest key has as many rivals as the cache holds. */
  lemma OldestHasManyRivals(live: Cache, log: seq<Use>, now: int, full: Cache, e: Entry)
    requires full == Without(live, e.key) + [e] && |full| == MAX_ENTRIES + 1
    requires Ascending(full, Rank(log + [Stored(e.key, e.expires, e.response)]))
    requires Agrees(live, log) && forall x :: x in live ==> x.expires > now
    ensures full[0].key != e.key && full[0] in live && |Rivals(log, full[0].key, now, e.key)| >= MAX_ENTRIES
  {
    var u := Stored(e.key, e.expires, e.response);
    var keep := (x: Entry) => x.key != e.key;
    FilterMembers(live, keep);
    RanksAppend(log, u);
    var oldest, rest := full[0], full[1..];
    assert oldest in Without(live, e.key);
    StoredWasUsed(log, oldest.key);
    forall i | 0 <= i < |rest| ensures rest[i].key in Rivals(log, oldest.key, now, e.key) {
      assert rest[i] == full[i + 1];
      if i < |rest| - 1 {
        assert rest[i] in Without(live, e.key);
        LaterUsedIsRanked(log, oldest.key, rest[i].key);
      }
    }
    assert forall i, j :: 0 <= i < j < |rest| ==> rest[i] == full[i + 1] && rest[j] == full[j + 1];
    KeysFitIn(rest, Rank(log + [u]), Rivals(log, oldest.key, now, e.key));
  }

  /** Every other key of that list has fewer. */
  lemma OthersHaveFewRivals(live: Cache, log: seq<Use>, now: int, full: Cache, e: Entry, key: Key)
    requires HoldsNewer(live, log, now) && key in KeysOf(live) && key != e.key && LastUse(log, key).Some?
    requires full == Without(live, e.key) + [e] && |full| == MAX_ENTRIES + 1
    requires full[0].key != e.key && full[0].key != key && Rank(log)(full[0].key) < Rank(log)(key)
    ensures |Rivals(log, key, now, e.key)| < MAX_ENTRIES
  {
    var rivals, oldest := Rivals(log, key, now, e.key), full[0].key;
    RivalsAreNewer(live, log, now, key, e.key);
    KeysOfMoved(live, e);
    KeysAreFew(full);
    assert full[0] in full;
    assert key !in rivals && oldest !in rivals && key in KeysOf(full) && oldest in KeysOf(full);
    SubsetIsNoLarger(rivals, KeysOf(full) - {key, oldest});
  }

  lemma OldestIsOldest(live: Cache, log: seq<Use>, u: Use, full: Cache, e: Entry, key: Key)
    requires u.key == e.key && full == Without(live, e.key) + [e] && full != [] && Ascending(full, Rank(log + [u]))
    requires key in KeysOf(live) && key != e.key
    ensures full[0].key != e.key && Rank(log)(full[0].key) <= Rank(log)(key)
    ensures full[0].key != key ==> Rank(log)(full[0].key) < Rank(log)(key) && key in KeysOf(full[1..])
  {
    KeysOfMoved(live, e);
    FilterMembers(live, (x: Entry) => x.key != e.key);
    RanksAppend(log, u);
    var x :| x in full && x.key == key;
    var i :| 0 <= i < |full| && full[i] == x;
    assert full[0] in Without(live, e.key);
    if i > 0 { assert full[1..][i - 1] == x; }
  }

  /** What a store leaves of a valid key: it is cached if it was and is not crowded out now. */
  lemma StoreKeepsExact(live: Cache, log: seq<Use>, e: Entry, now: int, key: Key)
    requires Sound(live, log, now) && HoldsNewer(live, log, now) && (forall x :: x in live ==> x.expires > now)
    requires key != e.key && key in KeysOf(live)
    ensures var full := Without(live, e.key) + [e];
            key in KeysOf(Newest(full)) <==> |Rivals(log, key, now, e.key)| < MAX_ENTRIES
  {
    var u := Stored(e.key, e.expires, e.response);
    var full := Without(live, e.key) + [e];
    UseKeepsSoundHere(live, log, u, e, now);
    KeyWasUsed(live, log, key);
    KeysOfMoved(live, e);
    if |full| <= MAX_ENTRIES {
      FittingHasFewRivals(live, log, now, e, key);
    } else {
      OldestHasManyRivals(live, log, now, full, e);
      OldestIsOldest(live, log, u, full, e, key);
      assert Newest(full) == full[1..];
      if full[0].key == key {
        FirstIsGone(full, Rank(log + [u]));
      } else {
        OthersHaveFewRivals(live, log, now, full, e, key);
      }
    }
  }

  lemma UseKeepsSoundHere(live: Cache, log: seq<Use>, u: Use, e: Entry, now: int)
    requires Sound(live, log, now) && u == Stored(e.key, e.expires, e.response)
    ensures Ascending(Without(live, e.key) + [e], Rank(log + [u])) && |Without(live, e.key) + [e]| <= MAX_ENTRIES + 1
  {
    LatestStoreAppend(log, u, e.key);
    UseKeepsSound(live, log, u, e, now);
  }

  lemma KeyWasUsed(c: Cache, log: seq<Use>, key: Key)
    requires Agrees(c, log) && key in KeysOf(c)
    ensures LastUse(log, key).Some?
  {
    var x :| x in c && x.key == key;
    StoredWasUsed(log, key);
  }

  lemma FirstIsGone(c: Cache, rank: Key -> int)
    requires c != [] && Ascending(c, rank)
    ensures c[0].key !in KeysOf(c[1..])
  {
    forall x | x in c[1..] ensures x.key != c[0].key {
      var i :| 0 <= i < |c[1..]| && c[1..][i] == x;
      assert rank(c[0].key) < rank(c[i + 1].key);
    }
  }

  lemma StoredKeyIsCached(c: Cache, e: Entry)
    ensures e.key in KeysOf(Newest(c + [e]))
  {
    var kept := Newest(c + [e]);
    assert kept[|kept| - 1] == e;
  }

  lemma NewestIsPart(c: Cache, key: Key)
    requires key in KeysOf(Newest(c))
    ensures key in KeysOf(c)
  {
    var x :| x in Newest(c) && x.key == key;
  }

  /** Cutting the oldest entry off keeps a key used later than one that stays. */
  lemma CutKeepsNewer(live: Cache, log: seq<Use>, u: Use, full: Cache, e: Entry, x: Key, y: Key)
    requires u.key == e.key && full == Without(live, e.key) + [e] && Ascending(full, Rank(log + [u]))
    requires |full| <= MAX_ENTRIES + 1 && x in KeysOf(live) && y in KeysOf(live) && x != e.key && y != e.key
    requires y in KeysOf(Newest(full)) && Rank(log)(x) > Rank(log)(y)
    ensures x in KeysOf(Newest(full))
  {
    KeysOfMoved(live, e);
    if |full| > MAX_ENTRIES {
      assert Newest(full) == full[1..];
      OldestIsOldest(live, log, u, full, e, x);
      OldestIsOldest(live, log, u, full, e, y);
    }
  }

  lemma StoreHoldsNewer(live: Cache, log: seq<Use>, e: Entry, now: int, x: Key, y: Key)
    requires Sound(live, log, now) && HoldsNewer(live, log, now)
    requires var u := Stored(e.key, e.expires, e.response);
             && y in KeysOf(Newest(Without(live, e.key) + [e])) && LiveAt(log + [u], x, now)
             && Rank(log + [u])(x) > Rank(log + [u])(y)
    ensures x in KeysOf(Newest(Without(live, e.key) + [e]))
  {
    var u := Stored(e.key, e.expires, e.response);
    var full := Without(live, e.key) + [e];
    StoredKeyIsCached(Without(live, e.key), e);
    if x != e.key {
      RanksAppend(log, u);
      LivenessAfterStore(log, u, now);
      NewestIsPart(full, y);
      KeysOfMoved(live, e);
      UseKeepsSoundHere(live, log, u, e, now);
      CutKeepsNewer(live, log, u, full, e, x, y);
    }
  }

  lemma StoreIsComplete(c: Cache, log: seq<Use>, e: Entry, now: int, gone: Key -> bool)
    requires Complete(c, log, now, gone)
    ensures Complete(StoredIn(c, e, now), log + [Stored(e.key, e.expires, e.response)], now,
                     x => x != e.key && (gone(x) || |Rivals(log, x, now, e.key)| >= MAX_ENTRIES))
  {
    var u := Stored(e.key, e.expires, e.response);
    var live := Purged(c, now);
    var full := Without(live, e.key) + [e];
    PurgeKeepsSound(c, log, now);
    PurgedIsComplete(c, log, now, gone);
    StoreKeepsSound(c, log, e, now);
    StoredKeyIsCached(Without(live, e.key), e);
    LivenessAfterStore(log, u, now);
    KeysOfMoved(live, e);
    forall x | LiveAt(log + [u], x, now) && x != e.key
      ensures x in KeysOf(Newest(full)) <==> !(gone(x) || |Rivals(log, x, now, e.key)| >= MAX_ENTRIES)
    {
      if x in KeysOf(live) {
        StoreKeepsExact(live, log, e, now, x);
      } else if x in KeysOf(Newest(full)) {
        NewestIsPart(full, x);
      }
    }
    forall x, y | y in KeysOf(Newest(full)) && LiveAt(log + [u], x, now) && Rank(log + [u])(x) > Rank(log + [u])(y)
      ensures x in KeysOf(Newest(full))
    {
      StoreHoldsNewer(live, log, e, now, x, y);
    }
  }

  // ---- Runs ----

  lemma SameGone(c: Cache, log: seq<Use>, now: int, gone: Key -> bool, gone': Key -> bool)
    requires Complete(c, log, now, gone) && forall key :: gone(key) == gone'(key)
    ensures Complete(c, log, now, gone')
  {
  }

  ghost predicate CompleteState(s: State, gone: Key -> bool) {
    Complete(s.cache, s.log, s.now, gone)
  }

  /** `gone'` says of each key what the operation makes of it. */
  ghost predicate Updates(s: State, op: Op, gone: Key -> bool, gone': Key -> bool) {
    forall key :: gone'(key) <==> !Uses(s, op, key) && (gone(key) || Crowds(s, op, key))
  }

  lemma GetIsComplete(s: State, op: Op, gone: Key -> bool, gone': Key -> bool)
    requires op.Get? && Complete(s.cache, s.log, s.now, gone) && Updates(s, op, gone, gone')
    ensures CompleteState(Next(s, op), gone')
  {
    var key, now := op.key, s.now + op.elapsed;
    LaterIsComplete(s.cache, s.log, s.now, now, gone);
    if HasKey(Purged(s.cache, now), key) {
      HitIsComplete(s.cache, s.log, key, now, gone);
      SameGone(Touched(s.cache, key, now), s.log + [Hit(key)], now, x => x != key && gone(x), gone');
    } else {
      PurgedIsComplete(s.cache, s.log, now, gone);
      SameGone(Purged(s.cache, now), s.log, now, gone, gone');
    }
    StateAfterGet(s, op);
  }

  /** The same of a store of this key at this time. */
  ghost predicate UpdatesByStore(log: seq<Use>, key: Key, now: int, gone: Key -> bool, gone': Key -> bool) {
    forall x :: gone'(x) <==> x != key && (gone(x) || |Rivals(log, x, now, key)| >= MAX_ENTRIES)
  }

  lemma StoreUpdates(s: State, op: Op, key: Key, now: int, gone: Key -> bool, gone': Key -> bool)
    requires op.Store? && key == op.key && now == s.now + op.elapsed && Updates(s, op, gone, gone')
    ensures UpdatesByStore(s.log, key, now, gone, gone')
  {
    forall x ensures gone'(x) <==> x != key && (gone(x) || |Rivals(s.log, x, now, key)| >= MAX_ENTRIES) {
      assert Uses(s, op, x) <==> x == key;
    }
  }

  lemma PutIsComplete(s: State, e: Entry, key: Key, now: int, gone: Key -> bool, gone': Key -> bool, after: State)
    requires CompleteState(s, gone) && s.now <= now && e.key == key
    requires UpdatesByStore(s.log, key, now, gone, gone') && after == AfterStore(s.cache, s.log, e, now)
    ensures CompleteState(after, gone')
  {
    LaterIsComplete(s.cache, s.log, s.now, now, gone);
    StoreIsComplete(s.cache, s.log, e, now, gone);
    SameGone(StoredIn(s.cache, e, now), s.log + [Stored(e.key, e.expires, e.response)], now,
             x => x != e.key && (gone(x) || |Rivals(s.log, x, now, e.key)| >= MAX_ENTRIES), gone');
  }

  lemma StepIsComplete(s: State, op: Op, gone: Key -> bool, gone': Key -> bool)
    requires CompleteState(s, gone) && Updates(s, op, gone, gone')
    ensures CompleteState(Next(s, op), gone')
  {
    var key, now, after := op.key, s.now + op.elapsed, Next(s, op);
    if op.Get? {
      GetIsComplete(s, op, gone, gone');
    } else {
      var e := Entry(key, now + op.ttl, op.response);
      StoreUpdates(s, op, key, now, gone, gone');
      StateAfterStore(s, op);
      PutIsComplete(s, e, key, now, gone, gone', after);
    }
  }

  function EvictedBy(ops: seq<Op>): Key -> bool {
    key => Evicted(ops, key)
  }

  lemma EvictionUpdates(ops: seq<Op>)
    requires ops != []
    ensures var before, op := ops[..|ops| - 1], ops[|ops| - 1];
            Updates(After(before), op, EvictedBy(before), EvictedBy(ops)) && After(ops) == Next(After(before), op)
  {
  }

  lemma {:induction false} RunsAreComplete(ops: seq<Op>)
    ensures CompleteState(After(ops), EvictedBy(ops))
  {
    if ops != [] {
      var before, op := ops[..|ops| - 1], ops[|ops| - 1];
      RunsAreComplete(before);
      EvictionUpdates(ops);
      StepIsComplete(After(before), op, EvictedBy(before), EvictedBy(ops));
    }
  }

  /** Over every history, a lookup finds the key's latest response exactly when that is still
      valid and no store since the key's last use found the cache full of its rivals. */
  lemma LookupFindsExactly(ops: seq<Op>, key: Key, elapsed: nat)
    ensures var s := After(ops);
            var now := s.now + elapsed;
            var found := Find(Purged(s.cache, now), key);
            && (found.Some? <==> LiveAt(s.log, key, now) && !Evicted(ops, key))
            && (found.Some? ==> found == LatestStore(s.log, key))
  {
    RunsAreComplete(ops);
    var s := After(ops);
    CompleteLookup(s.cache, s.log, s.now, s.now + elapsed, EvictedBy(ops), key);
  }

  lemma CompleteLookup(c: Cache, log: seq<Use>, before: int, now: int, gone: Key -> bool, key: Key)
    requires Complete(c, log, before, gone) && before <= now
    ensures var found := Find(Purged(c, now), key);
            && (found.Some? <==> LiveAt(log, key, now) && !gone(key))
            && (found.Some? ==> found == LatestStore(log, key))
  {
    LaterIsComplete(c, log, before, now, gone);
    KeysOfPurged(c, log, now);
    HasKeyIsMember(Purged(c, now), key);
    SoundLookupIsExact(c, log, before, now, key);
  }
}
