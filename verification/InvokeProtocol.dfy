/** Interleaved calls of the invoke endpoint: the cache is checked before admission and
    again under the session's lock, the pipeline runs under the lock, and a cacheable
    response is stored before the lock is released. */
module InvokeProtocol {
  import opened Options
  import Locks = SessionLocks
  import Cache = IdempotencyCache

  /** Empty strings stand for a missing session or idempotency key. */
  datatype Request = Request(session: string, tenant: string, key: string)

  function KeyOf(r: Request): Option<Cache.Key> {
    if r.key == "" then None else Some(Cache.Key(r.tenant, r.key))
  }

  /** Calls of one session are serialized; without a session, calls with one key are. */
  function LockKey(r: Request): Option<string> {
    if r.session != "" then Some(r.session)
    else if r.key != "" then Some("idem:" + r.tenant + ":" + r.key)
    else None
  }

  /** Without a session the calls of one tenant wait for each other exactly when they carry
      one key; with sessions, when they name the same; a call with neither waits for nobody. */
  lemma LocksTell(p: Request, q: Request)
    ensures LockKey(p).None? <==> p.session == "" && p.key == ""
    ensures p.session != "" && q.session != "" ==> (LockKey(p) == LockKey(q) <==> p.session == q.session)
    ensures p.session == "" && q.session == "" && p.key != "" && q.key != "" && p.tenant == q.tenant ==>
              (LockKey(p) == LockKey(q) <==> p.key == q.key)
  {
    if p.session == "" && q.session == "" && p.key != "" && q.key != "" && p.tenant == q.tenant {
      var front := "idem:" + p.tenant + ":";
      assert (front + p.key)[|front|..] == p.key && (front + q.key)[|front|..] == q.key;
    }
  }

  datatype Answer = Replayed(response: Cache.Response) | Computed(response: Cache.Response) | Failed

  datatype Phase =
    | Missed                    // the first cache check missed; not admitted yet
    | Waiting                   // admitted and queued for the session's lock
    | Admitted                  // holds the lock, if one is needed
    | Running                   // the second check missed; the pipeline runs
    | Exiting(answer: Answer)   // answered, lock and slot still held
    | Done(answer: Answer)

  datatype State = State(locks: Locks.State, cache: Cache.State, active: nat, phases: map<nat, Phase>)

  datatype Step =
    | Tick(elapsed: nat)
    | Arrive(c: nat) | Enter(c: nat) | Acquire(c: nat) | GiveUp(c: nat) | Recheck(c: nat)
    | Finish(c: nat, response: Cache.Response, cacheable: bool)
    | Fail(c: nat)              // another tenant's agent, a timeout or a crash
    | Exit(c: nat)

  datatype Config = Config(request: nat -> Request, ttl: nat, maxActive: nat)

  predicate In(s: State, c: nat, p: Phase) {
    c in s.phases && s.phases[c] == p
  }

  function To(s: State, c: nat, p: Phase): State {
    s.(phases := s.phases[c := p])
  }

  function CachedResponse(cache: Cache.State, key: Option<Cache.Key>): Option<Cache.Response> {
    if key.None? then None
    else
      var e := Cache.Find(Cache.Purged(cache.cache, cache.now), key.value);
      if e.Some? then Some(e.value.response) else None
  }

  function AfterGet(cache: Cache.State, key: Option<Cache.Key>): Cache.State {
    if key.None? then cache else Cache.Next(cache, Cache.Get(key.value, 0))
  }

  function Arrived(cfg: Config, s: State, c: nat): State {
    var key := KeyOf(cfg.request(c));
    var hit := CachedResponse(s.cache, key);
    To(s, c, if hit.Some? then Done(Replayed(hit.value)) else Missed).(cache := AfterGet(s.cache, key))
  }

  function Entered(cfg: Config, s: State, c: nat): State {
    var lock := LockKey(cfg.request(c));
    if s.active >= cfg.maxActive then To(s, c, Done(Failed))
    else if lock.None? then To(s, c, Admitted).(active := s.active + 1)
    else To(s, c, Waiting).(active := s.active + 1, locks := Locks.Next(s.locks, Locks.Register(c, lock.value)))
  }

  function Rechecked(cfg: Config, s: State, c: nat): State {
    var key := KeyOf(cfg.request(c));
    var hit := CachedResponse(s.cache, key);
    To(s, c, if hit.Some? then Exiting(Replayed(hit.value)) else Running).(cache := AfterGet(s.cache, key))
  }

  function Finished(cfg: Config, s: State, c: nat, response: Cache.Response, cacheable: bool): State {
    var key := KeyOf(cfg.request(c));
    To(s, c, Exiting(Computed(response)))
      .(cache := if cacheable && key.Some?
                 then Cache.Next(s.cache, Cache.Store(key.value, response, cfg.ttl, 0)) else s.cache)
  }

  /** Leaves the lock, if one was taken, and the slot. */
  function Left(cfg: Config, s: State, c: nat, how: Locks.Step, answer: Answer): State {
    To(s, c, Done(answer))
      .(active := if s.active > 0 then s.active - 1 else 0,
        locks := if LockKey(cfg.request(c)).Some? then Locks.Next(Locks.Next(s.locks, how), Locks.Unregister(c)) else s.locks)
  }

  function Next(cfg: Config, s: State, step: Step): State {
    match step
    case Tick(elapsed) => s.(cache := s.cache.(now := s.cache.now + elapsed))
    case Arrive(c) => if c in s.phases then s else Arrived(cfg, s, c)
    case Enter(c) => if In(s, c, Missed) then Entered(cfg, s, c) else s
    case Acquire(c) =>
      if In(s, c, Waiting) && c in s.locks.callers && s.locks.callers[c].lock !in s.locks.held
      then To(s, c, Admitted).(locks := Locks.Next(s.locks, Locks.Acquire(c))) else s
    case GiveUp(c) => if In(s, c, Waiting) then Left(cfg, s, c, Locks.GiveUp(c), Failed) else s
    case Recheck(c) => if In(s, c, Admitted) then Rechecked(cfg, s, c) else s
    case Finish(c, response, cacheable) =>
      if In(s, c, Running) then Finished(cfg, s, c, response, cacheable) else s
    case Fail(c) => if In(s, c, Admitted) || In(s, c, Running) then To(s, c, Exiting(Failed)) else s
    case Exit(c) =>
      if c in s.phases && s.phases[c].Exiting? then Left(cfg, s, c, Locks.Release(c), s.phases[c].answer) else s
  }

  const START := State(Locks.EMPTY, Cache.State([], [], 0), 0, map[])

  function AfterFrom(cfg: Config, s: State, steps: seq<Step>): State {
    if steps == [] then s else Next(cfg, AfterFrom(cfg, s, steps[..|steps| - 1]), steps[|steps| - 1])
  }

  // ---- The invariant ----

  predicate InsideLock(p: Phase) {
    p.Admitted? || p.Running? || p.Exiting?
  }

  predicate HoldsSlot(p: Phase) {
    p.Waiting? || InsideLock(p)
  }

  /** The lock table knows exactly the queued and admitted callers. */
  predicate LocksMatch(cfg: Config, s: State, c: nat) {
    var lock := LockKey(cfg.request(c));
    if lock.Some? && c in s.phases && s.phases[c].Waiting? then
      c in s.locks.callers && s.locks.callers[c].Waiting? && s.locks.callers[c].session == lock.value
    else if lock.Some? && c in s.phases && InsideLock(s.phases[c]) then
      c in s.locks.callers && s.locks.callers[c].Holding? && s.locks.callers[c].session == lock.value
    else c !in s.locks.callers
  }

  function SlotHolders(phases: map<nat, Phase>): set<nat> {
    set c | c in phases && HoldsSlot(phases[c])
  }

  ghost predicate SlotsExact(cfg: Config, s: State) {
    s.active == |SlotHolders(s.phases)| <= cfg.maxActive
  }

  /** All callers with this key wait for one lock. */
  ghost predicate SharedLock(cfg: Config, key: Cache.Key) {
    forall c, d :: KeyOf(cfg.request(c)) == Some(key) && KeyOf(cfg.request(d)) == Some(key) ==>
      LockKey(cfg.request(c)) == LockKey(cfg.request(d))
  }

  predicate Cached(s: State, key: Cache.Key) {
    Cache.HasKey(s.cache.cache, key)
  }

  predicate Runs(cfg: Config, s: State, c: nat, key: Cache.Key) {
    In(s, c, Running) && KeyOf(cfg.request(c)) == Some(key)
  }

  /** While a response is cached for the key, nobody runs the pipeline for it. */
  ghost predicate NobodyRunsCached(cfg: Config, s: State, key: Cache.Key) {
    Cached(s, key) ==> forall c :: !Runs(cfg, s, c, key)
  }

  ghost predicate Orderly(cfg: Config, s: State) {
    && Locks.Sound(s.locks) && (forall c :: LocksMatch(cfg, s, c))
    && Cache.Sound(s.cache.cache, s.cache.log, s.cache.now)
  }

  // ---- Locks and slots ----

  /** Whether a caller matches the lock table depends on its own phase and registration. */
  lemma MatchIsLocal(cfg: Config, s: State, after: State, d: nat)
    requires LocksMatch(cfg, s, d)
    requires d in after.phases <==> d in s.phases
    requires d in s.phases ==> after.phases[d] == s.phases[d]
    requires d in after.locks.callers <==> d in s.locks.callers
    requires d in s.locks.callers ==> after.locks.callers[d] == s.locks.callers[d]
    ensures LocksMatch(cfg, after, d)
  {
  }

  lemma RegisterEffect(s: Locks.State, c: nat, session: string)
    requires c !in s.callers
    ensures var after := Locks.Next(s, Locks.Register(c, session));
            c in after.callers && after.callers == s.callers[c := after.callers[c]]
            && after.callers[c].Waiting? && after.callers[c].session == session
  {
  }

  lemma LeaveEffect(s: Locks.State, c: nat, how: Locks.Step)
    requires c in s.callers
    requires (s.callers[c].Waiting? && how == Locks.GiveUp(c)) || (s.callers[c].Holding? && how == Locks.Release(c))
    ensures Locks.Next(Locks.Next(s, how), Locks.Unregister(c)).callers == s.callers - {c}
  {
  }

  lemma EnterKeepsLocks(cfg: Config, s: State, c: nat)
    requires Orderly(cfg, s) && In(s, c, Missed)
    ensures Orderly(cfg, Entered(cfg, s, c))
  {
    var lock, after := LockKey(cfg.request(c)), Entered(cfg, s, c);
    assert LocksMatch(cfg, s, c);
    if lock.Some? {
      Locks.StepIsSound(s.locks, Locks.Register(c, lock.value));
      RegisterEffect(s.locks, c, lock.value);
    }
    forall d ensures LocksMatch(cfg, after, d) {
      assert LocksMatch(cfg, s, d);
      if d != c { MatchIsLocal(cfg, s, after, d); }
    }
  }

  lemma AcquireKeepsLocks(cfg: Config, s: State, c: nat)
    requires Orderly(cfg, s)
    ensures Orderly(cfg, Next(cfg, s, Acquire(c)))
  {
    var after := Next(cfg, s, Acquire(c));
    Locks.StepIsSound(s.locks, Locks.Acquire(c));
    assert LocksMatch(cfg, s, c);
    forall d ensures LocksMatch(cfg, after, d) { assert LocksMatch(cfg, s, d); }
  }

  lemma LeaveKeepsLocks(cfg: Config, s: State, c: nat, how: Locks.Step, answer: Answer)
    requires Orderly(cfg, s) && c in s.phases && HoldsSlot(s.phases[c])
    requires how == if s.phases[c].Waiting? then Locks.GiveUp(c) else Locks.Release(c)
    ensures Orderly(cfg, Left(cfg, s, c, how, answer))
  {
    var after := Left(cfg, s, c, how, answer);
    assert LocksMatch(cfg, s, c);
    if LockKey(cfg.request(c)).Some? {
      Locks.StepIsSound(s.locks, how);
      Locks.StepIsSound(Locks.Next(s.locks, how), Locks.Unregister(c));
      LeaveEffect(s.locks, c, how);
    }
    forall d ensures LocksMatch(cfg, after, d) {
      assert LocksMatch(cfg, s, d);
      if d != c { MatchIsLocal(cfg, s, after, d); }
    }
  }

  lemma MoveKeepsLocks(cfg: Config, s: State, c: nat, p: Phase, cache: Cache.State)
    requires Orderly(cfg, s) && Cache.Sound(cache.cache, cache.log, cache.now)
    requires (c in s.phases && InsideLock(s.phases[c]) && InsideLock(p))
             || (c !in s.phases && !HoldsSlot(p))
    ensures Orderly(cfg, To(s, c, p).(cache := cache))
  {
    assert LocksMatch(cfg, s, c);
    forall d ensures LocksMatch(cfg, To(s, c, p).(cache := cache), d) { assert LocksMatch(cfg, s, d); }
  }

  lemma GetIsSound(cache: Cache.State, key: Option<Cache.Key>)
    requires Cache.Sound(cache.cache, cache.log, cache.now)
    ensures var after := AfterGet(cache, key); Cache.Sound(after.cache, after.log, after.now)
  {
    if key.Some? { Cache.OpKeepsSound(cache, Cache.Get(key.value, 0)); }
  }

  lemma StoreIsSound(cache: Cache.State, key: Cache.Key, response: Cache.Response, ttl: nat)
    requires Cache.Sound(cache.cache, cache.log, cache.now)
    ensures var after := Cache.Next(cache, Cache.Store(key, response, ttl, 0)); Cache.Sound(after.cache, after.log, after.now)
  {
    Cache.OpKeepsSound(cache, Cache.Store(key, response, ttl, 0));
  }

  lemma StepKeepsOrder(cfg: Config, s: State, step: Step)
    requires Orderly(cfg, s)
    ensures Orderly(cfg, Next(cfg, s, step))
  {
    match step {
      case Tick(elapsed) =>
        Cache.TimePasses(s.cache.cache, s.cache.log, s.cache.now, s.cache.now + elapsed);
        forall d ensures LocksMatch(cfg, Next(cfg, s, step), d) { assert LocksMatch(cfg, s, d); }
      case Arrive(c) =>
        if c !in s.phases {
          GetIsSound(s.cache, KeyOf(cfg.request(c)));
          MoveKeepsLocks(cfg, s, c, Arrived(cfg, s, c).phases[c], Arrived(cfg, s, c).cache);
        }
      case Enter(c) => if In(s, c, Missed) { EnterKeepsLocks(cfg, s, c); }
      case Acquire(c) => AcquireKeepsLocks(cfg, s, c);
      case GiveUp(c) => if In(s, c, Waiting) { LeaveKeepsLocks(cfg, s, c, Locks.GiveUp(c), Failed); }
      case Recheck(c) =>
        if In(s, c, Admitted) {
          GetIsSound(s.cache, KeyOf(cfg.request(c)));
          MoveKeepsLocks(cfg, s, c, Rechecked(cfg, s, c).phases[c], Rechecked(cfg, s, c).cache);
        }
      case Finish(c, response, cacheable) =>
        if In(s, c, Running) {
          var key := KeyOf(cfg.request(c));
          if key.Some? { StoreIsSound(s.cache, key.value, response, cfg.ttl); }
          MoveKeepsLocks(cfg, s, c, Exiting(Computed(response)), Finished(cfg, s, c, response, cacheable).cache);
        }
      case Fail(c) =>
        if In(s, c, Admitted) || In(s, c, Running) { MoveKeepsLocks(cfg, s, c, Exiting(Failed), s.cache); }
      case Exit(c) =>
        if c in s.phases && s.phases[c].Exiting? {
          LeaveKeepsLocks(cfg, s, c, Locks.Release(c), s.phases[c].answer);
        }
    }
  }

  lemma {:induction false} RunsAreOrderly(cfg: Config, s: State, steps: seq<Step>)
    requires Orderly(cfg, s)
    ensures Orderly(cfg, AfterFrom(cfg, s, steps))
  {
    if steps != [] {
      RunsAreOrderly(cfg, s, steps[..|steps| - 1]);
      StepKeepsOrder(cfg, AfterFrom(cfg, s, steps[..|steps| - 1]), steps[|steps| - 1]);
    }
  }

  lemma StartIsOrderly(cfg: Config)
    ensures Orderly(cfg, START)
  {
    forall c ensures LocksMatch(cfg, START, c) {
    }
  }

  /** At most one caller with a given lock is inside it. */
  lemma OneInside(cfg: Config, s: State, c: nat, d: nat)
    requires Orderly(cfg, s) && c in s.phases && d in s.phases
    requires InsideLock(s.phases[c]) && InsideLock(s.phases[d])
    requires LockKey(cfg.request(c)).Some? && LockKey(cfg.request(c)) == LockKey(cfg.request(d))
    ensures c == d
  {
    assert LocksMatch(cfg, s, c) && LocksMatch(cfg, s, d);
    var l := s.locks.callers[c].lock;
    assert s.locks.callers[d].lock == l;
    assert Locks.Holds(s.locks, c, l) && Locks.Holds(s.locks, d, l);
  }

  // ---- What the cache operations can add ----

  lemma PurgeAddsNothing(c: Cache.Cache, now: int, key: Cache.Key)
    ensures Cache.HasKey(Cache.Purged(c, now), key) ==> Cache.HasKey(c, key)
  {
    Cache.FindIsMember(Cache.Purged(c, now), key);
    Cache.FindIsMember(c, key);
    Cache.FilterMembers(c, (e: Cache.Entry) => e.expires > now);
  }

  lemma WithoutAddsNothing(c: Cache.Cache, gone: Cache.Key, e: Cache.Entry, key: Cache.Key)
    ensures Cache.HasKey(Cache.Without(c, gone) + [e], key) ==> Cache.HasKey(c, key) || key == e.key
  {
    var after := Cache.Without(c, gone) + [e];
    Cache.FindIsMember(after, key);
    Cache.FindIsMember(c, key);
    Cache.FilterMembers(c, (x: Cache.Entry) => x.key != gone);
  }

  /** A lookup adds no key, and after a miss the key is not there at all. */
  lemma GetAddsNothing(cache: Cache.State, asked: Option<Cache.Key>, key: Cache.Key)
    ensures Cache.HasKey(AfterGet(cache, asked).cache, key) ==> Cache.HasKey(cache.cache, key)
    ensures asked == Some(key) && CachedResponse(cache, asked).None? ==> !Cache.HasKey(AfterGet(cache, asked).cache, key)
  {
    if asked.Some? {
      var live := Cache.Purged(cache.cache, cache.now);
      PurgeAddsNothing(cache.cache, cache.now, key);
      var e := Cache.Find(live, asked.value);
      if e.Some? {
        Cache.FindIsMember(live, asked.value);
        WithoutAddsNothing(live, asked.value, e.value, key);
      }
    }
  }

  lemma NewestAddsNothing(c: Cache.Cache, key: Cache.Key)
    ensures Cache.HasKey(Cache.Newest(c), key) ==> Cache.HasKey(c, key)
  {
    Cache.FindIsMember(Cache.Newest(c), key);
    Cache.FindIsMember(c, key);
  }

  lemma StoreAddsOnlyItsKey(cache: Cache.State, stored: Cache.Key, response: Cache.Response, ttl: nat, key: Cache.Key)
    ensures Cache.HasKey(Cache.Next(cache, Cache.Store(stored, response, ttl, 0)).cache, key) ==>
              Cache.HasKey(cache.cache, key) || key == stored
  {
    var live, e := Cache.Purged(cache.cache, cache.now), Cache.Entry(stored, cache.now + ttl, response);
    PurgeAddsNothing(cache.cache, cache.now, key);
    WithoutAddsNothing(live, stored, e, key);
    NewestAddsNothing(Cache.Without(live, stored) + [e], key);
  }

  // ---- At most one computation per cached response ----

  /** While the key's response is cached, nobody starts or continues to compute it. */
  lemma StepKeepsNobodyRuns(cfg: Config, s: State, step: Step, key: Cache.Key)
    requires Orderly(cfg, s) && SharedLock(cfg, key) && NobodyRunsCached(cfg, s, key)
    ensures NobodyRunsCached(cfg, Next(cfg, s, step), key)
  {
    var after := Next(cfg, s, step);
    if Cached(after, key) && after != s {
      match step {
        case Arrive(c) =>
          GetAddsNothing(s.cache, KeyOf(cfg.request(c)), key);
          forall d ensures !Runs(cfg, after, d, key) { assert !Runs(cfg, s, d, key); }
        case Recheck(c) =>
          GetAddsNothing(s.cache, KeyOf(cfg.request(c)), key);
          forall d ensures !Runs(cfg, after, d, key) { assert !Runs(cfg, s, d, key); }
        case Finish(c, response, cacheable) =>
          FinishLeavesNobodyRunning(cfg, s, c, response, cacheable, key);
        case _ =>
          forall d ensures !Runs(cfg, after, d, key) { assert !Runs(cfg, s, d, key); }
      }
    }
  }

  lemma FinishLeavesNobodyRunning(cfg: Config, s: State, c: nat, response: Cache.Response, cacheable: bool, key: Cache.Key)
    requires Orderly(cfg, s) && SharedLock(cfg, key) && NobodyRunsCached(cfg, s, key) && In(s, c, Running)
    ensures NobodyRunsCached(cfg, Finished(cfg, s, c, response, cacheable), key)
  {
    var after, mine := Finished(cfg, s, c, response, cacheable), KeyOf(cfg.request(c));
    if mine.Some? { StoreAddsOnlyItsKey(s.cache, mine.value, response, cfg.ttl, key); }
    if Cached(after, key) {
      forall d ensures !Runs(cfg, after, d, key) {
        if Runs(cfg, s, d, key) && mine == Some(key) {
          OneInside(cfg, s, c, d);
        }
        assert mine != Some(key) ==> !Runs(cfg, s, d, key);
      }
    }
  }

  // ---- The cached response stays the same and is what everybody gets ----

  lemma CachedIsLatest(cfg: Config, s: State, key: Cache.Key)
    requires Orderly(cfg, s) && Cached(s, key)
    ensures Cache.Find(s.cache.cache, key) == Cache.LatestStore(s.cache.log, key)
  {
    Cache.FindIsMember(s.cache.cache, key);
  }

  /** Only a computation of the key's own response stores one. */
  lemma StepKeepsLatest(cfg: Config, s: State, step: Step, key: Cache.Key)
    requires forall c :: !Runs(cfg, s, c, key)
    ensures Cache.LatestStore(Next(cfg, s, step).cache.log, key) == Cache.LatestStore(s.cache.log, key)
  {
    match step {
      case Arrive(c) => GetKeepsLatest(s.cache, KeyOf(cfg.request(c)), key);
      case Recheck(c) => GetKeepsLatest(s.cache, KeyOf(cfg.request(c)), key);
      case Finish(c, response, cacheable) =>
        if In(s, c, Running) && cacheable && KeyOf(cfg.request(c)).Some? {
          assert !Runs(cfg, s, c, key);
          var mine := KeyOf(cfg.request(c)).value;
          Cache.LatestStoreAppend(s.cache.log, Cache.Stored(mine, s.cache.now + cfg.ttl, response), key);
        }
      case _ =>
    }
  }

  lemma GetKeepsLatest(cache: Cache.State, asked: Option<Cache.Key>, key: Cache.Key)
    ensures Cache.LatestStore(AfterGet(cache, asked).log, key) == Cache.LatestStore(cache.log, key)
  {
    if asked.Some? { Cache.LatestStoreAppend(cache.log, Cache.Hit(asked.value), key); }
  }

  function AnswerOf(s: State, c: nat): Option<Answer> {
    if c in s.phases && s.phases[c].Exiting? then Some(s.phases[c].answer)
    else if c in s.phases && s.phases[c].Done? then Some(s.phases[c].answer)
    else None
  }

  lemma HitIsLatest(cfg: Config, s: State, key: Cache.Key)
    requires Orderly(cfg, s) && CachedResponse(s.cache, Some(key)).Some?
    ensures Cache.LatestStore(s.cache.log, key).Some?
    ensures CachedResponse(s.cache, Some(key)) == Some(Cache.LatestStore(s.cache.log, key).value.response)
  {
    var live := Cache.Purged(s.cache.cache, s.cache.now);
    Cache.PurgeKeepsSound(s.cache.cache, s.cache.log, s.cache.now);
    Cache.FindIsMember(live, key);
  }

  /** A step in which nobody computes for the key answers its callers with the latest
      stored response, or not at all, or with a failure. */
  lemma StepAnswersLatest(cfg: Config, s: State, step: Step, key: Cache.Key, c: nat)
    requires Orderly(cfg, s) && (forall d :: !Runs(cfg, s, d, key))
    requires KeyOf(cfg.request(c)) == Some(key)
    requires AnswerOf(s, c).None? && AnswerOf(Next(cfg, s, step), c).Some?
    ensures var a := AnswerOf(Next(cfg, s, step), c).value;
            a.Failed? || (Cache.LatestStore(s.cache.log, key).Some?
                          && a == Replayed(Cache.LatestStore(s.cache.log, key).value.response))
  {
    assert !Runs(cfg, s, c, key);
    if CachedResponse(s.cache, Some(key)).Some? { HitIsLatest(cfg, s, key); }
  }

  /** The states of a run keep the key cached throughout. */
  ghost predicate CachedThroughout(cfg: Config, s: State, steps: seq<Step>, key: Cache.Key) {
    forall k :: 0 <= k <= |steps| ==> Cached(AfterFrom(cfg, s, steps[..k]), key)
  }

  /** Since `first`, the entry e has stayed, nobody computes for its key, and the callers
      with the key who were answered got its response or failed. */
  ghost predicate ServesOnly(cfg: Config, first: State, s: State, key: Cache.Key, e: Cache.Entry) {
    && Orderly(cfg, s) && Cache.Find(s.cache.cache, key) == Some(e)
    && (forall c :: !Runs(cfg, s, c, key))
    && forall c :: KeyOf(cfg.request(c)) == Some(key) && AnswerOf(first, c).None? && AnswerOf(s, c).Some? ==>
         AnswerOf(s, c).value.Failed? || AnswerOf(s, c).value == Replayed(e.response)
  }

  /** An answer once given is kept. */
  lemma AnswersStay(cfg: Config, s: State, step: Step, c: nat)
    requires AnswerOf(s, c).Some?
    ensures AnswerOf(Next(cfg, s, step), c) == AnswerOf(s, c)
  {
  }

  lemma StepServesOnly(cfg: Config, first: State, s: State, step: Step, key: Cache.Key, e: Cache.Entry)
    requires SharedLock(cfg, key) && ServesOnly(cfg, first, s, key, e) && Cached(Next(cfg, s, step), key)
    ensures ServesOnly(cfg, first, Next(cfg, s, step), key, e)
  {
    var after := Next(cfg, s, step);
    StepKeepsOrder(cfg, s, step);
    StepKeepsNobodyRuns(cfg, s, step, key);
    CachedIsLatest(cfg, s, key);
    CachedIsLatest(cfg, after, key);
    StepKeepsLatest(cfg, s, step, key);
    forall c | KeyOf(cfg.request(c)) == Some(key) && AnswerOf(first, c).None? && AnswerOf(after, c).Some?
      ensures AnswerOf(after, c).value.Failed? || AnswerOf(after, c).value == Replayed(e.response)
    {
      if AnswerOf(s, c).Some? { AnswersStay(cfg, s, step, c); } else { StepAnswersLatest(cfg, s, step, key, c); }
    }
  }

  /** At most once: from a state in which a response is cached for the key, and for as long
      as it is neither expired and purged nor evicted, nobody computes for that key, the
      response stays the same, and every caller with the key who is answered gets it or fails. */
  lemma {:induction false} AtMostOncePerKey(cfg: Config, s: State, steps: seq<Step>, key: Cache.Key, e: Cache.Entry)
    requires Orderly(cfg, s) && SharedLock(cfg, key) && NobodyRunsCached(cfg, s, key)
    requires Cache.Find(s.cache.cache, key) == Some(e)
    requires CachedThroughout(cfg, s, steps, key)
    ensures ServesOnly(cfg, s, AfterFrom(cfg, s, steps), key, e)
  {
    if steps != [] {
      var before := steps[..|steps| - 1];
      forall k | 0 <= k <= |before| ensures Cached(AfterFrom(cfg, s, before[..k]), key) {
        assert before[..k] == steps[..k];
      }
      AtMostOncePerKey(cfg, s, before, key, e);
      assert steps[..|steps|] == steps;
      StepServesOnly(cfg, s, AfterFrom(cfg, s, before), steps[|steps| - 1], key, e);
    }
  }

  /** In every state of a run the entry's time is not over, and fewer other keys than the cache
      holds were used since the key's own last use. */
  ghost predicate ValidThroughout(cfg: Config, s: State, steps: seq<Step>, key: Cache.Key, e: Cache.Entry) {
    forall k :: 0 <= k <= |steps| ==> Valid(AfterFrom(cfg, s, steps[..k]), key, e)
  }

  predicate Valid(s: State, key: Cache.Key, e: Cache.Entry) {
    s.cache.now < e.expires && !Cache.CrowdedOut(s.cache.log, key)
  }

  /** A response that is neither expired nor crowded out is still cached. */
  lemma ValidStaysCached(cfg: Config, first: State, s: State, step: Step, key: Cache.Key, e: Cache.Entry)
    requires ServesOnly(cfg, first, s, key, e) && Valid(Next(cfg, s, step), key, e)
    ensures Cached(Next(cfg, s, step), key)
  {
    StepKeepsOrder(cfg, s, step);
    Cache.FindIsMember(s.cache.cache, key);
    CachedIsLatest(cfg, s, key);
    StepKeepsLatest(cfg, s, step, key);
    ValidIsCached(cfg, Next(cfg, s, step), key, e);
  }

  lemma ValidIsCached(cfg: Config, s: State, key: Cache.Key, e: Cache.Entry)
    requires Orderly(cfg, s) && Valid(s, key, e) && Cache.LatestStore(s.cache.log, key) == Some(e)
    ensures Cached(s, key)
  {
    assert Cache.LiveAt(s.cache.log, key, s.cache.now);
  }

  /** At most once, in the requester's terms: until the stored response expires, and until as
      many other keys as the cache holds have been used since the key was, nobody runs the
      pipeline for the key and every caller with it who is answered gets that response or fails. */
  lemma {:induction false} AtMostOnceUntilExpiry(cfg: Config, s: State, steps: seq<Step>, key: Cache.Key, e: Cache.Entry)
    requires Orderly(cfg, s) && SharedLock(cfg, key) && NobodyRunsCached(cfg, s, key)
    requires Cache.Find(s.cache.cache, key) == Some(e) && ValidThroughout(cfg, s, steps, key, e)
    ensures ServesOnly(cfg, s, AfterFrom(cfg, s, steps), key, e)
  {
    if steps != [] {
      var before := steps[..|steps| - 1];
      forall k | 0 <= k <= |before| ensures Valid(AfterFrom(cfg, s, before[..k]), key, e) {
        assert before[..k] == steps[..k];
      }
      AtMostOnceUntilExpiry(cfg, s, before, key, e);
      assert steps[..|steps|] == steps;
      ValidStaysCached(cfg, s, AfterFrom(cfg, s, before), steps[|steps| - 1], key, e);
      StepServesOnly(cfg, s, AfterFrom(cfg, s, before), steps[|steps| - 1], key, e);
    }
  }

  /** The hypotheses of the theorems above hold in every state that a run reaches. */
  lemma {:induction false} NobodyEverRunsCached(cfg: Config, steps: seq<Step>, key: Cache.Key)
    requires SharedLock(cfg, key)
    ensures Orderly(cfg, AfterFrom(cfg, START, steps)) && NobodyRunsCached(cfg, AfterFrom(cfg, START, steps), key)
  {
    StartIsOrderly(cfg);
    RunsAreOrderly(cfg, START, steps);
    if steps != [] {
      NobodyEverRunsCached(cfg, steps[..|steps| - 1], key);
      StepKeepsNobodyRuns(cfg, AfterFrom(cfg, START, steps[..|steps| - 1]), steps[|steps| - 1], key);
    }
  }

  // ---- Exactly when two calls with one key can compute at the same time ----

  lemma AfterOneMore(cfg: Config, s: State, steps: seq<Step>, step: Step)
    ensures AfterFrom(cfg, s, steps + [step]) == Next(cfg, AfterFrom(cfg, s, steps), step)
  {
    assert (steps + [step])[..|steps|] == steps;
  }

  lemma AfterTwoMore(cfg: Config, s: State, steps: seq<Step>, x: Step, y: Step)
    ensures AfterFrom(cfg, s, steps + [x, y]) == Next(cfg, Next(cfg, AfterFrom(cfg, s, steps), x), y)
  {
    var one := AfterFrom(cfg, s, steps + [x]);
    AfterOneMore(cfg, s, steps, x);
    AfterOneMore(cfg, s, steps + [x], y);
    assert steps + [x, y] == (steps + [x]) + [y];
    assert AfterFrom(cfg, s, steps + [x, y]) == Next(cfg, one, y);
  }

  lemma EmptyCacheMisses(cache: Cache.State, key: Option<Cache.Key>)
    requires cache.cache == []
    ensures CachedResponse(cache, key).None? && AfterGet(cache, key) == cache
  {
  }

  function BothAt(locks: Locks.State, active: nat, a: nat, b: nat, p: Phase): State {
    State(locks, START.cache, active, map[a := p, b := p])
  }

  /** The lock table with one caller at each of two locks. */
  function TwoQueues(a: nat, x: string, b: nat, y: string): Locks.State {
    Locks.State(map[x := Locks.Entry(0, 1), y := Locks.Entry(1, 1)],
                map[a := Locks.Waiting(x, 0), b := Locks.Waiting(y, 1)], {}, 2)
  }

  function TwoHolders(a: nat, x: string, b: nat, y: string): Locks.State {
    Locks.State(map[x := Locks.Entry(0, 1), y := Locks.Entry(1, 1)],
                map[a := Locks.Holding(x, 0), b := Locks.Holding(y, 1)], {0, 1}, 2)
  }

  lemma BothArrive(cfg: Config, a: nat, b: nat)
    requires a != b
    ensures Next(cfg, Next(cfg, START, Arrive(a)), Arrive(b)) == BothAt(Locks.EMPTY, 0, a, b, Missed)
  {
    EmptyCacheMisses(START.cache, KeyOf(cfg.request(a)));
    EmptyCacheMisses(START.cache, KeyOf(cfg.request(b)));
  }

  lemma BothEnter(cfg: Config, a: nat, b: nat, x: string, y: string)
    requires a != b && x != y && cfg.maxActive >= 2
    requires LockKey(cfg.request(a)) == Some(x) && LockKey(cfg.request(b)) == Some(y)
    ensures Next(cfg, Next(cfg, BothAt(Locks.EMPTY, 0, a, b, Missed), Enter(a)), Enter(b))
         == BothAt(TwoQueues(a, x, b, y), 2, a, b, Waiting)
  {
  }

  lemma BothAcquire(cfg: Config, a: nat, b: nat, x: string, y: string)
    requires a != b && x != y
    ensures Next(cfg, Next(cfg, BothAt(TwoQueues(a, x, b, y), 2, a, b, Waiting), Acquire(a)), Acquire(b))
         == BothAt(TwoHolders(a, x, b, y), 2, a, b, Admitted)
  {
  }

  lemma BothRecheck(cfg: Config, locks: Locks.State, a: nat, b: nat)
    requires a != b
    ensures Next(cfg, Next(cfg, BothAt(locks, 2, a, b, Admitted), Recheck(a)), Recheck(b))
         == BothAt(locks, 2, a, b, Running)
  {
    EmptyCacheMisses(START.cache, KeyOf(cfg.request(a)));
    EmptyCacheMisses(START.cache, KeyOf(cfg.request(b)));
  }

  /** Two calls with different locks can be led to compute at the same time. */
  lemma DifferentLocksOverlap(cfg: Config, a: nat, b: nat, x: string, y: string) returns (steps: seq<Step>)
    requires a != b && x != y && cfg.maxActive >= 2
    requires LockKey(cfg.request(a)) == Some(x) && LockKey(cfg.request(b)) == Some(y)
    ensures In(AfterFrom(cfg, START, steps), a, Running) && In(AfterFrom(cfg, START, steps), b, Running)
  {
    var arrived := [Arrive(a), Arrive(b)];
    var entered := arrived + [Enter(a), Enter(b)];
    var acquired := entered + [Acquire(a), Acquire(b)];
    steps := acquired + [Recheck(a), Recheck(b)];
    AfterTwoMore(cfg, START, [], Arrive(a), Arrive(b));
    assert [] + [Arrive(a), Arrive(b)] == arrived;
    BothArrive(cfg, a, b);
    AfterTwoMore(cfg, START, arrived, Enter(a), Enter(b));
    BothEnter(cfg, a, b, x, y);
    AfterTwoMore(cfg, START, entered, Acquire(a), Acquire(b));
    BothAcquire(cfg, a, b, x, y);
    AfterTwoMore(cfg, START, acquired, Recheck(a), Recheck(b));
    BothRecheck(cfg, TwoHolders(a, x, b, y), a, b);
  }

  predicate BothRun(s: State, a: nat, b: nat) {
    In(s, a, Running) && In(s, b, Running)
  }

  /** The run ends with both calls computing. */
  predicate Overlaps(cfg: Config, steps: seq<Step>, a: nat, b: nat) {
    BothRun(AfterFrom(cfg, START, steps), a, b)
  }

  /** Two calls with one idempotency key can compute at the same time exactly when they
      are serialized by different locks, that is when they name different sessions. */
  lemma OverlapExactlyWithDifferentLocks(cfg: Config, a: nat, b: nat)
    requires a != b && cfg.maxActive >= 2
    requires KeyOf(cfg.request(a)).Some? && KeyOf(cfg.request(a)) == KeyOf(cfg.request(b))
    ensures LockKey(cfg.request(a)) != LockKey(cfg.request(b)) <==>
              exists steps :: Overlaps(cfg, steps, a, b)
  {
    var x, y := LockKey(cfg.request(a)), LockKey(cfg.request(b));
    if x != y {
      var steps := DifferentLocksOverlap(cfg, a, b, x.value, y.value);
      assert Overlaps(cfg, steps, a, b);
    } else {
      forall steps ensures !Overlaps(cfg, steps, a, b) {
        StartIsOrderly(cfg);
        RunsAreOrderly(cfg, START, steps);
        NoOverlapUnderOneLock(cfg, AfterFrom(cfg, START, steps), a, b);
      }
    }
  }

  lemma NoOverlapUnderOneLock(cfg: Config, s: State, a: nat, b: nat)
    requires Orderly(cfg, s) && a != b
    requires LockKey(cfg.request(a)).Some? && LockKey(cfg.request(a)) == LockKey(cfg.request(b))
    ensures !BothRun(s, a, b)
  {
    if BothRun(s, a, b) {
      OneInside(cfg, s, a, b);
    }
  }

  // ---- Admission ----

  /** A move that gives or takes a slot changes the number of slot holders by one. */
  lemma SlotsAfterMove(phases: map<nat, Phase>, c: nat, p: Phase)
    ensures var was := c in phases && HoldsSlot(phases[c]);
            |SlotHolders(phases[c := p])|
            == |SlotHolders(phases)| + (if HoldsSlot(p) then 1 else 0) - (if was then 1 else 0)
  {
    var before, after := SlotHolders(phases), SlotHolders(phases[c := p]);
    assert c in before <==> c in phases && HoldsSlot(phases[c]);
    assert after == if HoldsSlot(p) then before + {c} else before - {c};
  }

  lemma LeavingKeepsSlots(cfg: Config, s: State, c: nat, how: Locks.Step, answer: Answer)
    requires SlotsExact(cfg, s) && c in s.phases && HoldsSlot(s.phases[c])
    ensures SlotsExact(cfg, Left(cfg, s, c, how, answer))
  {
    SlotsAfterMove(s.phases, c, Done(answer));
    assert c in SlotHolders(s.phases);
  }

  lemma StayingKeepsSlots(cfg: Config, s: State, after: State, c: nat)
    requires SlotsExact(cfg, s) && after.active == s.active
    requires c in after.phases && after.phases == s.phases[c := after.phases[c]]
    requires HoldsSlot(after.phases[c]) <==> c in s.phases && HoldsSlot(s.phases[c])
    ensures SlotsExact(cfg, after)
  {
    SlotsAfterMove(s.phases, c, after.phases[c]);
  }

  lemma EnteringKeepsSlots(cfg: Config, s: State, c: nat)
    requires SlotsExact(cfg, s) && In(s, c, Missed)
    ensures SlotsExact(cfg, Entered(cfg, s, c))
  {
    SlotsAfterMove(s.phases, c, Entered(cfg, s, c).phases[c]);
  }

  /** The slot count is the number of admitted callers and never exceeds its bound. */
  lemma StepKeepsSlots(cfg: Config, s: State, step: Step)
    requires SlotsExact(cfg, s)
    ensures SlotsExact(cfg, Next(cfg, s, step))
  {
    var after := Next(cfg, s, step);
    if after != s {
      match step {
        case Tick(_) =>
        case Enter(c) => EnteringKeepsSlots(cfg, s, c);
        case GiveUp(c) => LeavingKeepsSlots(cfg, s, c, Locks.GiveUp(c), Failed);
        case Exit(c) => LeavingKeepsSlots(cfg, s, c, Locks.Release(c), s.phases[c].answer);
        case Arrive(c) => StayingKeepsSlots(cfg, s, after, c);
        case Acquire(c) => StayingKeepsSlots(cfg, s, after, c);
        case Recheck(c) => StayingKeepsSlots(cfg, s, after, c);
        case Finish(c, _, _) => StayingKeepsSlots(cfg, s, after, c);
        case Fail(c) => StayingKeepsSlots(cfg, s, after, c);
      }
    }
  }

  lemma {:induction false} AdmissionIsBounded(cfg: Config, steps: seq<Step>)
    ensures SlotsExact(cfg, AfterFrom(cfg, START, steps))
  {
    if steps != [] {
      AdmissionIsBounded(cfg, steps[..|steps| - 1]);
      StepKeepsSlots(cfg, AfterFrom(cfg, START, steps[..|steps| - 1]), steps[|steps| - 1]);
    } else {
      assert SlotHolders(START.phases) == {};
    }
  }
}
