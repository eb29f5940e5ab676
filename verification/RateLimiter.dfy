/** The sliding-window rate limiter: per key the times of the recent admissions, purged as
    requests come in. It decides like a limiter that keeps the full log. */
module RateLimiter {

  const WINDOW := 60.0

  datatype Verdict = Admitted | Rejected(retryAfter: int)

  type Windows = map<string, seq<real>>

  function TimesOf(m: Windows, key: string): seq<real> {
    if key in m then m[key] else []
  }

  function DropOld(times: seq<real>, now: real): seq<real> {
    if times != [] && now - times[0] > WINDOW then DropOld(times[1..], now) else times
  }

  predicate IsIdle(times: seq<real>, now: real) {
    times == [] || now - times[|times| - 1] > WINDOW
  }

  /** Windows of other keys that have gone idle are forgotten. */
  function WithoutIdle(m: Windows, key: string, now: real): Windows {
    map k | k in m && (k == key || !IsIdle(m[k], now)) :: m[k]
  }

  function Max(a: int, b: int): int {
    if a >= b then a else b
  }

  function RetryAfter(oldest: real, now: real): int {
    Max(1, (WINDOW - (now - oldest)).Floor + 1)
  }

  function Decide(times: seq<real>, limit: nat, now: real): Verdict
    requires limit >= 1
  {
    if |times| >= limit then Rejected(RetryAfter(times[0], now)) else Admitted
  }

  function Consumed(m: Windows, key: string, limit: nat, now: real): Windows
    requires limit >= 1
  {
    var recent := DropOld(TimesOf(m, key), now);
    var kept := WithoutIdle(m[key := recent], key, now);
    if Decide(recent, limit, now).Admitted? then kept[key := recent + [now]] else kept
  }

  class Limiter {
    var windows: Windows

    constructor ()
      ensures windows == map[]
    {
      windows := map[];
    }

    method Consume(key: string, limit: nat, now: real) returns (v: Verdict)
      requires limit >= 1
      modifies this
      ensures windows == Consumed(old(windows), key, limit, now)
      ensures v == Decide(DropOld(TimesOf(old(windows), key), now), limit, now)
    {
      var times := if key in windows then windows[key] else [];
      while times != [] && now - times[0] > WINDOW
        invariant DropOld(times, now) == DropOld(TimesOf(old(windows), key), now)
        decreases |times|
      {
        times := times[1..];
      }
      windows := windows[key := times];
      windows := WithoutIdle(windows, key, now);
      if |times| >= limit {
        return Rejected(Max(1, (WINDOW - (now - times[0])).Floor + 1));
      }
      windows := windows[key := times + [now]];
      v := Admitted;
    }
  }

  // ---- The reference: a limiter that never forgets ----

  predicate Ascending(times: seq<real>) {
    |times| <= 1 || (times[|times| - 2] <= times[|times| - 1] && Ascending(times[..|times| - 1]))
  }

  /** The admissions of the last window, both ends included. */
  function RecentCount(log: seq<real>, now: real): nat {
    if log == [] then 0 else RecentCount(log[..|log| - 1], now) + (if now - log[|log| - 1] <= WINDOW then 1 else 0)
  }

  /** The full-log limiter admits while fewer than `limit` admissions are recent. */
  predicate ReferenceAdmits(log: seq<real>, limit: nat, now: real) {
    RecentCount(log, now) < limit
  }

  // ---- Runs ----

  datatype State = State(windows: Windows, log: Windows, now: real)

  type Elapsed = r: real | r >= 0.0

  datatype Request = Request(key: string, elapsed: Elapsed)

  ghost predicate Positive(limits: string -> nat) {
    forall k: string :: limits(k) >= 1
  }

  /** What the limiter answers to a request that comes `elapsed` after the last one. */
  function Answer(limits: string -> nat, s: State, r: Request): Verdict
    requires Positive(limits)
  {
    Decide(DropOld(TimesOf(s.windows, r.key), s.now + r.elapsed), limits(r.key), s.now + r.elapsed)
  }

  function Next(limits: string -> nat, s: State, r: Request): State
    requires Positive(limits)
  {
    var now := s.now + r.elapsed;
    State(Consumed(s.windows, r.key, limits(r.key), now),
          if Answer(limits, s, r).Admitted? then s.log[r.key := TimesOf(s.log, r.key) + [now]] else s.log, now)
  }

  const START := State(map[], map[], 0.0)

  function Run(limits: string -> nat, s: State, rs: seq<Request>): State
    requires Positive(limits)
  {
    if rs == [] then s else Next(limits, Run(limits, s, rs[..|rs| - 1]), rs[|rs| - 1])
  }

  /** The window is the end of the log, and the admission before it is older than a window. */
  predicate Covers(window: seq<real>, log: seq<real>, now: real) {
    if window == [] then
      log == [] || now - log[|log| - 1] > WINDOW
    else
      && log != [] && window[|window| - 1] == log[|log| - 1]
      && Covers(window[..|window| - 1], log[..|log| - 1], now)
  }

  /** Any limit + 1 consecutive admissions span more than a window. */
  predicate Spaced(log: seq<real>, limit: nat) {
    log == [] || (Spaced(log[..|log| - 1], limit)
                  && (|log| > limit ==> log[|log| - 1] - log[|log| - 1 - limit] > WINDOW))
  }

  /** What one key's window and full log keep, as long as that key's limit is `limit`. */
  predicate InStep(window: seq<real>, log: seq<real>, limit: nat, now: real) {
    && Ascending(log) && (log != [] ==> log[|log| - 1] <= now)
    && Covers(window, log, now) && |window| <= limit
    && Spaced(log, limit)
  }

  ghost predicate KeySound(limits: string -> nat, s: State, key: string) {
    InStep(TimesOf(s.windows, key), TimesOf(s.log, key), limits(key), s.now)
  }

  ghost predicate Sound(limits: string -> nat, s: State) {
    forall key :: KeySound(limits, s, key)
  }

  // ---- One key, step by step ----

  lemma {:induction false} AscendingAt(log: seq<real>, i: nat, j: nat)
    requires Ascending(log) && i <= j < |log|
    ensures log[i] <= log[j]
  {
    if j < |log| - 1 {
      AscendingAt(log[..|log| - 1], i, j);
    } else if i < j {
      AscendingAt(log[..|log| - 1], i, |log| - 2);
    }
  }

  lemma {:induction false} SpacedAt(log: seq<real>, limit: nat, i: nat)
    requires Spaced(log, limit) && i + limit < |log|
    ensures log[i + limit] - log[i] > WINDOW
  {
    if i + limit < |log| - 1 { SpacedAt(log[..|log| - 1], limit, i); }
  }

  lemma {:induction false} CoversSuffix(window: seq<real>, log: seq<real>, now: real)
    requires Covers(window, log, now)
    ensures |window| <= |log| && window == log[|log| - |window|..]
  {
    if window != [] { CoversSuffix(window[..|window| - 1], log[..|log| - 1], now); }
  }

  lemma {:induction false} CoversAt(window: seq<real>, log: seq<real>, now: real, i: nat)
    requires Covers(window, log, now) && Ascending(log) && i + |window| < |log|
    ensures now - log[i] > WINDOW
  {
    if window != [] {
      CoversAt(window[..|window| - 1], log[..|log| - 1], now, i);
    } else {
      AscendingAt(log, i, |log| - 1);
    }
  }

  lemma {:induction false} CoversLater(window: seq<real>, log: seq<real>, before: real, now: real)
    requires Covers(window, log, before) && before <= now
    ensures Covers(window, log, now)
  {
    if window != [] { CoversLater(window[..|window| - 1], log[..|log| - 1], before, now); }
  }

  lemma {:induction false} CoversRest(window: seq<real>, log: seq<real>, now: real)
    requires Covers(window, log, now) && window != [] && now - window[0] > WINDOW
    ensures Covers(window[1..], log, now)
  {
    if |window| > 1 {
      CoversRest(window[..|window| - 1], log[..|log| - 1], now);
      assert window[1..][..|window| - 2] == window[..|window| - 1][1..];
    }
  }

  lemma {:induction false} DropOldCovers(window: seq<real>, log: seq<real>, now: real)
    requires Covers(window, log, now)
    ensures Covers(DropOld(window, now), log, now)
    ensures |DropOld(window, now)| <= |window|
    ensures DropOld(window, now) != [] ==> now - DropOld(window, now)[0] <= WINDOW
    decreases |window|
  {
    if window != [] && now - window[0] > WINDOW {
      CoversRest(window, log, now);
      DropOldCovers(window[1..], log, now);
    }
  }

  lemma LastIsRecent(window: seq<real>, log: seq<real>, now: real)
    requires Ascending(log) && Covers(window, log, now) && window != [] && now - window[0] <= WINDOW
    ensures now - log[|log| - 1] <= WINDOW
  {
    CoversSuffix(window, log, now);
    AscendingAt(log, |log| - |window|, |log| - 1);
  }

  /** Dropping what is old leaves exactly the recent admissions of the full log. */
  lemma {:induction false} RecentIsCounted(window: seq<real>, log: seq<real>, now: real)
    requires Ascending(log) && Covers(window, log, now)
    requires window != [] ==> now - window[0] <= WINDOW
    ensures RecentCount(log, now) == |window|
    decreases |log|
  {
    if log != [] {
      if window == [] {
        RecentIsCounted([], log[..|log| - 1], now);
      } else {
        LastIsRecent(window, log, now);
        RecentIsCounted(window[..|window| - 1], log[..|log| - 1], now);
      }
    }
  }

  lemma PurgingKeepsStep(window: seq<real>, log: seq<real>, limit: nat, before: real, now: real)
    requires InStep(window, log, limit, before) && before <= now
    ensures InStep(DropOld(window, now), log, limit, now)
    ensures RecentCount(log, now) == |DropOld(window, now)|
  {
    CoversLater(window, log, before, now);
    DropOldCovers(window, log, now);
    RecentIsCounted(DropOld(window, now), log, now);
  }

  lemma AdmissionKeepsStep(recent: seq<real>, log: seq<real>, limit: nat, now: real)
    requires InStep(recent, log, limit, now) && |recent| < limit
    ensures InStep(recent + [now], log + [now], limit, now)
  {
    assert (log + [now])[..|log|] == log && (recent + [now])[..|recent|] == recent;
    if |log| >= limit { CoversAt(recent, log, now, |log| - limit); }
  }

  lemma IdlenessKeepsStep(window: seq<real>, log: seq<real>, limit: nat, before: real, now: real)
    requires InStep(window, log, limit, before) && before <= now
    ensures InStep(if IsIdle(window, now) then [] else window, log, limit, now)
  {
    CoversLater(window, log, before, now);
  }

  // ---- The whole limiter, step by step ----

  lemma AdmittedBelowLimit(times: seq<real>, limit: nat, now: real)
    requires limit >= 1
    ensures Decide(times, limit, now).Admitted? <==> |times| < limit
  {
  }

  lemma OwnWindowAfter(m: Windows, key: string, limit: nat, now: real)
    requires limit >= 1
    ensures var recent := DropOld(TimesOf(m, key), now);
            TimesOf(Consumed(m, key, limit, now), key) == if |recent| < limit then recent + [now] else recent
  {
    AdmittedBelowLimit(DropOld(TimesOf(m, key), now), limit, now);
  }

  lemma OtherWindowAfter(m: Windows, key: string, limit: nat, now: real, other: string)
    requires limit >= 1 && other != key
    ensures TimesOf(Consumed(m, key, limit, now), other) ==
            if IsIdle(TimesOf(m, other), now) then [] else TimesOf(m, other)
  {
  }

  lemma NextOwn(limits: string -> nat, s: State, r: Request, t: State, recent: seq<real>)
    requires Positive(limits) && t == Next(limits, s, r)
    requires recent == DropOld(TimesOf(s.windows, r.key), s.now + r.elapsed)
    ensures t.now == s.now + r.elapsed
    ensures TimesOf(t.windows, r.key) == if |recent| < limits(r.key) then recent + [t.now] else recent
    ensures TimesOf(t.log, r.key) == TimesOf(s.log, r.key) + if |recent| < limits(r.key) then [t.now] else []
    ensures Answer(limits, s, r).Admitted? <==> |recent| < limits(r.key)
  {
    OwnWindowAfter(s.windows, r.key, limits(r.key), s.now + r.elapsed);
    AdmittedBelowLimit(recent, limits(r.key), s.now + r.elapsed);
  }

  lemma NextOther(limits: string -> nat, s: State, r: Request, t: State, key: string)
    requires Positive(limits) && t == Next(limits, s, r) && key != r.key
    ensures t.now == s.now + r.elapsed
    ensures TimesOf(t.windows, key) == if IsIdle(TimesOf(s.windows, key), t.now) then [] else TimesOf(s.windows, key)
    ensures TimesOf(t.log, key) == TimesOf(s.log, key)
  {
    OtherWindowAfter(s.windows, r.key, limits(r.key), s.now + r.elapsed, key);
  }

  lemma OwnKeyStaysSound(limits: string -> nat, s: State, r: Request, t: State)
    requires Positive(limits) && t == Next(limits, s, r) && KeySound(limits, s, r.key)
    ensures KeySound(limits, t, r.key)
  {
    var window, log, now := TimesOf(s.windows, r.key), TimesOf(s.log, r.key), s.now + r.elapsed;
    var recent := DropOld(window, now);
    NextOwn(limits, s, r, t, recent);
    PurgingKeepsStep(window, log, limits(r.key), s.now, now);
    if |recent| < limits(r.key) { AdmissionKeepsStep(recent, log, limits(r.key), now); }
  }

  lemma OtherKeyStaysSound(limits: string -> nat, s: State, r: Request, t: State, key: string)
    requires Positive(limits) && t == Next(limits, s, r) && KeySound(limits, s, key) && key != r.key
    ensures KeySound(limits, t, key)
  {
    NextOther(limits, s, r, t, key);
    IdlenessKeepsStep(TimesOf(s.windows, key), TimesOf(s.log, key), limits(key), s.now, t.now);
  }

  lemma NextIsSound(limits: string -> nat, s: State, r: Request, t: State, key: string)
    requires Positive(limits) && t == Next(limits, s, r) && KeySound(limits, s, key)
    ensures KeySound(limits, t, key)
  {
    if key == r.key { OwnKeyStaysSound(limits, s, r, t); } else { OtherKeyStaysSound(limits, s, r, t, key); }
  }

  lemma {:induction false} RunsAreSound(limits: string -> nat, s: State, rs: seq<Request>)
    requires Positive(limits) && Sound(limits, s)
    ensures Sound(limits, Run(limits, s, rs))
  {
    if rs != [] {
      var before, r := rs[..|rs| - 1], rs[|rs| - 1];
      RunsAreSound(limits, s, before);
      var mid, end := Run(limits, s, before), Run(limits, s, rs);
      forall key ensures KeySound(limits, end, key) { NextIsSound(limits, mid, r, end, key); }
    }
  }

  lemma ReachableIsSound(limits: string -> nat, rs: seq<Request>, key: string)
    requires Positive(limits)
    ensures KeySound(limits, Run(limits, START, rs), key)
  {
    assert Sound(limits, START) by {
      forall k ensures KeySound(limits, START, k) { }
    }
    RunsAreSound(limits, START, rs);
  }

  lemma DecidesLikeFullLog(window: seq<real>, log: seq<real>, limit: nat, before: real, now: real)
    requires InStep(window, log, limit, before) && before <= now && limit >= 1
    ensures Decide(DropOld(window, now), limit, now).Admitted? <==> ReferenceAdmits(log, limit, now)
  {
    PurgingKeepsStep(window, log, limit, before, now);
    AdmittedBelowLimit(DropOld(window, now), limit, now);
  }

  /** Over every run the limiter decides exactly like the one that keeps the full log. */
  lemma RefinesFullLog(limits: string -> nat, rs: seq<Request>, r: Request)
    requires Positive(limits)
    ensures var s := Run(limits, START, rs);
            Answer(limits, s, r).Admitted? <==>
            ReferenceAdmits(TimesOf(s.log, r.key), limits(r.key), s.now + r.elapsed)
  {
    ReachableIsSound(limits, rs, r.key);
    var s := Run(limits, START, rs);
    DecidesLikeFullLog(TimesOf(s.windows, r.key), TimesOf(s.log, r.key), limits(r.key), s.now, s.now + r.elapsed);
  }

  /** Any closed interval of one window's length holds at most `limit` admissions of a key. */
  lemma WindowHoldsAtMostLimit(limits: string -> nat, rs: seq<Request>, key: string, i: nat, j: nat)
    requires Positive(limits)
    requires var log := TimesOf(Run(limits, START, rs).log, key); i <= j < |log| && log[j] - log[i] <= WINDOW
    ensures j - i + 1 <= limits(key)
  {
    ReachableIsSound(limits, rs, key);
    SpacedBoundsInterval(TimesOf(Run(limits, START, rs).log, key), limits(key), i, j);
  }

  lemma SpacedBoundsInterval(log: seq<real>, limit: nat, i: nat, j: nat)
    requires Spaced(log, limit) && Ascending(log) && i <= j < |log|
    ensures j - i >= limit ==> log[j] - log[i] > WINDOW
  {
    if j - i >= limit {
      SpacedAt(log, limit, i);
      AscendingAt(log, i + limit, j);
    }
  }

  // ---- Retry-After ----

  lemma RetryIsLongEnough(oldest: real, now: real)
    requires oldest <= now && now - oldest <= WINDOW
    ensures var r := RetryAfter(oldest, now);
            1 <= r <= 61 && now + r as real - oldest > WINDOW
  {
  }

  lemma {:induction false} OthersKeepLog(limits: string -> nat, s: State, others: seq<Request>, key: string)
    requires Positive(limits) && forall i :: 0 <= i < |others| ==> others[i].key != key
    ensures TimesOf(Run(limits, s, others).log, key) == TimesOf(s.log, key)
    ensures Run(limits, s, others).now >= s.now
  {
    if others != [] {
      var before, r := others[..|others| - 1], others[|others| - 1];
      OthersKeepLog(limits, s, before, key);
      NextOther(limits, Run(limits, s, before), r, Run(limits, s, others), key);
    }
  }

  /** Once the oldest of a full window has aged, the window is no longer full. */
  lemma LaterWindowIsShorter(window: seq<real>, log: seq<real>, recent: seq<real>, limit: nat, before: real, later: real)
    requires InStep(window, log, limit, before) && before <= later && limit >= 1
    requires |recent| == limit <= |log| && recent == log[|log| - limit..] && later - recent[0] > WINDOW
    ensures |DropOld(window, later)| < limit
  {
    CoversLater(window, log, before, later);
    DropOldCovers(window, log, later);
    CoversSuffix(DropOld(window, later), log, later);
  }

  lemma RejectionIsLongEnough(window: seq<real>, log: seq<real>, limit: nat, before: real, now: real)
    requires InStep(window, log, limit, before) && before <= now && limit >= 1
    requires Decide(DropOld(window, now), limit, now).Rejected?
    ensures var recent := DropOld(window, now);
            && |recent| == limit <= |log| && recent == log[|log| - limit..]
            && now + Decide(recent, limit, now).retryAfter as real - recent[0] > WINDOW
  {
    var recent := DropOld(window, now);
    CoversLater(window, log, before, now);
    DropOldCovers(window, log, now);
    CoversSuffix(recent, log, now);
    AscendingAt(log, |log| - limit, |log| - 1);
    RetryIsLongEnough(recent[0], now);
  }

  lemma SoundAfter(limits: string -> nat, s: State, r: Request, others: seq<Request>)
    requires Positive(limits) && Sound(limits, s)
    ensures Sound(limits, Run(limits, Next(limits, s, r), others))
  {
    var t := Next(limits, s, r);
    forall key ensures KeySound(limits, t, key) { NextIsSound(limits, s, r, t, key); }
    RunsAreSound(limits, t, others);
  }

  lemma AgedRequestIsAdmitted(limits: string -> nat, s: State, r: Request, end: State, again: Request)
    requires Positive(limits) && KeySound(limits, s, r.key) && KeySound(limits, end, r.key) && again.key == r.key
    requires Answer(limits, s, r).Rejected? && TimesOf(end.log, r.key) == TimesOf(s.log, r.key)
    requires end.now + again.elapsed >= s.now + r.elapsed + Answer(limits, s, r).retryAfter as real
    ensures Answer(limits, end, again).Admitted?
  {
    var window, log, now := TimesOf(s.windows, r.key), TimesOf(s.log, r.key), s.now + r.elapsed;
    var later, limit := end.now + again.elapsed, limits(r.key);
    RejectionIsLongEnough(window, log, limit, s.now, now);
    LaterWindowIsShorter(TimesOf(end.windows, r.key), log, DropOld(window, now), limit, end.now, later);
    AdmittedBelowLimit(DropOld(TimesOf(end.windows, r.key), later), limit, later);
  }

  lemma RejectionKeepsLog(limits: string -> nat, s: State, r: Request, t: State)
    requires Positive(limits) && t == Next(limits, s, r) && Answer(limits, s, r).Rejected?
    ensures TimesOf(t.log, r.key) == TimesOf(s.log, r.key)
  {
  }

  /** A rejected caller who waits the announced time, while its key makes no other request,
      is admitted, whatever other keys do meanwhile. */
  lemma WaitingIsRewarded(limits: string -> nat, s: State, r: Request, others: seq<Request>, again: Request)
    requires Positive(limits) && Sound(limits, s) && Answer(limits, s, r).Rejected?
    requires again.key == r.key && forall i :: 0 <= i < |others| ==> others[i].key != r.key
    requires var end := Run(limits, Next(limits, s, r), others);
             end.now + again.elapsed >= s.now + r.elapsed + Answer(limits, s, r).retryAfter as real
    ensures Answer(limits, Run(limits, Next(limits, s, r), others), again).Admitted?
  {
    var t := Next(limits, s, r);
    var end := Run(limits, t, others);
    RejectionKeepsLog(limits, s, r, t);
    SoundAfter(limits, s, r, others);
    OthersKeepLog(limits, t, others, r.key);
    assert KeySound(limits, s, r.key) && KeySound(limits, end, r.key);
    AgedRequestIsAdmitted(limits, s, r, end, again);
  }

  /** No smaller whole number of seconds suffices. */
  lemma RetryIsLeast(oldest: real, now: real, w: nat)
    requires w >= 1
    ensures w < RetryAfter(oldest, now) ==> now + w as real - oldest <= WINDOW
  {
  }

  lemma {:induction false} RecentAreCounted(log: seq<real>, k: nat, now: real)
    requires k <= |log| && forall i :: |log| - k <= i < |log| ==> now - log[i] <= WINDOW
    ensures RecentCount(log, now) >= k
  {
    if k > 0 { RecentAreCounted(log[..|log| - 1], k - 1, now); }
  }

  lemma EarlyRequestIsRejected(limits: string -> nat, s: State, r: Request, end: State, again: Request, w: nat)
    requires Positive(limits) && KeySound(limits, s, r.key) && KeySound(limits, end, r.key) && again.key == r.key
    requires Answer(limits, s, r).Rejected? && TimesOf(end.log, r.key) == TimesOf(s.log, r.key)
    requires 1 <= w < Answer(limits, s, r).retryAfter && end.now + again.elapsed == s.now + r.elapsed + w as real
    ensures Answer(limits, end, again).Rejected?
  {
    var window, log, now := TimesOf(s.windows, r.key), TimesOf(s.log, r.key), s.now + r.elapsed;
    var later, limit, recent := end.now + again.elapsed, limits(r.key), DropOld(window, now);
    RejectionIsLongEnough(window, log, limit, s.now, now);
    RetryIsLeast(recent[0], now, w);
    forall i | |log| - limit <= i < |log| ensures later - log[i] <= WINDOW { AscendingAt(log, |log| - limit, i); }
    RecentAreCounted(log, limit, later);
    DecidesLikeFullLog(TimesOf(end.windows, r.key), log, limit, end.now, later);
  }

  /** The announced time is the least whole number of seconds after which a rejected caller is
      admitted, while its key makes no other request and whatever other keys do. */
  lemma AnnouncedTimeIsLeast(limits: string -> nat, s: State, r: Request, others: seq<Request>, again: Request, w: nat)
    requires Positive(limits) && Sound(limits, s) && Answer(limits, s, r).Rejected? && w >= 1
    requires again.key == r.key && forall i :: 0 <= i < |others| ==> others[i].key != r.key
    requires var end := Run(limits, Next(limits, s, r), others);
             end.now + again.elapsed == s.now + r.elapsed + w as real
    ensures Answer(limits, Run(limits, Next(limits, s, r), others), again).Admitted? <==>
            w >= Answer(limits, s, r).retryAfter
  {
    var t := Next(limits, s, r);
    var end := Run(limits, t, others);
    if w >= Answer(limits, s, r).retryAfter {
      WaitingIsRewarded(limits, s, r, others, again);
    } else {
      RejectionKeepsLog(limits, s, r, t);
      SoundAfter(limits, s, r, others);
      OthersKeepLog(limits, t, others, r.key);
      assert KeySound(limits, s, r.key) && KeySound(limits, end, r.key);
      EarlyRequestIsRejected(limits, s, r, end, again, w);
    }
  }

  // ---- What is remembered ----

  /** After a request every other key that is remembered was admitted within the last window. */
  lemma OnlyRecentKeysAreKept(limits: string -> nat, s: State, r: Request, key: string)
    requires Positive(limits) && key != r.key && key in Next(limits, s, r).windows
    ensures var t := Next(limits, s, r);
            t.windows[key] != [] && t.now - t.windows[key][|t.windows[key]| - 1] <= WINDOW
  {
  }
}
