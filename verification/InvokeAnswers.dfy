/** Where the answers of the invoke endpoint come from: a replayed response is one that the
    pipeline gave in this run, fit to be cached, to a caller with the same tenant and key. */
module InvokeAnswers {
  import opened Options
  import Cache = IdempotencyCache
  import opened InvokeProtocol

  function Before(cfg: Config, steps: seq<Step>, j: nat): State
    requires j <= |steps|
  {
    AfterFrom(cfg, START, steps[..j])
  }

  /** At step j the pipeline of the caller gave this response. */
  predicate FinishedAt(cfg: Config, steps: seq<Step>, j: nat, c: nat, response: Cache.Response, cacheable: bool) {
    j < |steps| && steps[j] == Finish(c, response, cacheable) && In(Before(cfg, steps, j), c, Running)
  }

  /** At step j the caller found every slot taken, gave up waiting, or was stopped by an error. */
  predicate FailedAt(cfg: Config, steps: seq<Step>, j: nat, c: nat) {
    j < |steps| &&
    var s := Before(cfg, steps, j);
    || (steps[j] == Enter(c) && In(s, c, Missed) && s.active >= cfg.maxActive)
    || (steps[j] == GiveUp(c) && In(s, c, Waiting))
    || (steps[j] == Fail(c) && (In(s, c, Admitted) || In(s, c, Running)))
  }

  /** Some run of the pipeline for this key gave this response, fit to be cached. */
  ghost predicate Given(cfg: Config, steps: seq<Step>, key: Cache.Key, response: Cache.Response) {
    exists j, d :: FinishedAt(cfg, steps, j, d, response, true) && KeyOf(cfg.request(d)) == Some(key)
  }

  ghost predicate Explained(cfg: Config, steps: seq<Step>, c: nat, answer: Answer) {
    match answer
    case Replayed(response) =>
      KeyOf(cfg.request(c)).Some? && Given(cfg, steps, KeyOf(cfg.request(c)).value, response)
    case Computed(response) => exists j, cacheable :: FinishedAt(cfg, steps, j, c, response, cacheable)
    case Failed => exists j :: FailedAt(cfg, steps, j, c)
  }

  predicate HasAnswer(p: Phase) {
    p.Exiting? || p.Done?
  }

  ghost predicate CacheExplained(cfg: Config, steps: seq<Step>, cache: Cache.Cache) {
    forall e :: e in cache ==> Given(cfg, steps, e.key, e.response)
  }

  ghost predicate AnswersExplained(cfg: Config, steps: seq<Step>, s: State) {
    forall c :: c in s.phases && HasAnswer(s.phases[c]) ==> Explained(cfg, steps, c, s.phases[c].answer)
  }

  // ---- Explanations last ----

  lemma EarlierIsSame(cfg: Config, steps: seq<Step>, step: Step, j: nat)
    requires j <= |steps|
    ensures Before(cfg, steps + [step], j) == Before(cfg, steps, j)
  {
    assert (steps + [step])[..j] == steps[..j];
  }

  lemma FinishedLasts(cfg: Config, steps: seq<Step>, step: Step, j: nat, c: nat, response: Cache.Response, cacheable: bool)
    requires FinishedAt(cfg, steps, j, c, response, cacheable)
    ensures FinishedAt(cfg, steps + [step], j, c, response, cacheable)
  {
    EarlierIsSame(cfg, steps, step, j);
  }

  lemma GivenLasts(cfg: Config, steps: seq<Step>, step: Step, key: Cache.Key, response: Cache.Response)
    requires Given(cfg, steps, key, response)
    ensures Given(cfg, steps + [step], key, response)
  {
    var j, d :| FinishedAt(cfg, steps, j, d, response, true) && KeyOf(cfg.request(d)) == Some(key);
    FinishedLasts(cfg, steps, step, j, d, response, true);
  }

  lemma ExplainedLasts(cfg: Config, steps: seq<Step>, step: Step, c: nat, answer: Answer)
    requires Explained(cfg, steps, c, answer)
    ensures Explained(cfg, steps + [step], c, answer)
  {
    match answer {
      case Replayed(response) => GivenLasts(cfg, steps, step, KeyOf(cfg.request(c)).value, response);
      case Computed(response) =>
        var j, cacheable :| FinishedAt(cfg, steps, j, c, response, cacheable);
        FinishedLasts(cfg, steps, step, j, c, response, cacheable);
      case Failed =>
        var j :| FailedAt(cfg, steps, j, c);
        EarlierIsSame(cfg, steps, step, j);
        assert FailedAt(cfg, steps + [step], j, c);
    }
  }

  // ---- The cache ----

  lemma LookupAddsNothing(cache: Cache.State, key: Option<Cache.Key>)
    ensures forall e :: e in AfterGet(cache, key).cache ==> e in cache.cache
    ensures CachedResponse(cache, key).Some? ==>
              key.Some? && exists e :: e in cache.cache && e.key == key.value && e.response == CachedResponse(cache, key).value
  {
    if key.Some? {
      var live := Cache.Purged(cache.cache, cache.now);
      Cache.FilterMembers(cache.cache, (e: Cache.Entry) => e.expires > cache.now);
      Cache.FindIsMember(live, key.value);
      Cache.FilterMembers(live, (e: Cache.Entry) => e.key != key.value);
    }
  }

  lemma StoringAddsOnlyThis(cache: Cache.State, key: Cache.Key, response: Cache.Response, ttl: nat)
    ensures forall e :: e in Cache.Next(cache, Cache.Store(key, response, ttl, 0)).cache ==>
              e in cache.cache || (e.key == key && e.response == response)
  {
    var live := Cache.Purged(cache.cache, cache.now);
    Cache.FilterMembers(cache.cache, (e: Cache.Entry) => e.expires > cache.now);
    Cache.FilterMembers(live, (e: Cache.Entry) => e.key != key);
  }

  lemma CacheStaysExplained(cfg: Config, steps: seq<Step>, step: Step)
    requires CacheExplained(cfg, steps, Before(cfg, steps, |steps|).cache.cache)
    ensures CacheExplained(cfg, steps + [step], Next(cfg, Before(cfg, steps, |steps|), step).cache.cache)
  {
    var s := Before(cfg, steps, |steps|);
    var after := Next(cfg, s, step);
    NewEntries(cfg, s, step);
    EarlierIsSame(cfg, steps, step, |steps|);
    forall e | e in after.cache.cache ensures Given(cfg, steps + [step], e.key, e.response) {
      if e in s.cache.cache {
        GivenLasts(cfg, steps, step, e.key, e.response);
      } else {
        assert FinishedAt(cfg, steps + [step], |steps|, step.c, e.response, true);
      }
    }
  }

  lemma NewEntries(cfg: Config, s: State, step: Step)
    ensures forall e :: e in Next(cfg, s, step).cache.cache ==>
              || e in s.cache.cache
              || (step.Finish? && step == Finish(step.c, e.response, true) && In(s, step.c, Running)
                  && KeyOf(cfg.request(step.c)) == Some(e.key))
  {
    match step {
      case Arrive(c) => LookupAddsNothing(s.cache, KeyOf(cfg.request(c)));
      case Recheck(c) => LookupAddsNothing(s.cache, KeyOf(cfg.request(c)));
      case Finish(c, response, cacheable) =>
        var key := KeyOf(cfg.request(c));
        if key.Some? { StoringAddsOnlyThis(s.cache, key.value, response, cfg.ttl); }
      case _ =>
    }
  }

  // ---- The answers ----

  /** What a step answers: from the cache, from the caller's own pipeline, or with an error. */
  ghost predicate AnswersNow(cfg: Config, s: State, step: Step, c: nat, answer: Answer) {
    match answer
    case Replayed(response) =>
      exists e :: e in s.cache.cache && KeyOf(cfg.request(c)) == Some(e.key) && e.response == response
    case Computed(response) =>
      step.Finish? && step == Finish(c, response, step.cacheable) && In(s, c, Running)
    case Failed =>
      || (step == Enter(c) && In(s, c, Missed) && s.active >= cfg.maxActive)
      || (step == GiveUp(c) && In(s, c, Waiting))
      || (step == Fail(c) && (In(s, c, Admitted) || In(s, c, Running)))
  }

  lemma NewAnswers(cfg: Config, s: State, step: Step, c: nat)
    ensures var after := Next(cfg, s, step);
            c in after.phases && HasAnswer(after.phases[c]) ==>
              || (c in s.phases && HasAnswer(s.phases[c]) && after.phases[c].answer == s.phases[c].answer)
              || AnswersNow(cfg, s, step, c, after.phases[c].answer)
  {
    match step {
      case Arrive(d) => LookupAddsNothing(s.cache, KeyOf(cfg.request(d)));
      case Recheck(d) => LookupAddsNothing(s.cache, KeyOf(cfg.request(d)));
      case _ =>
    }
  }

  lemma NewAnswerIsExplained(cfg: Config, steps: seq<Step>, step: Step, c: nat, answer: Answer)
    requires CacheExplained(cfg, steps, Before(cfg, steps, |steps|).cache.cache)
    requires AnswersNow(cfg, Before(cfg, steps, |steps|), step, c, answer)
    ensures Explained(cfg, steps + [step], c, answer)
  {
    var s := Before(cfg, steps, |steps|);
    EarlierIsSame(cfg, steps, step, |steps|);
    match answer {
      case Replayed(response) =>
        var e :| e in s.cache.cache && KeyOf(cfg.request(c)) == Some(e.key) && e.response == response;
        GivenLasts(cfg, steps, step, e.key, e.response);
      case Computed(response) =>
        assert FinishedAt(cfg, steps + [step], |steps|, c, response, step.cacheable);
      case Failed =>
        assert FailedAt(cfg, steps + [step], |steps|, c);
    }
  }

  lemma StepIsExplained(cfg: Config, steps: seq<Step>, step: Step)
    requires var s := Before(cfg, steps, |steps|);
             CacheExplained(cfg, steps, s.cache.cache) && AnswersExplained(cfg, steps, s)
    ensures var after := Next(cfg, Before(cfg, steps, |steps|), step);
            CacheExplained(cfg, steps + [step], after.cache.cache) && AnswersExplained(cfg, steps + [step], after)
  {
    var s := Before(cfg, steps, |steps|);
    var after := Next(cfg, s, step);
    CacheStaysExplained(cfg, steps, step);
    forall c | c in after.phases && HasAnswer(after.phases[c])
      ensures Explained(cfg, steps + [step], c, after.phases[c].answer)
    {
      NewAnswers(cfg, s, step, c);
      if AnswersNow(cfg, s, step, c, after.phases[c].answer) {
        NewAnswerIsExplained(cfg, steps, step, c, after.phases[c].answer);
      } else {
        ExplainedLasts(cfg, steps, step, c, after.phases[c].answer);
      }
    }
  }

  lemma {:induction false} RunsAreExplained(cfg: Config, steps: seq<Step>)
    ensures var s := AfterFrom(cfg, START, steps); CacheExplained(cfg, steps, s.cache.cache) && AnswersExplained(cfg, steps, s)
  {
    if steps != [] {
      var init, last := steps[..|steps| - 1], steps[|steps| - 1];
      RunsAreExplained(cfg, init);
      assert init[..|init|] == init && steps == init + [last];
      StepIsExplained(cfg, init, last);
    }
  }

  /** In every run a replayed answer is a response that the pipeline gave, fit to be cached, to a
      caller with the same tenant and key; a computed one is what the caller's own run of the
      pipeline gave; and only a caller that found every slot taken, gave up or met an error fails. */
  lemma AnswersAreGenuine(cfg: Config, steps: seq<Step>, c: nat)
    requires var s := AfterFrom(cfg, START, steps); c in s.phases && s.phases[c].Done?
    ensures Explained(cfg, steps, c, AfterFrom(cfg, START, steps).phases[c].answer)
  {
    RunsAreExplained(cfg, steps);
  }
}
