/** The table of session locks: an entry is made when the first caller of a session
    registers, counts its callers, and is deleted when the last one leaves. Waiters may
    give up at any time. */
module SessionLocks {

  /** A lock object, by identity, and the number of callers registered for it. */
  datatype Entry = Entry(lock: nat, refs: int)

  /** A registered caller keeps the lock object it found: it waits for it, holds it, or
      is done with it but still registered. */
  datatype Caller =
    | Waiting(session: string, lock: nat)
    | Holding(session: string, lock: nat)
    | Leaving(session: string, lock: nat)

  datatype State = State(table: map<string, Entry>, callers: map<nat, Caller>, held: set<nat>, nextLock: nat)

  datatype Step =
    | Register(caller: nat, session: string)
    | Acquire(caller: nat)
    | GiveUp(caller: nat)      // the wait timed out or was cancelled
    | Release(caller: nat)
    | Unregister(caller: nat)

  function SetCaller(s: State, c: nat, what: Caller): State {
    s.(callers := s.callers[c := what])
  }

  /** Decrements the session's count and deletes the entry at zero, if it is still this lock's. */
  function Forgotten(table: map<string, Entry>, session: string, lock: nat): map<string, Entry> {
    if session in table && table[session].lock == lock then
      var refs := table[session].refs - 1;
      if refs <= 0 then table - {session} else table[session := Entry(lock, refs)]
    else table
  }

  function Next(s: State, step: Step): State {
    match step
    case Register(c, session) =>
      if c in s.callers then s
      else if session in s.table then
        var e := s.table[session];
        SetCaller(s, c, Waiting(session, e.lock)).(table := s.table[session := Entry(e.lock, e.refs + 1)])
      else
        SetCaller(s, c, Waiting(session, s.nextLock))
          .(table := s.table[session := Entry(s.nextLock, 1)], nextLock := s.nextLock + 1)
    case Acquire(c) =>
      if c in s.callers && s.callers[c].Waiting? && s.callers[c].lock !in s.held then
        SetCaller(s, c, Holding(s.callers[c].session, s.callers[c].lock)).(held := s.held + {s.callers[c].lock})
      else s
    case GiveUp(c) =>
      if c in s.callers && s.callers[c].Waiting? then
        SetCaller(s, c, Leaving(s.callers[c].session, s.callers[c].lock))
      else s
    case Release(c) =>
      if c in s.callers && s.callers[c].Holding? then
        SetCaller(s, c, Leaving(s.callers[c].session, s.callers[c].lock)).(held := s.held - {s.callers[c].lock})
      else s
    case Unregister(c) =>
      if c in s.callers && s.callers[c].Leaving? then
        State(Forgotten(s.table, s.callers[c].session, s.callers[c].lock), s.callers - {c}, s.held, s.nextLock)
      else s
  }

  const EMPTY := State(map[], map[], {}, 0)

  function After(steps: seq<Step>): State {
    if steps == [] then EMPTY else Next(After(steps[..|steps| - 1]), steps[|steps| - 1])
  }

  // ---- The executable form ----

  class LockTable {
    var table: map<string, Entry>
    var callers: map<nat, Caller>
    var held: set<nat>
    var nextLock: nat

    ghost function View(): State
      reads this
    {
      State(table, callers, held, nextLock)
    }

    constructor ()
      ensures View() == EMPTY
    {
      table, callers, held, nextLock := map[], map[], {}, 0;
    }

    method RegisterCaller(c: nat, session: string)
      requires c !in callers
      modifies this
      ensures View() == Next(old(View()), Register(c, session))
    {
      var lock;
      if session !in table {
        lock := nextLock;
        nextLock := nextLock + 1;
        table := table[session := Entry(lock, 0)];
      } else {
        lock := table[session].lock;
      }
      table := table[session := Entry(lock, table[session].refs + 1)];
      callers := callers[c := Waiting(session, lock)];
    }

    method TryAcquire(c: nat) returns (acquired: bool)
      requires c in callers && callers[c].Waiting?
      modifies this
      ensures View() == Next(old(View()), Acquire(c))
      ensures acquired <==> old(callers[c].lock !in held)
    {
      var me := callers[c];
      acquired := me.lock !in held;
      if acquired {
        held := held + {me.lock};
        callers := callers[c := Holding(me.session, me.lock)];
      }
    }

    /** The `finally` part: release if acquired, then unregister. */
    method Leave(c: nat)
      requires c in callers && !callers[c].Leaving?
      modifies this
      ensures old(callers[c]).Holding? ==> View() == Next(Next(old(View()), Release(c)), Unregister(c))
      ensures old(callers[c]).Waiting? ==> View() == Next(Next(old(View()), GiveUp(c)), Unregister(c))
    {
      var me := callers[c];
      if me.Holding? {
        held := held - {me.lock};
      }
      callers := callers[c := Leaving(me.session, me.lock)];
      if me.session in table && table[me.session].lock == me.lock {
        var refs := table[me.session].refs - 1;
        if refs <= 0 {
          table := table - {me.session};
        } else {
          table := table[me.session := Entry(me.lock, refs)];
        }
      }
      callers := callers - {c};
    }
  }

  // ---- The invariant ----

  function Registered(callers: map<nat, Caller>, session: string): set<nat> {
    set c | c in callers && callers[c].session == session
  }

  /** Registered callers refer to their session's entry. */
  ghost predicate CallersShareEntry(s: State) {
    forall c :: c in s.callers ==>
      s.callers[c].session in s.table && s.table[s.callers[c].session].lock == s.callers[c].lock
  }

  /** An entry counts the registered callers and exists only while there are some. */
  ghost predicate CountsExact(s: State) {
    forall x :: x in s.table ==>
      s.table[x].refs == |Registered(s.callers, x)| && s.table[x].refs > 0
  }

  ghost predicate LocksDistinct(s: State) {
    && (forall x :: x in s.table ==> s.table[x].lock < s.nextLock)
    && (forall x, y :: x in s.table && y in s.table && x != y ==> s.table[x].lock != s.table[y].lock)
  }

  ghost predicate TableExact(s: State) {
    CallersShareEntry(s) && CountsExact(s) && LocksDistinct(s)
  }

  predicate Holds(s: State, c: nat, l: nat) {
    c in s.callers && s.callers[c].Holding? && s.callers[c].lock == l
  }

  /** A lock is held exactly when one caller holds it. */
  ghost predicate HoldersExact(s: State) {
    && (forall c, l :: Holds(s, c, l) ==> l in s.held)
    && (forall c, d, l :: Holds(s, c, l) && Holds(s, d, l) ==> c == d)
    && (forall l :: l in s.held ==> exists c :: Holds(s, c, l))
  }

  ghost predicate Sound(s: State) {
    TableExact(s) && HoldersExact(s)
  }

  lemma RegisteredAfterSet(callers: map<nat, Caller>, c: nat, what: Caller, x: string)
    requires c in callers ==> callers[c].session == what.session
    ensures Registered(callers[c := what], x) ==
            if x == what.session then Registered(callers, x) + {c} else Registered(callers, x)
  {
  }

  lemma RegisteredAfterRemove(callers: map<nat, Caller>, c: nat, x: string)
    ensures Registered(callers - {c}, x) == Registered(callers, x) - {c}
  {
  }

  lemma RegisterKeepsTable(s: State, c: nat, session: string)
    requires Sound(s) && c !in s.callers
    ensures TableExact(Next(s, Register(c, session)))
  {
    var after := Next(s, Register(c, session));
    forall x | x in after.table
      ensures after.table[x].refs == |Registered(after.callers, x)| && after.table[x].refs > 0
              && after.table[x].lock < after.nextLock
    {
      RegisteredAfterSet(s.callers, c, after.callers[c], x);
      if x !in s.table {
        assert Registered(s.callers, x) == {};
      }
    }
  }

  lemma MoveKeepsTable(s: State, c: nat, what: Caller)
    requires TableExact(s) && c in s.callers
    requires what.session == s.callers[c].session && what.lock == s.callers[c].lock
    ensures TableExact(SetCaller(s, c, what))
  {
    forall x | x in s.table ensures Registered(SetCaller(s, c, what).callers, x) == Registered(s.callers, x) {
      RegisteredAfterSet(s.callers, c, what, x);
    }
  }

  lemma UnregisterKeepsEntries(s: State, c: nat)
    requires Sound(s) && c in s.callers && s.callers[c].Leaving?
    ensures CallersShareEntry(Next(s, Unregister(c)))
  {
    var after, mine := Next(s, Unregister(c)), s.callers[c].session;
    RegisteredAfterRemove(s.callers, c, mine);
    assert c in Registered(s.callers, mine);
    assert |Registered(after.callers, mine)| == s.table[mine].refs - 1;
    forall d | d in after.callers
      ensures after.callers[d].session in after.table
              && after.table[after.callers[d].session].lock == after.callers[d].lock
    {
      if after.callers[d].session == mine {
        assert d in Registered(after.callers, mine);
        assert |Registered(after.callers, mine)| > 0;
      }
    }
  }

  lemma UnregisterKeepsTable(s: State, c: nat)
    requires Sound(s) && c in s.callers && s.callers[c].Leaving?
    ensures TableExact(Next(s, Unregister(c)))
  {
    var after, mine := Next(s, Unregister(c)), s.callers[c].session;
    UnregisterKeepsEntries(s, c);
    forall x | x in after.table
      ensures after.table[x].refs == |Registered(after.callers, x)| && after.table[x].refs > 0
    {
      RegisteredAfterRemove(s.callers, c, x);
      assert x == mine <==> c in Registered(s.callers, x);
    }
  }

  /** Every step keeps the table and the holders exact. */
  lemma StepIsSound(s: State, step: Step)
    requires Sound(s)
    ensures Sound(Next(s, step))
  {
    if Next(s, step) != s {
      var c := step.caller;
      match step {
        case Register(_, session) =>
          RegisterKeepsTable(s, c, session);
          RegisterKeepsHolders(s, c, session);
        case Unregister(_) =>
          UnregisterKeepsTable(s, c);
          UnregisterKeepsHolders(s, c);
        case Acquire(_) =>
          MoveKeepsTable(s, c, Holding(s.callers[c].session, s.callers[c].lock));
          AcquireKeepsHolders(s, c);
        case GiveUp(_) =>
          MoveKeepsTable(s, c, Leaving(s.callers[c].session, s.callers[c].lock));
          LeavingKeepsHolders(s, c, s.held);
        case Release(_) =>
          MoveKeepsTable(s, c, Leaving(s.callers[c].session, s.callers[c].lock));
          LeavingKeepsHolders(s, c, s.held - {s.callers[c].lock});
      }
    }
  }

  lemma HolderSurvives(s: State, after: State, l: nat)
    requires HoldersExact(s) && l in s.held
    requires forall d :: Holds(s, d, l) ==> Holds(after, d, l)
    ensures exists d :: Holds(after, d, l)
  {
    var d :| Holds(s, d, l);
    assert Holds(after, d, l);
  }

  lemma RegisterKeepsHolders(s: State, c: nat, session: string)
    requires Sound(s) && c !in s.callers
    ensures HoldersExact(Next(s, Register(c, session)))
  {
    var after := Next(s, Register(c, session));
    assert forall d, l :: Holds(after, d, l) <==> Holds(s, d, l);
    forall l | l in s.held ensures exists d :: Holds(after, d, l) { HolderSurvives(s, after, l); }
  }

  lemma UnregisterKeepsHolders(s: State, c: nat)
    requires Sound(s) && c in s.callers && s.callers[c].Leaving?
    ensures HoldersExact(Next(s, Unregister(c)))
  {
    var after := Next(s, Unregister(c));
    assert forall d, l :: Holds(after, d, l) <==> Holds(s, d, l);
    forall l | l in s.held ensures exists d :: Holds(after, d, l) { HolderSurvives(s, after, l); }
  }

  lemma AcquireKeepsHolders(s: State, c: nat)
    requires Sound(s) && c in s.callers && s.callers[c].Waiting? && s.callers[c].lock !in s.held
    ensures HoldersExact(Next(s, Acquire(c)))
  {
    var after, mine := Next(s, Acquire(c)), s.callers[c].lock;
    assert forall d, l :: Holds(after, d, l) <==> Holds(s, d, l) || (d == c && l == mine);
    assert Holds(after, c, mine);
    forall l | l in s.held ensures exists d :: Holds(after, d, l) { HolderSurvives(s, after, l); }
  }

  /** Leaving gives up exactly the lock that was held, if any. */
  lemma LeavingKeepsHolders(s: State, c: nat, held: set<nat>)
    requires Sound(s) && c in s.callers && !s.callers[c].Leaving?
    requires held == if s.callers[c].Holding? then s.held - {s.callers[c].lock} else s.held
    ensures HoldersExact(SetCaller(s, c, Leaving(s.callers[c].session, s.callers[c].lock)).(held := held))
  {
    var after := SetCaller(s, c, Leaving(s.callers[c].session, s.callers[c].lock)).(held := held);
    assert forall d, l :: Holds(after, d, l) <==> Holds(s, d, l) && d != c;
    assert s.callers[c].Holding? ==> Holds(s, c, s.callers[c].lock);
    forall l | l in held ensures exists d :: Holds(after, d, l) { HolderSurvives(s, after, l); }
  }

  lemma {:induction false} RunsAreSound(steps: seq<Step>)
    ensures Sound(After(steps))
  {
    if steps != [] {
      RunsAreSound(steps[..|steps| - 1]);
      StepIsSound(After(steps[..|steps| - 1]), steps[|steps| - 1]);
    }
  }

  /** In every interleaving: callers of a session share one lock object and at most one of
      them holds it; the count is the number of callers registered; an entry exists exactly
      while someone is registered. */
  lemma LockTableIsSafe(steps: seq<Step>, session: string)
    ensures var s := After(steps);
            && (session in s.table <==> Registered(s.callers, session) != {})
            && (session in s.table ==> s.table[session].refs == |Registered(s.callers, session)|)
            && forall c, d :: c in Registered(s.callers, session) && d in Registered(s.callers, session) ==>
                 && s.callers[c].lock == s.callers[d].lock
                 && (s.callers[c].Holding? && s.callers[d].Holding? ==> c == d)
  {
    RunsAreSound(steps);
    var s := After(steps);
    assert session in s.table ==> |Registered(s.callers, session)| > 0;
    forall c, d | c in Registered(s.callers, session) && d in Registered(s.callers, session)
      ensures s.callers[c].Holding? && s.callers[d].Holding? ==> c == d
    {
      assert s.callers[c].Holding? ==> Holds(s, c, s.callers[c].lock);
      assert s.callers[d].Holding? ==> Holds(s, d, s.callers[d].lock);
    }
  }

  /** Once nobody is registered any more, the table is empty again. */
  lemma EmptyAgain(steps: seq<Step>)
    ensures After(steps).callers == map[] <==> After(steps).table == map[]
  {
    RunsAreSound(steps);
    var s := After(steps);
    if s.table != map[] {
      var x :| x in s.table;
      assert |Registered(s.callers, x)| > 0;
      var c :| c in Registered(s.callers, x);
    }
    if s.callers != map[] {
      var c :| c in s.callers;
      assert s.callers[c].session in s.table;
    }
  }

  /** Progress: a waiting caller can take its session's lock when it is free; when it is
      not, some caller of the same session holds it and can free it. */
  lemma SomeoneCanMove(s: State, c: nat)
    requires Sound(s) && c in s.callers && s.callers[c].Waiting?
    ensures || Next(s, Acquire(c)).callers[c].Holding?
            || exists d :: d in s.callers && s.callers[d].session == s.callers[c].session
                           && s.callers[c].lock !in Next(s, Release(d)).held
  {
    if s.callers[c].lock in s.held {
      var d :| Holds(s, d, s.callers[c].lock);
      assert s.table[s.callers[d].session].lock == s.table[s.callers[c].session].lock;
      assert s.callers[d].session == s.callers[c].session;
      assert s.callers[c].lock !in Next(s, Release(d)).held;
    }
  }
}
