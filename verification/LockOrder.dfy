/** The four locks of the package taken together: the registry of sessions and each session
    (sessions.rs), the registry of credentials and each credential entry (credential_store.rs).

    An invocation resolves its endpoint before it enters a session, and refreshes a credential from
    inside one (query.rs); a handler may do either as often as it likes, but never enters a second
    session from inside the first, and every closure it passes in terminates. */
module LockOrder {
  import opened Kube

  type Tid = nat

  type SessionKey = string

  type SourceKey = string

  datatype Pc =
    | Outside                                            // holds nothing
    | SessionAsk(key: SessionKey)
    | SessionLook(key: SessionKey)                       // holds the session registry
    | SessionWait(key: SessionKey)
    | SessionWork(key: SessionKey)                       // holds the session
    | EntryAsk(held: Option<SessionKey>, source: SourceKey)
    | EntryLook(held: Option<SessionKey>, source: SourceKey)   // holds the credential registry
    | EntryWait(held: Option<SessionKey>, source: SourceKey)
    | EntryRun(held: Option<SessionKey>, source: SourceKey)    // holds the entry

  /** One of the locks. */
  datatype Lock = Sessions | Session(key: SessionKey) | Sources | Source(source: SourceKey)

  datatype State = State(holders: map<Lock, Tid>, threads: map<Tid, Pc>)

  datatype Step =
    | Arrive(tid: Tid)
    | EnterSession(tid: Tid, key: SessionKey)
    | EnterEntry(tid: Tid, source: SourceKey)   // `resolve` from outside, `refresh` from inside a session
    | Go(tid: Tid)                              // the one step the place a thread is at leads to

  const INITIAL := State(map[], map[])

  /** The lock a thread is about to take. */
  function Wants(pc: Pc): Option<Lock> {
    match pc
    case SessionAsk(_) => Some(Sessions)
    case SessionWait(k) => Some(Session(k))
    case EntryAsk(_, _) => Some(Sources)
    case EntryWait(_, j) => Some(Source(j))
    case _ => None
  }

  /** The locks a thread holds. */
  function Holds(pc: Pc): set<Lock> {
    match pc
    case SessionLook(_) => {Sessions}
    case SessionWork(k) => {Session(k)}
    case EntryAsk(Some(k), _) => {Session(k)}
    case EntryLook(Some(k), _) => {Session(k), Sources}
    case EntryLook(None, _) => {Sources}
    case EntryWait(Some(k), _) => {Session(k)}
    case EntryRun(Some(k), j) => {Session(k), Source(j)}
    case EntryRun(None, j) => {Source(j)}
    case _ => {}
  }

  /** Where `Go` leads; None is the end of the invocation. */
  function Onward(pc: Pc): Option<Pc> {
    match pc
    case Outside => None
    case SessionAsk(k) => Some(SessionLook(k))
    case SessionLook(k) => Some(SessionWait(k))
    case SessionWait(k) => Some(SessionWork(k))
    case SessionWork(_) => Some(Outside)
    case EntryAsk(h, j) => Some(EntryLook(h, j))
    case EntryLook(h, j) => Some(EntryWait(h, j))
    case EntryWait(h, j) => Some(EntryRun(h, j))
    case EntryRun(None, _) => Some(Outside)
    case EntryRun(Some(k), _) => Some(SessionWork(k))
  }

  /** The lock a step gives back. */
  function GivesBack(pc: Pc): Option<Lock> {
    match pc
    case SessionLook(_) => Some(Sessions)
    case SessionWork(k) => Some(Session(k))
    case EntryLook(_, _) => Some(Sources)
    case EntryRun(_, j) => Some(Source(j))
    case _ => None
  }

  predicate Enabled(s: State, step: Step) {
    match step
    case Arrive(t) => t !in s.threads
    case EnterSession(t, _) => t in s.threads && s.threads[t].Outside?
    case EnterEntry(t, _) => t in s.threads && (s.threads[t].Outside? || s.threads[t].SessionWork?)
    case Go(t) => t in s.threads && (Wants(s.threads[t]).Some? ==> Wants(s.threads[t]).value !in s.holders)
  }

  function Next(s: State, step: Step): State
    requires Enabled(s, step)
  {
    match step
    case Arrive(t) => s.(threads := s.threads[t := Outside])
    case EnterSession(t, k) => s.(threads := s.threads[t := SessionAsk(k)])
    case EnterEntry(t, j) =>
      var held := if s.threads[t].SessionWork? then Some(s.threads[t].key) else None;
      s.(threads := s.threads[t := EntryAsk(held, j)])
    case Go(t) =>
      var pc := s.threads[t];
      State(
        if Wants(pc).Some? then s.holders[Wants(pc).value := t]
        else if GivesBack(pc).Some? then s.holders - {GivesBack(pc).value}
        else s.holders,
        if Onward(pc).Some? then s.threads[t := Onward(pc).value] else s.threads - {t})
  }

  ghost predicate Moves(before: State, step: Step, after: State) {
    Enabled(before, step) && after == Next(before, step)
  }

  ghost predicate Path(states: seq<State>, steps: seq<Step>) {
    && |states| == |steps| + 1
    && forall i :: 0 <= i < |steps| ==> Moves(states[i], steps[i], states[i + 1])
  }

  /** A lock is recorded as held by a thread exactly when the place that thread is at holds it. */
  ghost predicate LockOk(s: State, lock: Lock) {
    && (lock in s.holders ==> s.holders[lock] in s.threads && lock in Holds(s.threads[s.holders[lock]]))
    && (forall t: Tid :: t in s.threads && lock in Holds(s.threads[t]) ==> lock in s.holders && s.holders[lock] == t)
  }

  ghost predicate Inv(s: State) {
    forall lock :: LockOk(s, lock)
  }

  /** Every step moves exactly one lock, or none, between the table and the thread that takes the step. */
  lemma HoldsFollow(pc: Pc)
    ensures Onward(pc).Some? ==>
      Holds(Onward(pc).value) ==
        Holds(pc) + (if Wants(pc).Some? then {Wants(pc).value} else {})
                  - (if GivesBack(pc).Some? then {GivesBack(pc).value} else {})
    ensures Onward(pc).None? ==> Holds(pc) == {}
    ensures GivesBack(pc).Some? ==> GivesBack(pc).value in Holds(pc) && Wants(pc).None?
    ensures Wants(pc).Some? ==> Wants(pc).value !in Holds(pc)
  {
  }

  lemma StepKeepsLock(s: State, step: Step, lock: Lock)
    requires LockOk(s, lock) && Enabled(s, step)
    ensures LockOk(Next(s, step), lock)
  {
    if step.Go? {
      HoldsFollow(s.threads[step.tid]);
      hide Holds, Onward, Wants, GivesBack;
    }
  }

  lemma {:induction false} PathKeeps(states: seq<State>, steps: seq<Step>)
    requires Path(states, steps) && Inv(states[0])
    ensures Inv(states[|steps|])
    decreases |steps|
  {
    if steps != [] {
      var n := |steps| - 1;
      assert Path(states[..n + 1], steps[..n]) by {
        forall i | 0 <= i < n ensures Moves(states[..n + 1][i], steps[..n][i], states[..n + 1][i + 1]) {
          assert Moves(states[i], steps[i], states[i + 1]);
        }
      }
      PathKeeps(states[..n + 1], steps[..n]);
      assert Moves(states[n], steps[n], states[n + 1]);
      var after := states[n + 1];
      forall lock ensures LockOk(after, lock) { StepKeepsLock(states[n], steps[n], lock); }
    }
  }

  // ---- the order -------------------------------------------------------------------------------------------

  /** The order in which one thread takes locks. */
  function Rank(lock: Lock): nat {
    match lock
    case Sessions => 0
    case Session(_) => 1
    case Sources => 2
    case Source(_) => 3
  }

  /** How far a place is from the end of the invocation, were the thread to take the way out. */
  function Distance(pc: Pc): nat {
    match pc
    case Outside => 0
    case SessionWork(_) => 1
    case EntryRun(_, _) => 2
    case EntryWait(_, _) => 3
    case EntryLook(_, _) => 4
    case EntryAsk(_, _) => 5
    case SessionWait(_) => 6
    case SessionLook(_) => 7
    case SessionAsk(_) => 8
  }

  /** A thread takes locks in rising order, and never waits while it holds a registry. */
  lemma LocksAreOrdered(pc: Pc, lock: Lock)
    requires lock in Holds(pc) && Wants(pc).Some?
    ensures Rank(lock) < Rank(Wants(pc).value) && lock.Session?
  {
  }

  /** The thread in the way of `t`, if there is one. */
  function Blocker(s: State, t: Tid): Option<Tid>
    requires t in s.threads
  {
    if Wants(s.threads[t]).Some? && Wants(s.threads[t]).value in s.holders
    then Some(s.holders[Wants(s.threads[t]).value]) else None
  }

  lemma BlockerIsCloser(s: State, t: Tid)
    requires t in s.threads && Blocker(s, t).Some? && LockOk(s, Wants(s.threads[t]).value)
    ensures Blocker(s, t).value in s.threads
    ensures Distance(s.threads[Blocker(s, t).value]) < Distance(s.threads[t])
    ensures Wants(s.threads[t]) != Some(Sessions) ==> Wants(s.threads[Blocker(s, t).value]) != Some(Sessions)
  {
  }

  /** In every reachable state each unfinished invocation can go on, or waits for one that can, or waits
      for one that waits for one that can: never a cycle, never a chain longer than that. */
  lemma SomeoneCanGoOn(states: seq<State>, steps: seq<Step>, t: Tid)
    requires Path(states, steps) && states[0] == INITIAL && t in states[|steps|].threads
    ensures var s := states[|steps|];
      || Enabled(s, Go(t))
      || (Blocker(s, t).Some? && Enabled(s, Go(Blocker(s, t).value)))
      || (Blocker(s, t).Some? && Blocker(s, t).value in s.threads && Blocker(s, Blocker(s, t).value).Some?
          && Enabled(s, Go(Blocker(s, Blocker(s, t).value).value)))
  {
    PathKeeps(states, steps);
    var s := states[|steps|];
    if !Enabled(s, Go(t)) {
      var u := Blocker(s, t).value;
      assert LockOk(s, Wants(s.threads[t]).value);
      if !Enabled(s, Go(u)) {
        assert LockOk(s, Wants(s.threads[u]).value);
      }
    }
  }

  // ---- everyone can finish ---------------------------------------------------------------------------------

  lemma Joins(states: seq<State>, steps: seq<Step>, more: seq<State>, further: seq<Step>)
    requires Path(states, steps) && Path(more, further) && more[0] == states[|steps|]
    ensures Path(states + more[1..], steps + further)
    ensures (states + more[1..])[|steps + further|] == more[|further|]
  {
    var all, long := steps + further, states + more[1..];
    forall i | 0 <= i < |all| ensures Moves(long[i], all[i], long[i + 1]) {
      if i < |steps| {
        assert Moves(states[i], steps[i], states[i + 1]);
      } else {
        assert Moves(more[i - |steps|], further[i - |steps|], more[i - |steps| + 1]);
      }
    }
  }

  /** `t` can be seen to its end, by letting the threads in its way end first. */
  lemma {:induction false} CanEnd(s: State, t: Tid) returns (states: seq<State>, steps: seq<Step>)
    requires Inv(s) && t in s.threads
    ensures Path(states, steps) && states[0] == s && Inv(states[|steps|])
    ensures states[|steps|].threads.Keys <= s.threads.Keys - {t}
    decreases |s.threads.Keys|, Distance(s.threads[t])
  {
    if Blocker(s, t).Some? {
      assert LockOk(s, Wants(s.threads[t]).value);
      BlockerIsCloser(s, t);
      states, steps := CanEnd(s, Blocker(s, t).value);
    } else {
      var after := Next(s, Go(t));
      states, steps := [s, after], [Go(t)];
      forall lock ensures LockOk(after, lock) { StepKeepsLock(s, Go(t), lock); }
    }
    var reached := states[|steps|];
    if t in reached.threads {
      Fewer(reached, s, t);
      var more, further := CanEnd(reached, t);
      Joins(states, steps, more, further);
      states, steps := states + more[1..], steps + further;
    }
  }

  lemma Fewer(reached: State, s: State, t: Tid)
    requires reached.threads.Keys <= s.threads.Keys
    ensures |reached.threads.Keys| <= |s.threads.Keys|
    ensures reached.threads.Keys != s.threads.Keys ==> |reached.threads.Keys| < |s.threads.Keys|
  {
    SubsetSize(reached.threads.Keys, s.threads.Keys);
  }

  lemma {:induction false} SubsetSize(a: set<Tid>, b: set<Tid>)
    requires a <= b
    ensures |a| <= |b| && (a != b ==> |a| < |b|)
    decreases a
  {
    if a != {} {
      var x :| x in a;
      SubsetSize(a - {x}, b - {x});
    }
  }

  lemma {:induction false} Drain(s: State) returns (states: seq<State>, steps: seq<Step>)
    requires Inv(s)
    ensures Path(states, steps) && states[0] == s && states[|steps|] == INITIAL
    decreases |s.threads.Keys|
  {
    if s.threads.Keys == {} {
      states, steps := [s], [];
      assert s.threads == map[];
      forall lock ensures lock !in s.holders { assert LockOk(s, lock); }
      assert s.holders == map[];
    } else {
      var t :| t in s.threads.Keys;
      states, steps := CanEnd(s, t);
      Fewer(states[|steps|], s, t);
      var more, further := Drain(states[|steps|]);
      Joins(states, steps, more, further);
      states, steps := states + more[1..], steps + further;
    }
  }

  /** From every reachable state all the invocations under way can still finish, with every lock given
      back: no reachable state holds even a partial deadlock. */
  lemma EveryoneCanFinish(states: seq<State>, steps: seq<Step>) returns (more: seq<State>, further: seq<Step>)
    requires Path(states, steps) && states[0] == INITIAL
    ensures Path(more, further) && more[0] == states[|steps|] && more[|further|] == INITIAL
  {
    PathKeeps(states, steps);
    more, further := Drain(states[|steps|]);
  }

  // ---- one invocation ---------------------------------------------------------------------------------------

  /** Where an invocation is that enters a session and refreshes a credential from inside it. */
  function Stations(k: SessionKey, j: SourceKey): seq<Pc> {
    [Outside, SessionAsk(k), SessionLook(k), SessionWait(k), SessionWork(k),
     EntryAsk(Some(k), j), EntryLook(Some(k), j), EntryWait(Some(k), j), EntryRun(Some(k), j), SessionWork(k), Outside]
  }

  /** What takes it from one to the next. */
  function Itinerary(t: Tid, k: SessionKey, j: SourceKey): seq<Step> {
    [EnterSession(t, k), Go(t), Go(t), Go(t), EnterEntry(t, j), Go(t), Go(t), Go(t), Go(t), Go(t)]
  }

  function AtStation(t: Tid, pc: Pc): State {
    State(map lock | lock in Holds(pc) :: t, map[t := pc])
  }

  lemma GoesToNext(t: Tid, pc: Pc)
    requires Onward(pc).Some?
    ensures Moves(AtStation(t, pc), Go(t), AtStation(t, Onward(pc).value))
  {
    HoldsFollow(pc);
    hide Holds, Onward, Wants, GivesBack;
    assert Next(AtStation(t, pc), Go(t)).holders == AtStation(t, Onward(pc).value).holders;
    assert Next(AtStation(t, pc), Go(t)).threads == AtStation(t, Onward(pc).value).threads;
  }

  /** It meets nothing in its way: an invocation may arrive, enter any session, refresh any credential from there
      or resolve one from outside, and leave, with every lock given back. */
  lemma InvocationPasses(t: Tid, k: SessionKey, j: SourceKey)
    ensures Moves(INITIAL, Arrive(t), AtStation(t, Outside))
    ensures var stations := Stations(k, j);
      forall i :: 0 <= i < 10 ==> Moves(AtStation(t, stations[i]), Itinerary(t, k, j)[i], AtStation(t, stations[i + 1]))
    ensures Moves(AtStation(t, Outside), EnterEntry(t, j), AtStation(t, EntryAsk(None, j)))
    ensures Moves(AtStation(t, Outside), Go(t), INITIAL)
  {
    var stations := Stations(k, j);
    forall i | 0 <= i < 10
      ensures Moves(AtStation(t, stations[i]), Itinerary(t, k, j)[i], AtStation(t, stations[i + 1]))
    {
      if i == 0 || i == 4 {
      } else {
        GoesToNext(t, stations[i]);
        hide AtStation, Moves;
        assert Onward(stations[i]) == Some(stations[i + 1]);
      }
    }
  }
}
