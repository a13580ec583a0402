/** The registry of sessions (sessions.rs `Sessions::with`) under any number of threads and keys.

    A step is what one thread does between two points where another may run. The registry lock guards
    the map of slots and each slot has a lock of its own; a slot whose holder panicked is poisoned, and
    the next holder empties it before anything else. */
module Sessions {
  import opened Kube

  /** What makes two invocations the same session. */
  datatype Key = Key(instance: string, endpoint: string, transport: string)

  /** Whatever a session holds. */
  datatype Session = Session(content: seq<string>)

  type Tid = nat

  datatype Call = Call(key: Key, seed: Session, work: Session -> Session)

  /** Where a thread is inside `with`. */
  datatype Pc =
    | Asking(call: Call)                  // about to take the registry lock
    | Looking(call: Call)                 // holding it
    | Waiting(call: Call)                 // with a handle on the slot, about to take its lock
    | Working(call: Call, met: Session)   // holding it, inside `work`

  datatype Slot = Slot(value: Option<Session>, poisoned: bool, holder: Option<Tid>)

  /** How a run of `work` ended. */
  datatype End = Finished | Panicked

  /** One run of `work`, as the order of the slot's lock has it. */
  datatype Entry = Entry(tid: Tid, call: Call, met: Session, end: End)

  datatype State = State(
    registry: Option<Tid>, slots: map<Key, Slot>, threads: map<Tid, Pc>, log: seq<Entry>)

  datatype Step =
    | Enter(tid: Tid, call: Call)
    | TakeRegistry(tid: Tid)
    | Lookup(tid: Tid)
    | TakeSession(tid: Tid)
    | SeedPanics(tid: Tid)
    | Finish(tid: Tid)
    | Panic(tid: Tid, left: Session)

  const INITIAL := State(None, map[], map[], [])

  predicate Enabled(s: State, step: Step) {
    match step
    case Enter(t, _) => t !in s.threads
    case TakeRegistry(t) => t in s.threads && s.threads[t].Asking? && s.registry.None?
    case Lookup(t) => t in s.threads && s.threads[t].Looking?
    case TakeSession(t) => CanTake(s, t)
    case SeedPanics(t) => CanTake(s, t) && Held(s.slots[s.threads[t].call.key]).None?
    case Finish(t) => t in s.threads && s.threads[t].Working?
    case Panic(t, _) => t in s.threads && s.threads[t].Working?
  }

  predicate CanTake(s: State, t: Tid) {
    t in s.threads && s.threads[t].Waiting?
    && s.threads[t].call.key in s.slots && s.slots[s.threads[t].call.key].holder.None?
  }

  /** What the next holder finds: a poisoned slot is emptied. */
  function Held(slot: Slot): Option<Session> {
    if slot.poisoned then None else slot.value
  }

  function Or(value: Option<Session>, seed: Session): Session {
    if value.Some? then value.value else seed
  }

  function Next(s: State, step: Step): State
    requires Enabled(s, step)
  {
    match step
    case Enter(t, call) => s.(threads := s.threads[t := Asking(call)])
    case TakeRegistry(t) => s.(registry := Some(t), threads := s.threads[t := Looking(s.threads[t].call)])
    case Lookup(t) =>
      var call := s.threads[t].call;
      s.(registry := None, threads := s.threads[t := Waiting(call)],
         slots := if call.key in s.slots then s.slots else s.slots[call.key := Slot(None, false, None)])
    case TakeSession(t) =>
      var call := s.threads[t].call;
      var met := Or(Held(s.slots[call.key]), call.seed);
      s.(threads := s.threads[t := Working(call, met)],
         slots := s.slots[call.key := Slot(Some(met), false, Some(t))])
    case SeedPanics(t) =>
      s.(threads := s.threads - {t}, slots := s.slots[s.threads[t].call.key := Slot(None, true, None)])
    case Finish(t) =>
      var Working(call, met) := s.threads[t];
      s.(threads := s.threads - {t},
         slots := s.slots[call.key := Slot(Some(call.work(met)), false, None)],
         log := s.log + [Entry(t, call, met, Finished)])
    case Panic(t, left) =>
      var Working(call, met) := s.threads[t];
      s.(threads := s.threads - {t},
         slots := s.slots[call.key := Slot(Some(left), true, None)],
         log := s.log + [Entry(t, call, met, Panicked)])
  }

  /** Runs of the whole registry. */
  ghost predicate Run(states: seq<State>, steps: seq<Step>) {
    && |states| == |steps| + 1 && states[0] == INITIAL
    && forall i :: 0 <= i < |steps| ==> Moves(states[i], steps[i], states[i + 1])
  }

  ghost predicate Moves(before: State, step: Step, after: State) {
    Enabled(before, step) && after == Next(before, step)
  }

  lemma RunSplits(states: seq<State>, steps: seq<Step>)
    requires Run(states, steps) && steps != []
    ensures Run(states[..|steps|], steps[..|steps| - 1])
    ensures Moves(states[|steps| - 1], steps[|steps| - 1], states[|steps|])
  {
    forall i | 0 <= i < |steps| - 1
      ensures Moves(states[..|steps|][i], steps[..|steps| - 1][i], states[..|steps|][i + 1]) {
      assert Moves(states[i], steps[i], states[i + 1]);
    }
  }

  lemma RunJoins(states: seq<State>, steps: seq<Step>, step: Step, after: State)
    requires Run(states, steps) && Moves(states[|steps|], step, after)
    ensures Run(states + [after], steps + [step])
  {
    var more, longer := steps + [step], states + [after];
    forall i | 0 <= i < |more| ensures Moves(longer[i], more[i], longer[i + 1]) {
      if i < |steps| { assert Moves(states[i], steps[i], states[i + 1]); }
    }
  }

  // ---- one key, one thread at a time ----------------------------------------------------------------------

  /** The runs over one key, in order. */
  function Of(log: seq<Entry>, key: Key): seq<Entry>
    decreases |log|
  {
    if log == [] then [] else
    var last := log[|log| - 1];
    Of(log[..|log| - 1], key) + if last.call.key == key then [last] else []
  }

  /** What a sequential execution leaves: each run starts from what the one before it left, or from its
      own seed where there was none or the one before it panicked. */
  function Sequential(runs: seq<Entry>): Option<Session>
    decreases |runs|
  {
    if runs == [] then None else
    var last := runs[|runs| - 1];
    if last.end == Panicked then None
    else Some(last.call.work(Or(Sequential(runs[..|runs| - 1]), last.call.seed)))
  }

  /** Every run was handed exactly what the sequential execution before it left. */
  ghost predicate IsSequential(runs: seq<Entry>) {
    forall i :: 0 <= i < |runs| ==> runs[i].met == Or(Sequential(runs[..i]), runs[i].call.seed)
  }

  ghost predicate Inv(s: State) {
    (forall t :: ThreadOk(s, t)) && (forall k :: SlotOk(s, k))
  }

  /** The registry lock is held only while looking; a handle is to a slot that exists; a working thread
      holds its slot. */
  ghost predicate ThreadOk(s: State, t: Tid) {
    && (s.registry == Some(t) <==> t in s.threads && s.threads[t].Looking?)
    && (t in s.threads && (s.threads[t].Waiting? || s.threads[t].Working?) ==> s.threads[t].call.key in s.slots)
    && (t in s.threads && s.threads[t].Working? ==> s.slots[s.threads[t].call.key].holder == Some(t))
  }

  /** A held slot has one thread working on what the runs before it left; a free slot holds that. */
  ghost predicate SlotOk(s: State, k: Key) {
    && IsSequential(Of(s.log, k))
    && (k !in s.slots ==> Of(s.log, k) == [])
    && (k in s.slots ==>
          match s.slots[k].holder
          case None => Held(s.slots[k]) == Sequential(Of(s.log, k))
          case Some(t) =>
            t in s.threads && s.threads[t].Working? && s.threads[t].call.key == k
            && s.threads[t].met == Or(Sequential(Of(s.log, k)), s.threads[t].call.seed))
  }

  lemma OfNext(log: seq<Entry>, entry: Entry, k: Key)
    ensures Of(log + [entry], k) == Of(log, k) + if entry.call.key == k then [entry] else []
  {
    assert (log + [entry])[..|log|] == log;
  }

  lemma SequentialNext(runs: seq<Entry>, entry: Entry)
    requires IsSequential(runs) && entry.met == Or(Sequential(runs), entry.call.seed)
    ensures IsSequential(runs + [entry])
    ensures Sequential(runs + [entry]) == if entry.end == Panicked then None else Some(entry.call.work(entry.met))
  {
    var more := runs + [entry];
    assert more[..|runs|] == runs;
    forall i | 0 <= i < |more| ensures more[i].met == Or(Sequential(more[..i]), more[i].call.seed) {
      if i < |runs| { assert more[..i] == runs[..i]; }
    }
  }

  lemma EndKeepsSlot(s: State, step: Step, k: Key)
    requires SlotOk(s, k) && Enabled(s, step) && (step.Finish? || step.Panic?)
    requires ThreadOk(s, step.tid) && (k in s.slots && s.slots[k].holder.Some? ==> ThreadOk(s, s.slots[k].holder.value))
    ensures SlotOk(Next(s, step), k)
  {
    hide IsSequential, Sequential, Of;
    var Working(call, met) := s.threads[step.tid];
    var entry := Entry(step.tid, call, met, if step.Finish? then Finished else Panicked);
    OfNext(s.log, entry, k);
    if k == call.key {
      SequentialNext(Of(s.log, k), entry);
    } else {
      assert Of(s.log, k) + [] == Of(s.log, k);
    }
  }

  lemma StepKeepsSlot(s: State, step: Step, k: Key)
    requires SlotOk(s, k) && Enabled(s, step) && !step.Finish? && !step.Panic?
    requires k in s.slots && s.slots[k].holder.Some? ==> ThreadOk(s, s.slots[k].holder.value)
    ensures SlotOk(Next(s, step), k)
  {
    hide IsSequential;
    assert k !in s.slots ==> Sequential(Of(s.log, k)) == None;
  }

  lemma StepKeepsThread(s: State, step: Step, t: Tid)
    requires ThreadOk(s, t) && ThreadOk(s, step.tid) && Enabled(s, step)
    requires t in s.threads && step.tid in s.threads && s.threads[t].call.key in s.slots ==>
      SlotOk(s, s.threads[t].call.key)
    ensures ThreadOk(Next(s, step), t)
  {
    hide IsSequential, Sequential, Of;
  }

  lemma StepKeeps(s: State, step: Step)
    requires Inv(s) && Enabled(s, step)
    ensures Inv(Next(s, step))
  {
    hide ThreadOk, SlotOk;
    forall t ensures ThreadOk(Next(s, step), t) { StepKeepsThread(s, step, t); }
    forall k ensures SlotOk(Next(s, step), k) {
      if step.Finish? || step.Panic? { EndKeepsSlot(s, step, k); } else { StepKeepsSlot(s, step, k); }
    }
  }

  lemma {:induction false} RunKeeps(states: seq<State>, steps: seq<Step>)
    requires Run(states, steps)
    ensures Inv(states[|steps|])
    decreases |steps|
  {
    if steps != [] {
      RunSplits(states, steps);
      RunKeeps(states[..|steps|], steps[..|steps| - 1]);
      StepKeeps(states[..|steps|][|steps| - 1], steps[|steps| - 1]);
    }
  }

  predicate Inside(s: State, t: Tid, key: Key) {
    t in s.threads && s.threads[t].Working? && s.threads[t].call.key == key
  }

  /** Whatever threads do, the runs over each key are a sequential execution: no run is handed anything a
      run over another key, or a panicked run, left behind. The run in progress, of which there is at most
      one for a key, was handed what the finished ones left. */
  lemma EveryKeyIsSequential(states: seq<State>, steps: seq<Step>, key: Key)
    requires Run(states, steps)
    ensures IsSequential(Of(states[|steps|].log, key))
    ensures forall t: Tid :: Inside(states[|steps|], t, key) ==>
              states[|steps|].threads[t].met ==
                Or(Sequential(Of(states[|steps|].log, key)), states[|steps|].threads[t].call.seed)
    ensures forall t: Tid, u: Tid :: Inside(states[|steps|], t, key) && Inside(states[|steps|], u, key) ==> t == u
  {
    hide IsSequential, Sequential, Of;
    RunKeeps(states, steps);
    var s := states[|steps|];
    assert SlotOk(s, key);
    forall t: Tid | Inside(s, t, key) ensures key in s.slots && s.slots[key].holder == Some(t) {
      assert ThreadOk(s, t);
    }
  }

  /** Each run starts from what the one before it made of what it met; the first one, and the run after a
      panic, from its own seed. */
  lemma RunsFollow(states: seq<State>, steps: seq<Step>, key: Key, i: nat)
    requires Run(states, steps) && i < |Of(states[|steps|].log, key)|
    ensures var runs := Of(states[|steps|].log, key);
      runs[i].met ==
        if i == 0 || runs[i - 1].end == Panicked then runs[i].call.seed else runs[i - 1].call.work(runs[i - 1].met)
  {
    hide Of;
    RunKeeps(states, steps);
    var runs := Of(states[|steps|].log, key);
    assert SlotOk(states[|steps|], key);
    if i > 0 { assert runs[..i][..i - 1] == runs[..i - 1]; }
  }

  /** The run after a panic starts from its own seed. */
  lemma PanicStartsOver(states: seq<State>, steps: seq<Step>, key: Key, i: nat)
    requires Run(states, steps)
    requires 0 < i < |Of(states[|steps|].log, key)| && Of(states[|steps|].log, key)[i - 1].end == Panicked
    ensures var runs := Of(states[|steps|].log, key); runs[i].met == runs[i].call.seed
  {
    hide Of;
    RunsFollow(states, steps, key, i);
  }

  // ---- going on ---------------------------------------------------------------------------------------------

  /** A thread can take its next step, or waits for a lock whose holder can. */
  lemma EveryoneGoesOn(states: seq<State>, steps: seq<Step>, t: Tid)
    requires Run(states, steps) && t in states[|steps|].threads
    ensures var s := states[|steps|];
      match s.threads[t]
      case Asking(_) =>
        if s.registry.None? then Enabled(s, TakeRegistry(t)) else Enabled(s, Lookup(s.registry.value))
      case Looking(_) => Enabled(s, Lookup(t))
      case Waiting(call) =>
        call.key in s.slots &&
        (match s.slots[call.key].holder
         case None => Enabled(s, TakeSession(t))
         case Some(u) => Inside(s, u, call.key) && Enabled(s, Finish(u)))
      case Working(_, _) => Enabled(s, Finish(t)) && forall left :: Enabled(s, Panic(t, left))
  {
    hide IsSequential, Sequential, Of;
    RunKeeps(states, steps);
    var s := states[|steps|];
    assert ThreadOk(s, t);
    if s.registry.Some? { assert ThreadOk(s, s.registry.value); }
    if s.threads[t].Waiting? { assert SlotOk(s, s.threads[t].call.key); }
  }

  /** Nobody is turned away: a thread that comes while the registry and its session are free is, five steps on,
      through with its work on what the runs before it left, or on its seed where they left nothing. */
  lemma CallsGoThrough(states: seq<State>, steps: seq<Step>, t: Tid, call: Call) returns (after: State)
    requires Run(states, steps)
    requires var s := states[|steps|];
      t !in s.threads && s.registry.None? && (call.key in s.slots ==> s.slots[call.key].holder.None?)
    ensures var s := states[|steps|];
      var asking := Next(s, Enter(t, call));
      var asked := Next(asking, TakeRegistry(t));
      var found := Next(asked, Lookup(t));
      var inside := Next(found, TakeSession(t));
      && Enabled(s, Enter(t, call)) && Enabled(asking, TakeRegistry(t)) && Enabled(asked, Lookup(t))
      && Enabled(found, TakeSession(t)) && Enabled(inside, Finish(t)) && after == Next(inside, Finish(t))
      && after.threads == s.threads && after.registry == None
      && after.log == s.log + [Entry(t, call, Or(Sequential(Of(s.log, call.key)), call.seed), Finished)]
  {
    hide IsSequential, Sequential, Of;
    RunKeeps(states, steps);
    var s := states[|steps|];
    assert SlotOk(s, call.key);
    assert call.key !in s.slots ==> Sequential(Of(s.log, call.key)) == None by { NothingBefore(s.log, call.key); }
    after := Next(Next(Next(Next(Next(s, Enter(t, call)), TakeRegistry(t)), Lookup(t)), TakeSession(t)), Finish(t));
  }

  lemma NothingBefore(log: seq<Entry>, key: Key)
    ensures Of(log, key) == [] ==> Sequential(Of(log, key)) == None
  {
  }

  // ---- one key, without the others ---------------------------------------------------------------------------

  function OwnLock(s: State, key: Key): Option<Tid> {
    if s.registry.Some? && s.registry.value in s.threads && s.threads[s.registry.value].call.key == key
    then s.registry else None
  }

  function OwnSlots(s: State, key: Key): map<Key, Slot> {
    if key in s.slots then map[key := s.slots[key]] else map[]
  }

  function OwnThreads(s: State, key: Key): map<Tid, Pc> {
    map t | t in s.threads && s.threads[t].call.key == key :: s.threads[t]
  }

  /** The registry as threads over one key alone would know it. */
  function Project(s: State, key: Key): State {
    State(OwnLock(s, key), OwnSlots(s, key), OwnThreads(s, key), Of(s.log, key))
  }

  /** The key a step is about. */
  function About(s: State, step: Step): Option<Key> {
    match step
    case Enter(_, call) => Some(call.key)
    case _ => if step.tid in s.threads then Some(s.threads[step.tid].call.key) else None
  }

  lemma LogStep(s: State, step: Step, key: Key)
    requires Enabled(s, step)
    ensures About(s, step) != Some(key) ==> Of(Next(s, step).log, key) == Of(s.log, key)
    ensures About(s, step) == Some(key) && Enabled(Project(s, key), step) ==>
              Of(Next(s, step).log, key) == Next(Project(s, key), step).log
  {
    hide Of;
    if step.Finish? || step.Panic? { OfNext(s.log, Next(s, step).log[|s.log|], key); }
  }

  lemma ThreadsStep(s: State, step: Step, key: Key)
    requires Enabled(s, step)
    ensures About(s, step) != Some(key) ==> OwnThreads(Next(s, step), key) == OwnThreads(s, key)
    ensures About(s, step) == Some(key) && Enabled(Project(s, key), step) ==>
              OwnThreads(Next(s, step), key) == Next(Project(s, key), step).threads
  {
    hide Of;
  }

  lemma SlotsStep(s: State, step: Step, key: Key)
    requires Enabled(s, step)
    ensures About(s, step) != Some(key) ==> OwnSlots(Next(s, step), key) == OwnSlots(s, key)
    ensures About(s, step) == Some(key) && Enabled(Project(s, key), step) ==>
              OwnSlots(Next(s, step), key) == Next(Project(s, key), step).slots
  {
    hide Of;
  }

  lemma LockStep(s: State, step: Step, key: Key)
    requires ThreadOk(s, step.tid) && (s.registry.Some? ==> ThreadOk(s, s.registry.value))
    requires Enabled(s, step)
    ensures About(s, step) != Some(key) ==> OwnLock(Next(s, step), key) == OwnLock(s, key)
    ensures About(s, step) == Some(key) && Enabled(Project(s, key), step) ==>
              OwnLock(Next(s, step), key) == Next(Project(s, key), step).registry
  {
    hide Of;
  }

  lemma OwnEnabled(s: State, step: Step, key: Key)
    requires Enabled(s, step) && About(s, step) == Some(key)
    ensures Enabled(Project(s, key), step)
  {
    hide Of;
  }

  /** A step over another key changes nothing that threads over this key can see. */
  lemma ForeignStep(s: State, step: Step, key: Key)
    requires ThreadOk(s, step.tid) && (s.registry.Some? ==> ThreadOk(s, s.registry.value))
    requires Enabled(s, step) && About(s, step) != Some(key)
    ensures Project(Next(s, step), key) == Project(s, key)
  {
    hide Of, OwnLock, OwnSlots, OwnThreads;
    LogStep(s, step, key);
    ThreadsStep(s, step, key);
    SlotsStep(s, step, key);
    LockStep(s, step, key);
  }

  /** A step over this key is the same step of the registry of this key alone. */
  lemma OwnStep(s: State, step: Step, key: Key)
    requires ThreadOk(s, step.tid) && (s.registry.Some? ==> ThreadOk(s, s.registry.value))
    requires Enabled(s, step) && About(s, step) == Some(key)
    ensures Enabled(Project(s, key), step) && Next(Project(s, key), step) == Project(Next(s, step), key)
  {
    hide Of, OwnLock, OwnSlots, OwnThreads, Next;
    OwnEnabled(s, step, key);
    LogStep(s, step, key);
    ThreadsStep(s, step, key);
    SlotsStep(s, step, key);
    LockStep(s, step, key);
  }

  /** `own` is `steps` with some steps left out. */
  ghost predicate Thinned(own: seq<Step>, steps: seq<Step>)
    decreases |steps|
  {
    if own == [] then true
    else if steps == [] then false
    else
      var init := steps[..|steps| - 1];
      Thinned(own, init) || (own[|own| - 1] == steps[|steps| - 1] && Thinned(own[..|own| - 1], init))
  }

  /** Leaving out every step of threads over other keys leaves a run, and one that ends in the same slot
      with the same threads over the key and the same runs: invocations over different keys cannot
      influence one another at all. */
  lemma {:induction false} NonInterference(states: seq<State>, steps: seq<Step>, key: Key)
    returns (ownStates: seq<State>, own: seq<Step>)
    requires Run(states, steps)
    ensures Run(ownStates, own) && ownStates[|own|] == Project(states[|steps|], key)
    ensures Thinned(own, steps)
    decreases |steps|
  {
    if steps == [] {
      ownStates, own := [INITIAL], [];
      assert Project(INITIAL, key) == INITIAL;
    } else {
      var n := |steps| - 1;
      RunSplits(states, steps);
      ownStates, own := NonInterference(states[..n + 1], steps[..n], key);
      RunKeeps(states[..n + 1], steps[..n]);
      ownStates, own := Extend(states[..n + 1][n], steps[n], states[n + 1], key, ownStates, own, steps[..n]);
      assert steps[..n] + [steps[n]] == steps;
    }
  }

  lemma Extend(before: State, step: Step, after: State, key: Key,
               ownStates: seq<State>, own: seq<Step>, init: seq<Step>)
    returns (longer: seq<State>, more: seq<Step>)
    requires Inv(before) && Moves(before, step, after) && Thinned(own, init)
    requires Run(ownStates, own) && ownStates[|own|] == Project(before, key)
    ensures Run(longer, more) && longer[|more|] == Project(after, key) && Thinned(more, init + [step])
  {
    hide ThreadOk, SlotOk;
    assert (init + [step])[..|init|] == init;
    if About(before, step) == Some(key) {
      OwnStep(before, step, key);
      longer, more := ownStates + [Project(after, key)], own + [step];
      assert more[..|own|] == own;
      RunJoins(ownStates, own, step, Project(after, key));
    } else {
      ForeignStep(before, step, key);
      longer, more := ownStates, own;
    }
  }
}
