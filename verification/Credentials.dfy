/** The store of resolved credentials (credential_store.rs), under any number of threads and sources.

    A lock over the registry guards the map of entries; while a helper runs, its caller keeps the lock of
    the one entry the result is for. A thread that unwound inside a helper run poisons the entry, and
    every later holder takes the entry as it stands: nothing here reads the poison flag, so the model does
    not carry it. */
module Credentials {
  import opened Kube

  const U64_MAX: nat := 0xFFFF_FFFF_FFFF_FFFF

  type U64 = n: nat | n <= U64_MAX

  /** A credential with this little time left, or less, no longer answers `resolve`. */
  const EARLY_REFRESH_MARGIN_MILLIS: U64 := 30_000

  datatype SourceKey = SourceKey(instance: string, endpoint: string, transport: string, source: string)

  datatype Resolved = Resolved(material: string, expiresAt: Option<U64>)

  function SaturatingAdd(a: U64, b: U64): U64 {
    if a + b <= U64_MAX then a + b else U64_MAX
  }

  /** The comparison saturates, and still means what it says over the integers. */
  predicate IsExpiring(credential: Resolved, now: U64): (expiring: bool)
    ensures expiring <==>
      credential.expiresAt.Some? && (credential.expiresAt.value as int) - (now as int) <= 30_000
  {
    credential.expiresAt.Some? && credential.expiresAt.value <= SaturatingAdd(now, EARLY_REFRESH_MARGIN_MILLIS)
  }

  datatype Call = Resolve(key: SourceKey, now: U64) | Refresh(key: SourceKey)

  /** Whether a call that finds `held` in the entry returns it without running the helper. */
  predicate Answers(held: Option<Resolved>, call: Call) {
    call.Resolve? && held.Some? && !IsExpiring(held.value, call.now)
  }

  /** How a helper run ended. */
  datatype End = Fetched(got: Resolved) | Failed | Panicked

  /** One use of an entry, in the order its lock was held. */
  datatype Use =
    | Hit(call: Call, answer: Resolved)
    | Ran(call: Call, end: End)

  /** An entry, with the uses made of it so far. */
  datatype Entry = Entry(value: Option<Resolved>, holder: Option<nat>, uses: seq<Use>)

  type Tid = nat

  datatype Pc = Asking(call: Call) | Looking(call: Call) | Waiting(call: Call) | Running(call: Call)

  datatype State = State(registry: Option<Tid>, entries: map<SourceKey, Entry>, threads: map<Tid, Pc>)

  datatype Step =
    | Enter(tid: Tid, call: Call)
    | TakeRegistry(tid: Tid)
    | Lookup(tid: Tid)
    | TakeEntry(tid: Tid)
    | Return(tid: Tid, end: End)

  const INITIAL := State(None, map[], map[])

  predicate Enabled(s: State, step: Step) {
    match step
    case Enter(t, _) => t !in s.threads
    case TakeRegistry(t) => t in s.threads && s.threads[t].Asking? && s.registry.None?
    case Lookup(t) => t in s.threads && s.threads[t].Looking?
    case TakeEntry(t) =>
      && t in s.threads && s.threads[t].Waiting?
      && s.threads[t].call.key in s.entries && s.entries[s.threads[t].call.key].holder.None?
    case Return(t, _) => t in s.threads && s.threads[t].Running? && s.threads[t].call.key in s.entries
  }

  function Next(s: State, step: Step): State
    requires Enabled(s, step)
  {
    match step
    case Enter(t, call) => s.(threads := s.threads[t := Asking(call)])
    case TakeRegistry(t) => s.(registry := Some(t), threads := s.threads[t := Looking(s.threads[t].call)])
    case Lookup(t) =>
      var call := s.threads[t].call;
      State(None,
            if call.key in s.entries then s.entries else s.entries[call.key := Entry(None, None, [])],
            s.threads[t := Waiting(call)])
    case TakeEntry(t) =>
      var call := s.threads[t].call;
      var entry := s.entries[call.key];
      if Answers(entry.value, call) then
        s.(threads := s.threads - {t},
           entries := s.entries[call.key := entry.(uses := entry.uses + [Hit(call, entry.value.value)])])
      else
        s.(threads := s.threads[t := Running(call)], entries := s.entries[call.key := entry.(holder := Some(t))])
    case Return(t, end) =>
      var call := s.threads[t].call;
      var entry := s.entries[call.key];
      s.(threads := s.threads - {t},
         entries := s.entries[call.key :=
           Entry(if end.Fetched? then Some(end.got) else entry.value, None, entry.uses + [Ran(call, end)])])
  }

  ghost predicate Moves(before: State, step: Step, after: State) {
    Enabled(before, step) && after == Next(before, step)
  }

  ghost predicate Run(states: seq<State>, steps: seq<Step>) {
    && |states| == |steps| + 1 && states[0] == INITIAL
    && forall i :: 0 <= i < |steps| ==> Moves(states[i], steps[i], states[i + 1])
  }

  // ---- what the uses of one entry say ----------------------------------------------------------------------

  /** What the helper returned last: a failed or panicked run changes nothing, a hit changes nothing. */
  function Stored(uses: seq<Use>): Option<Resolved>
    decreases |uses|
  {
    if uses == [] then None else
    match uses[|uses| - 1]
    case Ran(_, Fetched(got)) => Some(got)
    case _ => Stored(uses[..|uses| - 1])
  }

  /** Use `i` was a hit exactly when what was stored then answered its call, and a hit returned just that. */
  ghost predicate UseOk(uses: seq<Use>, i: nat)
    requires i < |uses|
  {
    && (uses[i].Hit? <==> Answers(Stored(uses[..i]), uses[i].call))
    && (uses[i].Hit? ==> Some(uses[i].answer) == Stored(uses[..i]))
  }

  ghost predicate UsesOk(uses: seq<Use>) {
    forall i :: 0 <= i < |uses| ==> UseOk(uses, i)
  }

  lemma UsesNext(uses: seq<Use>, use: Use)
    requires UsesOk(uses)
    requires use.Hit? <==> Answers(Stored(uses), use.call)
    requires use.Hit? ==> Some(use.answer) == Stored(uses)
    ensures UsesOk(uses + [use])
    ensures Stored(uses + [use]) == if use.Ran? && use.end.Fetched? then Some(use.end.got) else Stored(uses)
  {
    hide Answers;
    var more := uses + [use];
    assert more[..|uses|] == uses;
    forall i | 0 <= i < |more| ensures UseOk(more, i) {
      if i < |uses| {
        assert UseOk(uses, i) && more[..i] == uses[..i];
      }
    }
  }

  // ---- every run -------------------------------------------------------------------------------------------

  predicate Inside(s: State, t: Tid, key: SourceKey) {
    t in s.threads && s.threads[t].Running? && s.threads[t].call.key == key
  }

  ghost predicate ThreadOk(s: State, t: Tid) {
    && (s.registry == Some(t) <==> t in s.threads && s.threads[t].Looking?)
    && (t in s.threads && (s.threads[t].Waiting? || s.threads[t].Running?) ==> s.threads[t].call.key in s.entries)
    && (t in s.threads && s.threads[t].Running? ==> s.entries[s.threads[t].call.key].holder == Some(t))
  }

  /** An entry holds what its last successful run returned, even while another run is going on. */
  ghost predicate EntryOk(s: State, k: SourceKey) {
    k in s.entries ==>
      && UsesOk(s.entries[k].uses)
      && s.entries[k].value == Stored(s.entries[k].uses)
      && (s.entries[k].holder.Some? ==>
            Inside(s, s.entries[k].holder.value, k)
            && !Answers(s.entries[k].value, s.threads[s.entries[k].holder.value].call))
  }

  ghost predicate Inv(s: State) {
    (forall t: Tid :: ThreadOk(s, t)) && (forall k :: EntryOk(s, k))
  }

  lemma StepKeepsThread(s: State, step: Step, t: Tid)
    requires ThreadOk(s, t) && ThreadOk(s, step.tid) && Enabled(s, step)
    requires t in s.threads ==> EntryOk(s, s.threads[t].call.key)
    ensures ThreadOk(Next(s, step), t)
  {
    hide UsesOk, Stored, Answers;
  }

  lemma StepKeepsEntry(s: State, step: Step, k: SourceKey)
    requires EntryOk(s, k) && Enabled(s, step) && ThreadOk(s, step.tid)
    requires k in s.entries && s.entries[k].holder.Some? ==> ThreadOk(s, s.entries[k].holder.value)
    ensures EntryOk(Next(s, step), k)
  {
    hide UsesOk, IsExpiring;
    var after := Next(s, step);
    if k in s.entries && after.entries[k].uses != s.entries[k].uses {
      UsesNext(s.entries[k].uses, after.entries[k].uses[|s.entries[k].uses|]);
    }
    if k !in s.entries && k in after.entries {
      assert UsesOk([]) by { EmptyOk(); }
    }
  }

  lemma EmptyOk()
    ensures UsesOk([])
  {
  }

  lemma StepKeeps(s: State, step: Step)
    requires Inv(s) && Enabled(s, step)
    ensures Inv(Next(s, step))
  {
    hide ThreadOk, EntryOk;
    forall t: Tid ensures ThreadOk(Next(s, step), t) { StepKeepsThread(s, step, t); }
    forall k ensures EntryOk(Next(s, step), k) { StepKeepsEntry(s, step, k); }
  }

  lemma {:induction false} RunKeeps(states: seq<State>, steps: seq<Step>)
    requires Run(states, steps)
    ensures Inv(states[|steps|])
    decreases |steps|
  {
    if steps != [] {
      var n := |steps| - 1;
      assert Run(states[..n + 1], steps[..n]) by {
        forall i | 0 <= i < n ensures Moves(states[..n + 1][i], steps[..n][i], states[..n + 1][i + 1]) {
          assert Moves(states[i], steps[i], states[i + 1]);
        }
      }
      RunKeeps(states[..n + 1], steps[..n]);
      assert Moves(states[n], steps[n], states[n + 1]);
      StepKeeps(states[n], steps[n]);
    }
  }

  /** At most one helper runs for a source at any time, and it was due: nothing usable was stored. */
  lemma OneHelperPerSource(states: seq<State>, steps: seq<Step>, t: Tid, u: Tid, key: SourceKey)
    requires Run(states, steps)
    requires Inside(states[|steps|], t, key) && Inside(states[|steps|], u, key)
    ensures t == u
    ensures key in states[|steps|].entries
    ensures !Answers(Stored(states[|steps|].entries[key].uses), states[|steps|].threads[t].call)
  {
    hide UsesOk, Stored, Answers;
    RunKeeps(states, steps);
    assert ThreadOk(states[|steps|], t) && ThreadOk(states[|steps|], u) && EntryOk(states[|steps|], key);
  }

  /** The value a use returned to its caller, where it returned one. */
  function Answer(use: Use): Option<Resolved> {
    match use
    case Hit(_, answer) => Some(answer)
    case Ran(_, Fetched(got)) => Some(got)
    case _ => None
  }

  /** In every run: a credential handed to `resolve` is not expiring at the caller's `now`, or comes from
      the caller's own run of the helper; a hit is the last value the helper returned; and `refresh` never
      hits. */
  lemma AnswersAreFresh(states: seq<State>, steps: seq<Step>, key: SourceKey, i: nat)
    requires Run(states, steps) && key in states[|steps|].entries
    requires i < |states[|steps|].entries[key].uses|
    ensures var uses := states[|steps|].entries[key].uses;
            && (uses[i].call.Refresh? ==> uses[i].Ran?)
            && (uses[i].Hit? ==> Some(uses[i].answer) == Stored(uses[..i]))
            && (uses[i].call.Resolve? && Answer(uses[i]).Some? ==>
                  uses[i].Ran? || !IsExpiring(Answer(uses[i]).value, uses[i].call.now))
  {
    hide Stored, IsExpiring;
    RunKeeps(states, steps);
    assert EntryOk(states[|steps|], key);
    assert UseOk(states[|steps|].entries[key].uses, i);
  }

  /** Callers that meet one expiry share one run: after a run that fetched `got`, every `resolve` for
      which `got` is not expiring returns it, up to the first caller that needs another. */
  lemma {:induction false} OneRunServesAll(uses: seq<Use>, i: nat, j: nat, got: Resolved)
    requires UsesOk(uses) && i <= j < |uses|
    requires uses[i].Ran? && uses[i].end == Fetched(got)
    requires forall m :: i < m <= j ==> uses[m].call.Resolve? && !IsExpiring(got, uses[m].call.now)
    ensures Stored(uses[..j + 1]) == Some(got)
    ensures forall m :: i < m <= j ==> uses[m] == Hit(uses[m].call, got)
    decreases j
  {
    hide IsExpiring;
    assert uses[..j + 1][..j] == uses[..j];
    if i < j {
      OneRunServesAll(uses, i, j - 1, got);
      assert UseOk(uses, j);
    }
  }

  /** Sharing, in every run of the store. */
  lemma ExpiryIsPaidForOnce(states: seq<State>, steps: seq<Step>, key: SourceKey, i: nat, j: nat)
    requires Run(states, steps) && key in states[|steps|].entries
    requires i <= j < |states[|steps|].entries[key].uses|
    requires var uses := states[|steps|].entries[key].uses;
             && uses[i].Ran? && uses[i].end.Fetched?
             && forall m :: i < m <= j ==> uses[m].call.Resolve? && !IsExpiring(uses[i].end.got, uses[m].call.now)
    ensures var uses := states[|steps|].entries[key].uses;
            forall m :: i < m <= j ==> uses[m] == Hit(uses[m].call, uses[i].end.got)
  {
    hide Stored, IsExpiring;
    RunKeeps(states, steps);
    assert EntryOk(states[|steps|], key);
    OneRunServesAll(states[|steps|].entries[key].uses, i, j, states[|steps|].entries[key].uses[i].end.got);
  }

  /** In every run an entry holds what the helper last returned for it, also while a run is going on: hits
      change nothing, runs that fail or panic change nothing, and `refresh` replaces whatever was held. */
  lemma EntryHoldsLastFetched(states: seq<State>, steps: seq<Step>, key: SourceKey)
    requires Run(states, steps) && key in states[|steps|].entries
    ensures var entry := states[|steps|].entries[key];
      && entry.value == Stored(entry.uses)
      && (entry.uses != [] && entry.uses[|entry.uses| - 1].Ran? && entry.uses[|entry.uses| - 1].end.Fetched? ==>
            entry.value == Some(entry.uses[|entry.uses| - 1].end.got))
  {
    hide UsesOk, Answers;
    RunKeeps(states, steps);
    assert EntryOk(states[|steps|], key);
  }

  // ---- going on ---------------------------------------------------------------------------------------------

  /** A thread can take its next step, or waits for a lock whose holder can. */
  lemma EveryoneGoesOn(states: seq<State>, steps: seq<Step>, t: Tid)
    requires Run(states, steps) && t in states[|steps|].threads
    ensures var s := states[|steps|];
      match s.threads[t]
      case Asking(_) =>
        if s.registry.None? then Enabled(s, TakeRegistry(t)) else Enabled(s, Lookup(s.registry.value))
      case Looking(_) => Enabled(s, Lookup(t))
      case Waiting(call) =>
        call.key in s.entries &&
        (match s.entries[call.key].holder
         case None => Enabled(s, TakeEntry(t))
         case Some(u) => Inside(s, u, call.key) && forall end :: Enabled(s, Return(u, end)))
      case Running(_) => forall end :: Enabled(s, Return(t, end))
  {
    hide UsesOk, Stored, Answers;
    RunKeeps(states, steps);
    var s := states[|steps|];
    assert ThreadOk(s, t);
    if s.registry.Some? { assert ThreadOk(s, s.registry.value); }
    if s.threads[t].Waiting? { assert EntryOk(s, s.threads[t].call.key); }
  }

  /** Nobody is turned away: a thread that comes while the registry and its entry are free is, four steps on,
      given what is stored, if that answers it; and runs the helper otherwise. */
  lemma CallsGoThrough(states: seq<State>, steps: seq<Step>, t: Tid, call: Call)
    requires Run(states, steps)
    requires var s := states[|steps|];
      t !in s.threads && s.registry.None? && (call.key in s.entries ==> s.entries[call.key].holder.None?)
    ensures var s := states[|steps|];
      var asking := Next(s, Enter(t, call));
      var asked := Next(asking, TakeRegistry(t));
      var found := Next(asked, Lookup(t));
      var after := Next(found, TakeEntry(t));
      var uses := if call.key in s.entries then s.entries[call.key].uses else [];
      && Enabled(s, Enter(t, call)) && Enabled(asking, TakeRegistry(t)) && Enabled(asked, Lookup(t))
      && Enabled(found, TakeEntry(t)) && after.registry == None && call.key in after.entries
      && if Answers(Stored(uses), call)
         then after.threads == s.threads && after.entries[call.key].uses == uses + [Hit(call, Stored(uses).value)]
         else Inside(after, t, call.key)
  {
    hide UsesOk, IsExpiring;
    RunKeeps(states, steps);
    assert EntryOk(states[|steps|], call.key);
  }
}
