/** What a reader of the `k8s-change` stream may conclude from it (changes.rs, the module's own promises). */
module ChangeReader {
  import opened Kube
  import opened WatchStreams
  import opened ChangeStream

  /** The table a reader keeps: cleared at every gap, and otherwise following the records. */
  function Read(records: seq<Record>): Table
    decreases |records|
  {
    if records == [] then map[] else
    Told(Read(records[..|records| - 1]), records[|records| - 1].word, records[|records| - 1].item)
  }

  function Told(table: Table, word: Word, item: Option<Object>): Table {
    match word
    case Gap => map[]
    case Notice => table
    case Gone => if item.Some? then table - {item.value.key} else table
    case _ => if item.Some? then table[item.value.key := item.value] else table
  }

  function ReadItems(table: Table, items: seq<Item>): Table
    decreases |items|
  {
    if items == [] then table else
    Told(ReadItems(table, items[..|items| - 1]), items[|items| - 1].word, items[|items| - 1].item)
  }

  lemma {:induction false} ReadIsSaid(records: seq<Record>)
    ensures Read(records) == ReadItems(map[], Said(records))
    decreases |records|
  {
    if records != [] {
      var init, last := records[..|records| - 1], records[|records| - 1];
      ReadIsSaid(init);
      if last.word != Notice {
        assert Said(records) == Said(init) + [Item(last.word, last.item)];
        assert Said(records)[..|Said(records)| - 1] == Said(init);
      } else {
        assert Said(records) == Said(init);
      }
    }
  }

  lemma {:induction false} ReadConcat(table: Table, a: seq<Item>, b: seq<Item>)
    ensures ReadItems(table, a + b) == ReadItems(ReadItems(table, a), b)
    decreases |b|
  {
    if b == [] {
      assert a + b == a;
    } else {
      assert (a + b)[..|a + b| - 1] == a + b[..|b| - 1];
      ReadConcat(table, a, b[..|b| - 1]);
    }
  }

  lemma {:induction false} ReadListed(told: seq<Object>)
    ensures ReadItems(map[], ListedItems(told)) == Collect(told)
    decreases |told|
  {
    if told != [] {
      ReadListed(told[..|told| - 1]);
      assert ListedItems(told)[..|told| - 1] == ListedItems(told[..|told| - 1]) by { ListedSize(told[..|told| - 1]); }
      ListedSize(told);
    }
  }

  lemma {:induction false} ListedSize(told: seq<Object>)
    ensures |ListedItems(told)| == |told|
    decreases |told|
  {
    if told != [] { ListedSize(told[..|told| - 1]); }
  }

  lemma {:induction false} ReadChanges(table: Table, changes: seq<Change>)
    ensures ReadItems(table, ChangeItems(changes)) == Fold(table, changes)
    decreases |changes|
  {
    if changes != [] {
      var init, last := changes[..|changes| - 1], changes[|changes| - 1];
      ReadChanges(table, init);
      assert ChangeItems(changes)[..|ChangeItems(changes)| - 1] == ChangeItems(init);
    }
  }

  lemma {:induction false} ReadClosed(log: seq<Change>, closed: seq<Period>)
    ensures ReadItems(map[], ClosedItems(log, closed)) == map[]
    decreases |closed|
  {
    if closed != [] {
      var items := ClosedItems(log, closed);
      assert items[|items| - 1] == Item(Gap, None);
    }
  }

  /** What the open period alone leads to. */
  function PeriodTable(log: seq<Change>, period: Period): Table {
    match period
    case Unacquired => map[]
    case Acquired(start, told, end) =>
      if start <= end <= |log| then Fold(Collect(told), log[start..end]) else Collect(told)
    case Resumed(start, end) => if start <= end <= |log| then Fold(map[], log[start..end]) else map[]
  }

  lemma ReadTranscript(log: seq<Change>, a: Account)
    ensures ReadItems(map[], Transcript(log, a)) == PeriodTable(log, a.open)
  {
    ReadConcat(map[], ClosedItems(log, a.closed), PeriodItems(log, a.open));
    ReadClosed(log, a.closed);
    match a.open
    case Unacquired =>
    case Acquired(start, told, end) =>
      ReadListed(told);
      if start <= end <= |log| {
        ReadConcat(map[], ListedItems(told), ChangeItems(log[start..end]));
        ReadChanges(Collect(told), log[start..end]);
      } else {
        assert ListedItems(told) + [] == ListedItems(told);
      }
    case Resumed(start, end) =>
      if start <= end <= |log| { ReadChanges(map[], log[start..end]); }
  }

  lemma SnapshotAdvances(c: Cluster, start: nat, end: nat)
    requires start <= end <= |c.log|
    ensures c.Snapshot(end) == Fold(c.Snapshot(start), c.log[start..end])
  {
    assert c.log[..end] == c.log[..start] + c.log[start..end];
    FoldConcat(map[], c.log[..start], c.log[start..end]);
  }

  // ---- the reader's table ----------------------------------------------------------------------------------

  /** Between two steps of a running invocation the reader holds exactly what the stream holds, which is
      the collection as it was at the checkpoint; past a break it holds nothing until it is told again. */
  ghost predicate Faithful(w: World) {
    if Acquainted(w.stream) then
      Read(w.records) == w.stream.objects
      && w.stream.checkpoint.Some? && w.stream.checkpoint.value in w.cluster.names
      && w.cluster.names[w.stream.checkpoint.value] <= |w.cluster.log|
      && w.stream.objects == w.cluster.Snapshot(w.cluster.names[w.stream.checkpoint.value])
    else Read(w.records) == map[]
  }

  predicate Running(w: World) {
    !w.phase.Starting? && !w.phase.Stopped?
  }

  /** Whether everything the stream holds at the start is going to be told: there is nothing, or it is
      listed again. A streaming list begins nothing on a stream an earlier invocation left live. */
  predicate ToldAfresh(w: World) {
    w.stream.state == Live && !w.declined ==> w.stream.objects == map[]
  }

  lemma AccountReads(w: World, a: Account)
    requires Inv(w, a) && Running(w)
    ensures !Acquainted(w.stream) ==> Read(w.records) == map[]
    ensures Acquainted(w.stream) && a.open.Acquired? ==> Faithful(w)
    ensures Acquainted(w.stream) && a.open.Resumed? ==>
              a.open.start <= a.open.end <= |w.cluster.log|
              && Read(w.records) == Fold(map[], w.cluster.log[a.open.start..a.open.end])
              && w.stream.objects == Fold(w.cluster.Snapshot(a.open.start), w.cluster.log[a.open.start..a.open.end])
  {
    ReadIsSaid(w.records);
    ReadTranscript(w.cluster.log, a);
    if Acquainted(w.stream) {
      SnapshotAdvances(w.cluster, a.open.start, a.open.end);
      if a.open.Acquired? {
        FoldKeyed(map[], w.cluster.log[..a.open.start]);
        CollectEnumeration(a.open.told, w.cluster.Snapshot(a.open.start));
      }
    }
  }

  lemma FaithfulWhenTold(worlds: seq<World>, inputs: seq<Input>)
    requires Run(worlds, inputs) && ToldAfresh(worlds[0]) && Running(worlds[|inputs|])
    ensures Faithful(worlds[|inputs|])
  {
    var a := RunKeeps(worlds, inputs);
    var w := worlds[|inputs|];
    AccountReads(w, a);
    if Acquainted(w.stream) && a.open.Resumed? {
      SnapshotStable(worlds[0].cluster, w.cluster, a.open.start);
    }
  }

  lemma UnfaithfulWhenResumed(w0: World, later: World)
    requires Starts(w0) && !ToldAfresh(w0) && later == Next(w0, Begin(Unreachable(Failed), Telling([], 0, Fault)))
    ensures Run([w0, later], [Begin(Unreachable(Failed), Telling([], 0, Fault))])
    ensures Running(later) && !Faithful(later)
  {
    assert Moves(w0, Begin(Unreachable(Failed), Telling([], 0, Fault)), later);
  }

  ghost predicate AlwaysFaithful(w0: World) {
    forall worlds, inputs :: Run(worlds, inputs) && worlds[0] == w0 && Running(worlds[|inputs|]) ==>
      Faithful(worlds[|inputs|])
  }

  /** The reader's table is the stream's in every running state of every run exactly when the invocation
      does not take up, unlisted, a live stream that already holds objects. */
  lemma FaithfulExactlyWhenTold(w0: World)
    requires Starts(w0)
    ensures AlwaysFaithful(w0) <==> ToldAfresh(w0)
  {
    if ToldAfresh(w0) {
      forall worlds, inputs | Run(worlds, inputs) && worlds[0] == w0 && Running(worlds[|inputs|])
        ensures Faithful(worlds[|inputs|])
      {
        FaithfulWhenTold(worlds, inputs);
      }
    } else {
      var input := Begin(Unreachable(Failed), Telling([], 0, Fault));
      var later := Next(w0, input);
      UnfaithfulWhenResumed(w0, later);
      assert [w0, later][|[input]|] == later && [w0, later][0] == w0;
    }
  }

  // ---- the failing input -----------------------------------------------------------------------------------

  /** A cluster that holds one object, created at version `v`. */
  function OneObject(o: Object, v: Version): Cluster {
    Cluster([Change(Added, o)], map[v := 1])
  }

  lemma OneObjectIs(o: Object, v: Version)
    requires o.version == Some(v)
    ensures OneObject(o, v).Valid() && OneObject(o, v).Snapshot(1) == map[o.key := o]
    ensures Enumerates([o], map[o.key := o]) && Collect([o]) == map[o.key := o]
  {
    var log := OneObject(o, v).log;
    assert log[..1] == log && log[..0] == [] && [o][..0] == [];
    assert Fold(map[], log) == Apply(Fold(map[], []), log[0]);
    assert Collect([o]) == Collect([])[o.key := o];
  }

  /** The invocation before: a streaming list that is told to its end, and is then stopped. */
  function FirstInvocation(o: Object, v: Version): seq<Input> {
    var telling := Telling([o], 1, Fault);
    [Begin(Unreachable(Failed), telling),
     Open(200, Initial(1, [o]), Taken),
     Chunk([Frame(Mutation(Change(Added, o)), Taken, telling), Frame(InitialEventsEnd(v), Taken, telling)], true),
     Stop]
  }

  /** The worlds it passes through. */
  function ItsWorlds(o: Object, v: Version): seq<World> {
    var c := OneObject(o, v);
    var begun := NEW_STREAM.(staging := Some([]));
    var live := AfterListing(begun.(staging := Some([o])), [o], v);
    var w0 := World(c, NEW_STREAM, [], Starting, None, false, false);
    var w1 := w0.(stream := begun, phase := Between);
    var w2 := w1.(phase := Reading(Initial(1, [o])));
    var w3 := w2.(stream := live, phase := Reading(Following(1)), records := [Record(Listed, Some(o), 1, true)]);
    [w0, w1, w2, w3, w3.(phase := Stopped(Cancelled))]
  }

  /** The world between the two frames of the chunk. */
  function Staged(o: Object, v: Version): World {
    var w := ItsWorlds(o, v)[2];
    w.(stream := w.stream.(staging := Some([o])), phase := Reading(Initial(1, [])))
  }

  lemma TheObject(o: Object, v: Version)
    requires o.version == Some(v)
    ensures var w, frame := ItsWorlds(o, v)[2], FirstInvocation(o, v)[2].frames[0];
      && Heard(Sent(w, frame.event), frame) == Staged(o, v) && Sends(w.cluster, w.phase.body, frame.event)
      && ReceptionOf(w.stream, frame.event) != Synchronised
  {
    assert [] + [o] == [o] && [o][1..] == [];
  }

  lemma TheEnd(o: Object, v: Version)
    requires o.version == Some(v)
    ensures var w, frame := Staged(o, v), FirstInvocation(o, v)[2].frames[1];
      && Heard(Sent(w, frame.event), frame) == ItsWorlds(o, v)[3] && Sends(w.cluster, w.phase.body, frame.event)
      && TellingAllowed(AfterEvent(w.stream, frame.event).objects, frame.telling)
  {
    hide AfterListing, Enumerates;
    OneObjectIs(o, v);
    TheStream(o, v);
    var w, after, frame := Staged(o, v), ItsWorlds(o, v)[3], FirstInvocation(o, v)[2].frames[1];
    var listed := after.(records := []);
    assert Heard(Sent(w, frame.event), frame) == Announce(listed, frame.telling, 0);
    assert Deliver(listed, Listed, Some(o), Taken) == after;
    assert Announce(after, frame.telling, 1) == after;
  }

  lemma TheStream(o: Object, v: Version)
    requires o.version == Some(v)
    ensures var s := ItsWorlds(o, v)[3].stream;
      && s.objects == map[o.key := o] && s.state == Live && |s.segments| == 1 && s.gaps == []
      && s == AfterListing(Staged(o, v).stream, [o], v)
  {
    OneObjectIs(o, v);
  }

  lemma TheChunk(o: Object, v: Version)
    requires o.version == Some(v)
    ensures Moves(ItsWorlds(o, v)[2], FirstInvocation(o, v)[2], ItsWorlds(o, v)[3])
  {
    hide Heard, Sent, Sends, TellingAllowed, ReceptionOf, AfterEvent, AfterListing;
    OneObjectIs(o, v);
    TheObject(o, v);
    TheEnd(o, v);
    var w, after, frames := ItsWorlds(o, v)[2], ItsWorlds(o, v)[3], FirstInvocation(o, v)[2].frames;
    assert frames[1..] == [frames[1]] && frames[1..][1..] == [];
    assert Feed(Staged(o, v), frames[1..]) == Feed(after, []) == after;
    assert FramesAllowed(after, []);
    assert FramesAllowed(Staged(o, v), frames[1..]);
  }

  lemma TheRun(o: Object, v: Version)
    requires o.version == Some(v)
    ensures Run(ItsWorlds(o, v), FirstInvocation(o, v))
  {
    hide Feed, FramesAllowed, AfterListing;
    OneObjectIs(o, v);
    TheChunk(o, v);
    var worlds, inputs := ItsWorlds(o, v), FirstInvocation(o, v);
    forall i | 0 <= i < |inputs| ensures Moves(worlds[i], inputs[i], worlds[i + 1]) {
      if i == 0 {} else if i == 1 {} else if i == 2 {} else {}
    }
  }

  /** It happens: after an invocation over a cluster with one object, the next one takes up a live stream that
      holds the object, is not told of it, and its reader does not have the stream's table. */
  lemma LiveStreamTakenUpUnlisted(o: Object, v: Version)
    requires o.version == Some(v)
    ensures Run(ItsWorlds(o, v), FirstInvocation(o, v))
    ensures var w := ItsWorlds(o, v)[4];
      var next := World(w.cluster, LeftBehind(w.stream), [], Starting, None, false, w.declined);
      w.phase.Stopped? && Starts(next) && !ToldAfresh(next) && !AlwaysFaithful(next)
  {
    OneObjectIs(o, v);
    TheRun(o, v);
    var w := ItsWorlds(o, v)[4];
    NextInvocationMayStart(ItsWorlds(o, v), FirstInvocation(o, v), w.cluster, None, false);
    var next := World(w.cluster, LeftBehind(w.stream), [], Starting, None, false, w.declined);
    assert o.key in w.stream.objects;
    FaithfulExactlyWhenTold(next);
  }

  // ---- the history ---------------------------------------------------------------------------------------

  /** Whatever happened, the records are those of windows of the history, separated by gap records: in
      each window a listing of one position and then the changes from that position, none skipped, none
      repeated, none out of order. Nothing before a gap is continued after it: every window that follows a
      gap begins with its own listing, and the first one does without only when the run took up a stream
      that was live, from where that stream stood. */
  lemma HistoryIsNeverStitched(worlds: seq<World>, inputs: seq<Input>)
    requires Run(worlds, inputs)
    ensures exists a :: TellsHistory(worlds[0], worlds[|inputs|], a)
  {
    var a := RunKeeps(worlds, inputs);
    assert TellsHistory(worlds[0], worlds[|inputs|], a);
  }

  /** `a` is an account of the history that the records of `w` tell, in a run from `w0`. */
  ghost predicate TellsHistory(w0: World, w: World, a: Account) {
    && AccountOk(w.cluster, a) && Said(w.records) == Transcript(w.cluster.log, a)
    && ListedAfterGaps(a)
    && (Origin(a).Resumed? ==> w0.stream.state == Live && Origin(a).start == At(w0.cluster, w0.stream))
  }

  /** Two observations carry one segment number exactly when no gap record lies between them, and a
      record marked continuous has no gap before it. */
  lemma GapsAreMarked(worlds: seq<World>, inputs: seq<Input>, i: nat, j: nat)
    requires Run(worlds, inputs)
    requires i < j < |worlds[|inputs|].records|
    requires Observation(worlds[|inputs|].records[i]) && Observation(worlds[|inputs|].records[j])
    ensures var records := worlds[|inputs|].records;
            && (records[i].segment == records[j].segment <==> NoGapAfter(records, i, j))
            && (records[j].continuous ==> forall g :: 0 <= g < j ==> records[g].word != Gap)
  {
    var a := RunKeeps(worlds, inputs);
    var records := worlds[|inputs|].records;
    if !NoGapAfter(records, i, j) {
      var g :| i < g < j && records[g].word == Gap;
      assert records[i].segment <= records[g].segment < records[j].segment;
    }
  }

  /** A watch is never opened at "now": every request asks for the initial state as well, with no
      version, or names the checkpoint, which is where the cache stands. */
  lemma NeverFromNow(worlds: seq<World>, inputs: seq<Input>)
    requires Run(worlds, inputs) && worlds[|inputs|].phase.Between?
    ensures var s := worlds[|inputs|].stream;
            && (s.staging.Some? <==> s.checkpoint.None?)
            && (s.checkpoint.Some? ==> s.checkpoint.value in worlds[|inputs|].cluster.names)
  {
    var a := RunKeeps(worlds, inputs);
    LiveHasCheckpoint(worlds[|inputs|].cluster, worlds[|inputs|].stream);
  }

  /** The change log of a live stream holds the end of the history up to the checkpoint and no more than
      its bound; what it dropped is counted. */
  lemma LogIsTheEndOfHistory(worlds: seq<World>, inputs: seq<Input>)
    requires Run(worlds, inputs) && Acquainted(worlds[|inputs|].stream)
    ensures var (c, s) := (worlds[|inputs|].cluster, worlds[|inputs|].stream);
            s.segments != [] && s.checkpoint.Some? && s.checkpoint.value in c.names
            && Remembers(c, s.segments[|s.segments| - 1], c.names[s.checkpoint.value])
            && |s.segments[|s.segments| - 1].changes| <= 1024
  {
    var a := RunKeeps(worlds, inputs);
  }

  /** A bounded query is given at most what it asked for, and one that was given all of it is over. */
  lemma BudgetIsKept(worlds: seq<World>, inputs: seq<Input>)
    requires Run(worlds, inputs) && worlds[|inputs|].budget.Some?
    ensures var w := worlds[|inputs|];
            |w.records| <= w.budget.value && (|w.records| == w.budget.value ==> w.phase.Stopped?)
  {
    var a := RunKeeps(worlds, inputs);
  }

  /** What `close_view` leaves in the session once the invocation is over. */
  function LeftBehind(s: Stream): Stream {
    if s.state == Live then s else NEW_STREAM
  }

  /** The next invocation over the collection may start from it, whenever it comes. */
  lemma NextInvocationMayStart(worlds: seq<World>, inputs: seq<Input>, later: Cluster, budget: Option<nat>, again: bool)
    requires Run(worlds, inputs) && worlds[|inputs|].phase.Stopped? && worlds[|inputs|].cluster.Grows(later)
    requires budget.Some? ==> budget.value > 0
    ensures var w := worlds[|inputs|];
            Starts(World(later, LeftBehind(w.stream), [], Starting, budget, again, w.declined))
  {
    var a := RunKeeps(worlds, inputs);
    TruthStable(worlds[|inputs|].cluster, later, worlds[|inputs|].stream);
  }
}
