/** The `k8s-change` invocation (changes.rs), from its first read of a collection to its last record.

    The loop is a step system. `Next` is what the provider does at each point of the loop with an
    input; `Allowed` is what a Kubernetes API server may answer there: a listing or an initial event
    stream is a snapshot of one position of the history, a watch opened at a token delivers the changes
    after that token's position in order, and anything may break at any moment. */
module ChangeStream {
  import opened Kube
  import opened WatchStreams

  datatype Word = Listed | Arrived | Changed | Gone | Gap | Notice

  datatype Record = Record(word: Word, item: Option<Object>, segment: nat, continuous: bool)

  datatype Outcome = Completed | Cancelled | Failed

  /** What became of a record handed to the host. */
  datatype Fate = Taken | Cancel | Fault

  /** What a streaming body still has to say: the rest of the initial state, or the history from a
      position on. */
  datatype Body = Initial(at: nat, left: seq<Object>) | Following(cursor: nat)

  datatype Phase = Starting | Between | Reading(body: Body) | Settling | Stopped(outcome: Outcome)

  datatype World = World(
    cluster: Cluster, stream: Stream, records: seq<Record>, phase: Phase,
    budget: Option<nat>, reacquire: bool, declined: bool)

  /** A listing as the transport hands it over (session.rs `synchronise` decides whether it is usable). */
  datatype Answer = Unreachable(outcome: Outcome)
                  | Page(version: Option<Version>, complete: bool, intact: bool, objects: seq<Object>)

  /** The order an acquisition's objects are told in, and how many the host takes before `otherwise`. */
  datatype Telling = Telling(order: seq<Object>, taken: nat, otherwise: Fate)

  datatype Frame = Frame(event: Event, fate: Fate, telling: Telling)

  datatype Input =
    | Grow(later: Cluster)
    | Stop
    | Begin(answer: Answer, telling: Telling)
    | Open(status: nat, body: Body, fate: Fate)
    | OpenFails(outcome: Outcome)
    | Chunk(frames: seq<Frame>, readable: bool)
    | Quiet(notice: Option<Fate>)
    | End(rest: seq<Frame>, readable: bool)
    | Settle(answer: Answer, telling: Telling, notice: Option<Fate>)

  // ---- what the provider does ----------------------------------------------------------------------

  /** One record, built from where the stream stands and handed to the host (`Emitter::deliver`). */
  function Deliver(w: World, word: Word, item: Option<Object>, fate: Fate): World {
    match fate
    case Cancel => w.(phase := Stopped(Cancelled))
    case Fault => w.(phase := Stopped(Failed))
    case Taken =>
      var told := w.(records := w.records + [Record(word, item, |w.stream.segments|, GapFree(w.stream))]);
      if w.budget.Some? && |told.records| >= w.budget.value then told.(phase := Stopped(Completed)) else told
  }

  /** The `listed` records of an acquisition, from the `i`-th on (`acquisition`). */
  function Announce(w: World, telling: Telling, i: nat): World
    decreases |telling.order| - i
  {
    if i >= |telling.order| then w else
    var told := Deliver(w, Listed, Some(telling.order[i]), if i < telling.taken then Taken else telling.otherwise);
    if told.phase.Stopped? then told else Announce(told, telling, i + 1)
  }

  function Usable(answer: Answer): bool {
    answer.Page? && answer.version.Some? && answer.complete && answer.intact
  }

  /** `synchronise`, then the acquisition's records. */
  function Acquire(w: World, answer: Answer, telling: Telling): World {
    if answer.Unreachable? then w.(phase := Stopped(answer.outcome))
    else if !Usable(answer) then w.(phase := Stopped(Failed))
    else
      Announce(w.(stream := AfterListing(w.stream, answer.objects, answer.version.value), phase := Between), telling, 0)
  }

  function WordOf(change: Change): Word {
    match change.what
    case Added => Arrived
    case Modified => Changed
    case Deleted => Gone
  }

  function Settled(w: World): World {
    if w.phase.Stopped? then w else w.(phase := Settling)
  }

  /** The step one event takes: the stream's next state, and the records that go out with it (`apply`). */
  function Heard(w: World, frame: Frame): World {
    var after := w.(stream := AfterEvent(w.stream, frame.event));
    match ReceptionOf(w.stream, frame.event)
    case Synchronised => Announce(after.(declined := false), frame.telling, 0)
    case Applied => Deliver(after, WordOf(frame.event.change), Some(frame.event.change.item), frame.fate)
    case ContinuityBroken => Settled(Deliver(after, Gap, None, frame.fate))
    case Suspended => after.(phase := Settling)
    case _ => after
  }

  const CUT := Frame(Error(Interrupted), Taken, Telling([], 0, Fault))

  function Advance(body: Body, event: Event): Body {
    match body
    case Initial(at, left) =>
      if event.InitialEventsEnd? then Following(at)
      else if event.Mutation? && left != [] then Initial(at, left[1..]) else body
    case Following(cursor) => if event.Mutation? then Following(cursor + 1) else body
  }

  function Sent(w: World, event: Event): World {
    if w.phase.Reading? then w.(phase := Reading(Advance(w.phase.body, event))) else w
  }

  /** The events of one chunk, up to the one that ends the response. */
  function Feed(w: World, frames: seq<Frame>): World
    decreases |frames|
  {
    if frames == [] || !w.phase.Reading? then w else
    Feed(Heard(Sent(w, frames[0].event), frames[0]), frames[1..])
  }

  function Noticed(w: World, notice: Option<Fate>): World {
    if w.phase.Stopped? || notice.None? then w else Deliver(w, Notice, None, notice.value)
  }

  /** What the loop does with a response that is over (`live`, after the round). */
  function Resolve(w: World, answer: Answer, telling: Telling, notice: Option<Fate>): World {
    if w.stream.staging.Some? then
      Acquire(w.(stream := w.stream.(staging := None), declined := true), answer, telling)
    else match w.stream.state
      case Live => Noticed(w.(phase := Between), notice)
      case Reconnecting =>
        if ReconnectError(w.stream).Some? then w.(phase := Stopped(Completed))
        else Noticed(w.(stream := AfterReconnect(w.stream), phase := Between), notice)
      case GapDetected =>
        if !w.reacquire then w.(phase := Stopped(Completed))
        else Noticed(Acquire(w, answer, telling), notice)
      case _ => w.(phase := Stopped(Completed))
  }

  /** The answer to a watch request (`Live::run`, the status match). */
  function Opened(w: World, status: nat, body: Body, fate: Fate): World {
    if status == 200 then w.(phase := Reading(body))
    else if w.stream.staging.Some? && (status == 400 || status == 403) then w.(phase := Settling)
    else if status == 410 then Settled(Heard(w, Frame(Error(Expired), fate, Telling([], 0, Fault))))
    else if status == 403 then Settled(Heard(w, Frame(Error(Refused), fate, Telling([], 0, Fault))))
    else w.(phase := Stopped(Failed))
  }

  function Next(w: World, input: Input): World {
    match input
    case Grow(later) => w.(cluster := later)
    case Stop => w.(phase := Stopped(Cancelled))
    case Begin(answer, telling) =>
      if w.declined then Acquire(w, answer, telling)
      else if BeginError(w.stream).Some? then w.(phase := Stopped(Failed))
      else w.(stream := AfterBegin(w.stream), phase := Between)
    case Open(status, body, fate) => Opened(w, status, body, fate)
    case OpenFails(outcome) => w.(phase := Stopped(outcome))
    case Chunk(frames, readable) => if readable then Feed(w, frames) else Heard(w, CUT)
    case Quiet(notice) => Noticed(w, notice)
    case End(rest, readable) => Settled(if readable then Feed(w, rest) else Heard(w, CUT))
    case Settle(answer, telling, notice) => Resolve(w, answer, telling, notice)
  }

  // ---- what the cluster may answer -----------------------------------------------------------------

  ghost predicate AnswerAllowed(c: Cluster, answer: Answer, telling: Telling)
    requires c.Valid()
  {
    && (answer.Unreachable? ==> answer.outcome != Completed)
    && (Usable(answer) ==>
          && answer.version.value in c.names
          && Collect(answer.objects) == c.Snapshot(c.names[answer.version.value])
          && TellingAllowed(Collect(answer.objects), telling))
  }

  /** A telling lists the cache it is told from, once each, and stops only for a reason. */
  ghost predicate TellingAllowed(objects: Table, telling: Telling) {
    Enumerates(telling.order, objects) && telling.otherwise != Taken
  }

  ghost predicate BodyAllowed(w: World, body: Body)
    requires w.cluster.Valid()
  {
    if w.stream.staging.Some? then
      body.Initial? && body.at <= |w.cluster.log| && Enumerates(body.left, w.cluster.Snapshot(body.at))
    else if w.stream.checkpoint.Some? then
      w.stream.checkpoint.value in w.cluster.names && body == Following(w.cluster.names[w.stream.checkpoint.value])
    else body == Following(|w.cluster.log|)
  }

  ghost predicate Sends(c: Cluster, body: Body, event: Event) {
    match event
    case Error(_) => true
    case Mutation(change) =>
      (match body
       case Initial(_, left) => left != [] && change == Change(Added, left[0])
       case Following(cursor) => cursor < |c.log| && change == c.log[cursor])
    case Bookmark(version) => version in c.names && (body.Following? ==> c.names[version] == body.cursor)
    case InitialEventsEnd(version) =>
      version in c.names &&
      (match body
       case Initial(at, left) => left == [] && c.names[version] == at
       case Following(cursor) => c.names[version] == cursor)
  }

  ghost predicate FramesAllowed(w: World, frames: seq<Frame>)
    decreases |frames|
  {
    frames != [] && w.phase.Reading? ==>
      && Sends(w.cluster, w.phase.body, frames[0].event)
      && (ReceptionOf(w.stream, frames[0].event) == Synchronised ==>
            TellingAllowed(AfterEvent(w.stream, frames[0].event).objects, frames[0].telling))
      && FramesAllowed(Heard(Sent(w, frames[0].event), frames[0]), frames[1..])
  }

  ghost predicate Allowed(w: World, input: Input)
    requires w.cluster.Valid()
  {
    match input
    case Grow(later) => w.cluster.Grows(later)
    case Stop => !w.phase.Stopped?
    case Begin(answer, telling) =>
      w.phase.Starting? && (w.declined ==> AnswerAllowed(w.cluster, answer, telling))
    case Open(status, body, fate) => w.phase.Between? && (status == 200 ==> BodyAllowed(w, body))
    case OpenFails(outcome) => w.phase.Between? && outcome != Completed
    case Chunk(frames, readable) => w.phase.Reading? && (readable ==> FramesAllowed(w, frames))
    case Quiet(_) => w.phase.Reading?
    case End(rest, readable) => w.phase.Reading? && |rest| <= 1 && (readable ==> FramesAllowed(w, rest))
    case Settle(answer, telling, _) =>
      w.phase.Settling? && AnswerAllowed(w.cluster, answer, telling)
  }

  // ---- runs ----------------------------------------------------------------------------------------

  /** A stream an earlier invocation may have left in the session: none, or one still live
      (`close_view` releases every other). */
  ghost predicate Kept(c: Cluster, s: Stream) {
    s == NEW_STREAM || (WatchStreams.Valid(s) && s.state == Live && Truthful(c, s))
  }

  ghost predicate Starts(w: World) {
    && w.cluster.Valid() && Kept(w.cluster, w.stream)
    && w.records == [] && w.phase == Starting
    && (w.budget.Some? ==> w.budget.value > 0)
  }

  /** A run: worlds reached one after the other from a start, each by an input allowed where it is met. */
  ghost predicate Run(worlds: seq<World>, inputs: seq<Input>) {
    && |worlds| == |inputs| + 1 && Starts(worlds[0])
    && forall i :: 0 <= i < |inputs| ==> Moves(worlds[i], inputs[i], worlds[i + 1])
  }

  ghost predicate Moves(v: World, input: Input, w: World) {
    v.cluster.Valid() && Allowed(v, input) && w == Next(v, input)
  }

  // ---- what the stream knows -------------------------------------------------------------------------

  /** The log of the open period is the end of the history from the period's start to `at`. */
  ghost predicate Remembers(c: Cluster, segment: Segment, at: nat) {
    && segment.startedAt in c.names
    && at <= |c.log|
    && c.names[segment.startedAt] + segment.trimmed + |segment.changes| == at
    && forall i :: 0 <= i < |segment.changes| ==>
         segment.changes[i] == Remember(c.log[at - |segment.changes| + i])
  }

  /** An acquired cache is the collection as it was at the checkpoint, and the current period's change
      log is the history up to it. */
  ghost predicate Truthful(c: Cluster, s: Stream) {
    s.state in {Live, Reconnecting} && s.checkpoint.Some? && s.segments != [] ==>
      && s.checkpoint.value in c.names
      && c.names[s.checkpoint.value] <= |c.log|
      && s.objects == c.Snapshot(c.names[s.checkpoint.value])
      && Remembers(c, s.segments[|s.segments| - 1], c.names[s.checkpoint.value])
  }

  /** Where in the history an acquired stream stands. */
  ghost function At(c: Cluster, s: Stream): nat {
    if s.checkpoint.Some? && s.checkpoint.value in c.names then c.names[s.checkpoint.value] else 0
  }

  // ---- what the reader was told ------------------------------------------------------------------------

  /** What a record says, apart from the notices, which say nothing about any object. */
  datatype Item = Item(word: Word, item: Option<Object>)

  function Said(records: seq<Record>): seq<Item>
    decreases |records|
  {
    if records == [] then [] else
    var last := records[|records| - 1];
    Said(records[..|records| - 1]) + if last.word == Notice then [] else [Item(last.word, last.item)]
  }

  /** A period of the observation as the reader was told it: nothing yet; a listing of position `start`
      and the changes to `end`; or, on a stream that was live before, the changes alone. */
  datatype Period =
    | Unacquired
    | Acquired(start: nat, told: seq<Object>, end: nat)
    | Resumed(start: nat, end: nat)

  datatype Account = Account(closed: seq<Period>, open: Period)

  function ListedItems(told: seq<Object>): seq<Item>
    decreases |told|
  {
    if told == [] then [] else ListedItems(told[..|told| - 1]) + [Item(Listed, Some(told[|told| - 1]))]
  }

  function ChangeItems(changes: seq<Change>): seq<Item>
    decreases |changes|
  {
    if changes == [] then [] else
    var last := changes[|changes| - 1];
    ChangeItems(changes[..|changes| - 1]) + [Item(WordOf(last), Some(last.item))]
  }

  function PeriodItems(log: seq<Change>, period: Period): seq<Item> {
    match period
    case Unacquired => []
    case Acquired(start, told, end) =>
      ListedItems(told) + if start <= end <= |log| then ChangeItems(log[start..end]) else []
    case Resumed(start, end) => if start <= end <= |log| then ChangeItems(log[start..end]) else []
  }

  function ClosedItems(log: seq<Change>, closed: seq<Period>): seq<Item>
    decreases |closed|
  {
    if closed == [] then [] else
    ClosedItems(log, closed[..|closed| - 1]) + PeriodItems(log, closed[|closed| - 1]) + [Item(Gap, None)]
  }

  /** Everything a reader of this account was told: each closed period and the gap that ended it, then
      the open period. */
  function Transcript(log: seq<Change>, a: Account): seq<Item> {
    ClosedItems(log, a.closed) + PeriodItems(log, a.open)
  }

  ghost predicate Whole(c: Cluster, period: Period) {
    period.Acquired? && period.start <= |c.log| ==> Enumerates(period.told, c.Snapshot(period.start))
  }

  /** A window of the history; an acquired one begins with objects of the collection at its start, each
      told once, and goes on to changes only when all of them were told. */
  ghost predicate PeriodOk(c: Cluster, period: Period) {
    match period
    case Unacquired => true
    case Resumed(start, end) => start <= end <= |c.log|
    case Acquired(start, told, end) =>
      && start <= end <= |c.log|
      && (forall o :: o in told ==> o.key in c.Snapshot(start) && c.Snapshot(start)[o.key] == o)
      && (forall i, j :: 0 <= i < j < |told| ==> told[i].key != told[j].key)
      && (start == end || Whole(c, period))
  }

  ghost predicate AccountOk(c: Cluster, a: Account) {
    && PeriodOk(c, a.open)
    && forall i :: 0 <= i < |a.closed| ==> ClosedOk(c, a.closed[i])
  }

  ghost predicate ClosedOk(c: Cluster, period: Period) {
    PeriodOk(c, period) && Whole(c, period)
  }

  // ---- the segment numbers ---------------------------------------------------------------------------

  predicate Observation(record: Record) {
    record.word != Gap && record.word != Notice
  }

  ghost predicate NoGapAfter(records: seq<Record>, i: int, until: int)
    requires 0 <= i && until <= |records|
  {
    forall j :: i < j < until ==> records[j].word != Gap
  }

  /** An observation after a gap carries a later segment and is not continuous; observations with no gap
      between them carry one segment. */
  ghost predicate Ordered(records: seq<Record>) {
    && (forall i, j :: 0 <= i < j < |records| ==> records[i].segment <= records[j].segment)
    && (forall i, j :: 0 <= i < j < |records| && records[i].word == Gap && Observation(records[j]) ==>
          records[i].segment < records[j].segment && !records[j].continuous)
    && (forall i, j ::
          0 <= i < j < |records| && Observation(records[i]) && Observation(records[j]) && NoGapAfter(records, i, j)
          ==> records[i].segment == records[j].segment)
  }

  predicate Acquainted(s: Stream) {
    s.state == Live || s.state == Reconnecting
  }

  ghost predicate Poised(records: seq<Record>, s: Stream) {
    && (forall i :: 0 <= i < |records| ==> records[i].segment <= |s.segments|)
    && (forall i :: 0 <= i < |records| && records[i].word == Gap ==>
          s.gaps != [] && (Acquainted(s) ==> records[i].segment < |s.segments|))
    && (forall i :: 0 <= i < |records| && Observation(records[i]) && NoGapAfter(records, i, |records|) ==>
          Acquainted(s) && records[i].segment == |s.segments|)
  }

  // ---- the invariant ---------------------------------------------------------------------------------

  /** The stream against the history. */
  ghost predicate Grounded(c: Cluster, s: Stream) {
    c.Valid() && WatchStreams.Valid(s) && Truthful(c, s)
  }

  /** The records against the history. */
  ghost predicate Told(c: Cluster, records: seq<Record>, a: Account) {
    Said(records) == Transcript(c.log, a) && AccountOk(c, a) && Ordered(records)
  }

  /** The account against the stream: its open period is the one the stream is in. */
  ghost predicate Linked(c: Cluster, s: Stream, a: Account) {
    match s.state
    case Syncing => a == Account([], Unacquired)
    case GapDetected => a.open == Unacquired && a.closed != []
    case Denied => a.open == Unacquired && a.closed != []
    case _ => !a.open.Unacquired? && a.open.end == At(c, s) && Whole(c, a.open)
  }

  /** Where the loop is against the stream. */
  ghost predicate PhaseOk(c: Cluster, s: Stream, phase: Phase) {
    match phase
    case Starting => s.staging.None? && s.state in {Syncing, Live}
    case Between => (s.state == Live && s.staging.None?) || (s.state == Syncing && s.staging == Some([]))
    case Reading(Following(cursor)) => s.state == Live && s.staging.None? && cursor == At(c, s)
    case Reading(Initial(at, left)) =>
      s.state == Syncing && s.staging.Some? && at <= |c.log| && Enumerates(s.staging.value + left, c.Snapshot(at))
    case Settling => s.staging.Some? <==> s.state == Syncing
    case Stopped(_) => true
  }

  ghost predicate Budgeted(w: World) {
    w.budget.Some? ==> |w.records| <= w.budget.value && (|w.records| == w.budget.value ==> w.phase.Stopped?)
  }

  ghost predicate Ready(w: World, a: Account) {
    && Poised(w.records, w.stream) && Linked(w.cluster, w.stream, a) && PhaseOk(w.cluster, w.stream, w.phase)
    && (w.phase.Starting? ==> w.records == [])
  }

  /** The first period the reader was told of. */
  function Origin(a: Account): Period {
    if a.closed == [] then a.open else a.closed[0]
  }

  /** Only the first period may do without a listing: none that follows a gap does. */
  ghost predicate ListedAfterGaps(a: Account) {
    (a.open.Resumed? ==> a.closed == []) && forall i :: 0 < i < |a.closed| ==> !a.closed[i].Resumed?
  }

  /** A period that was never listed is the one the invocation began in. */
  ghost predicate Resumes(b: Account, a: Account) {
    && (b.open.Resumed? ==> a.open.Resumed? && b.open.start == a.open.start && b.closed == a.closed)
    && (Origin(b).Resumed? ==> Origin(a).Resumed? && Origin(b).start == Origin(a).start)
    && (ListedAfterGaps(a) ==> ListedAfterGaps(b))
  }

  /** How an account may go on: the open period grows, is closed by a gap, or gives way to a listed one. */
  lemma ResumesBy(b: Account, a: Account)
    requires b.closed == a.closed || b.closed == []
    requires b.open.Resumed? ==> a.open.Resumed? && b.open.start == a.open.start && b.closed == a.closed
    ensures Resumes(b, a)
  {
  }

  lemma ResumesClosing(a: Account)
    ensures Resumes(Account(a.closed + [a.open], Unacquired), a)
  {
  }

  lemma ResumesJoin(c: Account, b: Account, a: Account)
    requires Resumes(c, b) && Resumes(b, a)
    ensures Resumes(c, a)
  {
  }

  ghost predicate Inv(w: World, a: Account) {
    && Grounded(w.cluster, w.stream) && Told(w.cluster, w.records, a) && Budgeted(w)
    && (!w.phase.Stopped? ==> Ready(w, a))
  }

  // ---- keeping it: records ---------------------------------------------------------------------------

  lemma SaidNext(records: seq<Record>, record: Record)
    ensures Said(records + [record])
            == Said(records) + if record.word == Notice then [] else [Item(record.word, record.item)]
  {
    assert (records + [record])[..|records|] == records;
  }

  lemma ListedNext(told: seq<Object>, next: Object)
    ensures ListedItems(told + [next]) == ListedItems(told) + [Item(Listed, Some(next))]
  {
    assert (told + [next])[..|told|] == told;
  }

  lemma ChangeNext(log: seq<Change>, start: nat, end: nat)
    requires start <= end < |log|
    ensures ChangeItems(log[start..end + 1])
            == ChangeItems(log[start..end]) + [Item(WordOf(log[end]), Some(log[end].item))]
  {
    assert log[start..end + 1][..end - start] == log[start..end];
  }

  lemma GapNext(log: seq<Change>, a: Account)
    ensures Transcript(log, Account(a.closed + [a.open], Unacquired)) == Transcript(log, a) + [Item(Gap, None)]
  {
    assert (a.closed + [a.open])[..|a.closed|] == a.closed;
  }

  lemma ObservationOrdered(records: seq<Record>, s: Stream, record: Record)
    requires Ordered(records) && Poised(records, s) && Acquainted(s) && Observation(record)
    requires record.segment == |s.segments| && record.continuous == GapFree(s)
    ensures Ordered(records + [record]) && Poised(records + [record], s)
  {
    var more := records + [record];
    forall i, j | 0 <= i < j < |more| && Observation(more[i]) && Observation(more[j]) && NoGapAfter(more, i, j)
      ensures more[i].segment == more[j].segment
    {
      assert forall k :: i < k < j ==> more[k] == records[k];
      if j < |records| {
        assert forall k :: i < k < j ==> records[k].word != Gap by {
          assert forall k :: i < k < j ==> more[k].word != Gap; }
        assert NoGapAfter(records, i, j);
      } else {
        assert forall k :: i < k < |records| ==> records[k].word != Gap by {
          assert forall k :: i < k < j ==> more[k].word != Gap;
        }
        assert NoGapAfter(records, i, |records|);
      }
    }
    forall i | 0 <= i < |more| && Observation(more[i]) && NoGapAfter(more, i, |more|)
      ensures more[i].segment == |s.segments|
    {
      if i < |records| {
        assert forall k :: i < k < |records| ==> records[k] == more[k];
        assert NoGapAfter(records, i, |records|);
      }
    }
  }

  lemma GapOrdered(records: seq<Record>, record: Record)
    requires Ordered(records) && !Observation(record)
    requires forall i :: 0 <= i < |records| ==> records[i].segment <= record.segment
    ensures Ordered(records + [record])
  {
    var more := records + [record];
    forall i, j | 0 <= i < j < |more| && Observation(more[i]) && Observation(more[j]) && NoGapAfter(more, i, j)
      ensures more[i].segment == more[j].segment
    {
      assert j < |records|;
      assert forall k :: i < k < j ==> more[k] == records[k];
      assert NoGapAfter(records, i, j);
    }
  }

  lemma NoticePoised(records: seq<Record>, s: Stream, record: Record)
    requires Poised(records, s) && record.word == Notice && record.segment == |s.segments|
    ensures Poised(records + [record], s)
  {
    var more := records + [record];
    forall i | 0 <= i < |more| && Observation(more[i]) && NoGapAfter(more, i, |more|)
      ensures Acquainted(s) && more[i].segment == |s.segments|
    {
      assert forall k :: i < k < |records| ==> records[k] == more[k];
      assert NoGapAfter(records, i, |records|);
    }
  }

  // ---- keeping it: the stream ------------------------------------------------------------------------

  lemma TruthfulListing(c: Cluster, s: Stream, objects: seq<Object>, version: Version)
    requires c.Valid() && WatchStreams.Valid(s) && version in c.names
    requires Collect(objects) == c.Snapshot(c.names[version])
    ensures var after := AfterListing(s, objects, version);
            WatchStreams.Valid(after) && Truthful(c, after) && At(c, after) == c.names[version]
  {
    ListingKeepsValid(s, objects, version);
  }

  lemma RemembersNext(c: Cluster, segment: Segment, at: nat)
    requires c.Valid() && Remembers(c, segment, at) && at < |c.log|
    requires |segment.changes| <= CHANGE_LOG_CAPACITY
    ensures Remembers(c, Pushed(segment, Remember(c.log[at])), at + 1)
  {
    var pushed := Pushed(segment, Remember(c.log[at]));
    forall i | 0 <= i < |pushed.changes|
      ensures pushed.changes[i] == Remember(c.log[at + 1 - |pushed.changes| + i])
    {
      if i < |pushed.changes| - 1 {
        var j := i + |segment.changes| + 1 - |pushed.changes|;
        assert pushed.changes[i] == segment.changes[j];
      }
    }
  }

  lemma ChangeShape(s: Stream, change: Change)
    requires WatchStreams.Valid(s) && s.state == Live
    ensures var after := AfterEvent(s, Mutation(change));
            WatchStreams.Valid(after) && after.state == Live && after.staging == s.staging
            && after.objects == Apply(s.objects, change)
            && (change.item.version.Some? ==> after.checkpoint == change.item.version)
            && |after.segments| == |s.segments| && (s.gaps != [] ==> after.gaps != [])
            && after.segments[|s.segments| - 1] == Pushed(s.segments[|s.segments| - 1], Remember(change))
  {
    EventKeepsValid(s, Mutation(change));
  }

  lemma TruthfulChange(c: Cluster, s: Stream)
    requires c.Valid() && WatchStreams.Valid(s) && s.state == Live && Truthful(c, s) && At(c, s) < |c.log|
    ensures var after := AfterEvent(s, Mutation(c.log[At(c, s)]));
            WatchStreams.Valid(after) && Truthful(c, after) && At(c, after) == At(c, s) + 1
            && after.state == Live && |after.segments| == |s.segments|
            && (s.gaps != [] ==> after.gaps != []) && after.staging == s.staging
  {
    hide AfterEvent, Pushed, Apply, Fold;
    var at := At(c, s);
    ChangeShape(s, c.log[at]);
    SnapshotNext(c, at);
    RemembersNext(c, s.segments[|s.segments| - 1], at);
  }

  lemma TruthfulBookmark(c: Cluster, s: Stream, version: Version)
    requires c.Valid() && WatchStreams.Valid(s) && Truthful(c, s)
    requires version in c.names && (s.state == Live ==> c.names[version] == At(c, s))
    ensures var after := AfterCheckpoint(s, version);
            WatchStreams.Valid(after) && Truthful(c, after) && |after.segments| == |s.segments|
            && (Acquainted(after) ==> Acquainted(s) && At(c, after) == At(c, s) && after.gaps == s.gaps)
  {
    EventKeepsValid(s, Bookmark(version));
  }

  lemma TruthStable(c: Cluster, later: Cluster, s: Stream)
    requires c.Valid() && c.Extends(later) && Truthful(c, s) && WatchStreams.Valid(s)
    ensures Truthful(later, s) && (Acquainted(s) ==> At(later, s) == At(c, s))
  {
    if Acquainted(s) {
      SnapshotStable(c, later, At(c, s));
      assert forall i :: 0 <= i < |c.log| ==> later.log[i] == later.log[..|c.log|][i];
    }
  }

  lemma SliceStable(log: seq<Change>, later: seq<Change>, start: nat, end: nat)
    requires start <= end <= |log| <= |later| && later[..|log|] == log
    ensures later[start..end] == log[start..end]
  {
    forall i | start <= i < end ensures later[i] == log[i] { assert later[..|log|][i] == later[i]; }
  }

  lemma PeriodStable(c: Cluster, later: Cluster, period: Period)
    requires c.Extends(later) && PeriodOk(c, period)
    ensures PeriodOk(later, period) && (Whole(c, period) ==> Whole(later, period))
    ensures PeriodItems(c.log, period) == PeriodItems(later.log, period)
  {
    if !period.Unacquired? {
      SnapshotStable(c, later, period.start);
      SliceStable(c.log, later.log, period.start, period.end);
    }
  }

  lemma {:induction false} ClosedStable(c: Cluster, later: Cluster, closed: seq<Period>)
    requires c.Extends(later)
    requires forall i :: 0 <= i < |closed| ==> ClosedOk(c, closed[i])
    ensures forall i :: 0 <= i < |closed| ==> ClosedOk(later, closed[i])
    ensures ClosedItems(c.log, closed) == ClosedItems(later.log, closed)
    decreases |closed|
  {
    hide PeriodOk, PeriodItems, Whole;
    if closed != [] {
      var init, last := closed[..|closed| - 1], closed[|closed| - 1];
      ClosedStable(c, later, init);
      PeriodStable(c, later, last);
      forall i | 0 <= i < |closed| ensures ClosedOk(later, closed[i]) {
        if i < |init| { assert closed[i] == init[i]; }
      }
    }
  }

  lemma GrowKeeps(w: World, later: Cluster, a: Account)
    requires Inv(w, a) && w.cluster.Grows(later)
    ensures Inv(w.(cluster := later), a)
  {
    TruthStable(w.cluster, later, w.stream);
    PeriodStable(w.cluster, later, a.open);
    ClosedStable(w.cluster, later, a.closed);
    match w.phase
    case Reading(Initial(at, left)) => if at <= |w.cluster.log| { SnapshotStable(w.cluster, later, at); }
    case _ =>
  }

  // ---- keeping it: one record --------------------------------------------------------------------------

  lemma ObservationDelivered(w: World, word: Word, item: Option<Object>, fate: Fate, a: Account, more: Account)
    requires Grounded(w.cluster, w.stream) && Told(w.cluster, w.records, a) && Budgeted(w)
    requires !w.phase.Stopped? && Poised(w.records, w.stream) && Acquainted(w.stream)
    requires word != Gap && word != Notice && AccountOk(w.cluster, more)
    requires Transcript(w.cluster.log, more) == Transcript(w.cluster.log, a) + [Item(word, item)]
    ensures var told := Deliver(w, word, item, fate);
            told.stream == w.stream && told.cluster == w.cluster
             && (fate != Taken ==> told.phase.Stopped? && Inv(told, a))
            && (fate == Taken && told.phase.Stopped? ==> Inv(told, more))
            && (fate == Taken && !told.phase.Stopped? ==>
                  told.phase == w.phase && Told(told.cluster, told.records, more) && Budgeted(told)
                  && Poised(told.records, told.stream))
  {
    hide Grounded, Linked, PhaseOk, AccountOk, Ordered, Poised, Transcript, Said, Whole, GapFree;
    if fate == Taken {
      var record := Record(word, item, |w.stream.segments|, GapFree(w.stream));
      SaidNext(w.records, record);
      ObservationOrdered(w.records, w.stream, record);
    }
  }

  lemma NoticeDelivered(w: World, fate: Fate, a: Account)
    requires Inv(w, a) && !w.phase.Stopped? && !w.phase.Starting?
    ensures Inv(Deliver(w, Notice, None, fate), a)
  {
    hide Grounded, Linked, PhaseOk, AccountOk, Transcript, Ordered, Said;
    if fate == Taken {
      var record := Record(Notice, None, |w.stream.segments|, GapFree(w.stream));
      SaidNext(w.records, record);
      GapOrdered(w.records, record);
      NoticePoised(w.records, w.stream, record);
    }
  }

  lemma UnacquiredOk(c: Cluster)
    ensures PeriodOk(c, Unacquired)
  {
  }

  lemma BreakTold(c: Cluster, records: seq<Record>, s: Stream, record: Record, a: Account)
    requires Told(c, records, a) && Whole(c, a.open) && record.word == Gap && record.item == None
    requires Poised(records, s) && record.segment == |s.segments|
    ensures Told(c, records + [record], Account(a.closed + [a.open], Unacquired))
  {
    hide PeriodOk, Whole, Said, Transcript, Ordered;
    var b := Account(a.closed + [a.open], Unacquired);
    assert PeriodOk(c, Unacquired) by { UnacquiredOk(c); }
    GapNext(c.log, a);
    SaidNext(records, record);
    GapOrdered(records, record);
    forall i | 0 <= i < |b.closed| ensures ClosedOk(c, b.closed[i]) {
      if i < |a.closed| { assert b.closed[i] == a.closed[i]; }
    }
  }

  lemma BreakPoised(records: seq<Record>, s: Stream, after: Stream, record: Record)
    requires Poised(records, s) && record.word == Gap && record.segment == |after.segments|
    requires !Acquainted(after) && after.gaps != [] && |after.segments| == |s.segments|
    ensures Poised(records + [record], after)
  {
    var more := records + [record];
    forall i | 0 <= i < |more| && Observation(more[i]) ensures !NoGapAfter(more, i, |more|) {
      assert more[|more| - 1].word == Gap;
    }
  }

  lemma BreakGrounded(c: Cluster, s: Stream, failure: Failure)
    requires Grounded(c, s) && failure != Interrupted
    ensures var after := AfterFailure(s, failure);
            Grounded(c, after) && !Acquainted(after) && after.gaps != [] && after.staging.None?
            && after.state != Syncing && |after.segments| == |s.segments|
  {
    EventKeepsValid(s, Error(failure));
  }

  lemma LinkedWhole(c: Cluster, s: Stream, a: Account)
    requires Linked(c, s, a)
    ensures Whole(c, a.open)
  {
  }

  /** A break: the open period is closed, and the gap record says so. */
  lemma BreakHeard(w: World, frame: Frame, a: Account) returns (b: Account)
    requires Grounded(w.cluster, w.stream) && Told(w.cluster, w.records, a) && Budgeted(w)
    requires Poised(w.records, w.stream) && Whole(w.cluster, a.open) && !w.phase.Stopped?
    requires frame.event == Error(Expired) || frame.event == Error(Refused)
    ensures Inv(Heard(w, frame), b)
    ensures Heard(w, frame).phase.Settling? || Heard(w, frame).phase.Stopped?
    ensures Resumes(b, a)
  {
    hide Resumes;
    var after := w.(stream := AfterEvent(w.stream, frame.event));
    assert Heard(w, frame) == Settled(Deliver(after, Gap, None, frame.fate));
    BreakGrounded(w.cluster, w.stream, frame.event.failure);
    b := GapDelivered(after, w.stream, frame.fate, a);
  }

  lemma GapDelivered(w: World, before: Stream, fate: Fate, a: Account) returns (b: Account)
    requires Grounded(w.cluster, w.stream) && Told(w.cluster, w.records, a) && Whole(w.cluster, a.open)
    requires Budgeted(w) && !w.phase.Stopped? && Poised(w.records, before)
    requires !Acquainted(w.stream) && w.stream.gaps != [] && |w.stream.segments| == |before.segments|
    requires w.stream.staging.None? && w.stream.state != Syncing
    ensures Inv(Settled(Deliver(w, Gap, None, fate)), b)
    ensures Resumes(b, a)
  {
    hide Grounded, Whole, Resumes, Told, Poised;
    ResumesBy(a, a);
    ResumesClosing(a);
    if fate != Taken { return a; }
    b := Account(a.closed + [a.open], Unacquired);
    var record := Record(Gap, None, |w.stream.segments|, GapFree(w.stream));
    BreakTold(w.cluster, w.records, before, record, a);
    BreakPoised(w.records, before, w.stream, record);
  }

  lemma CutHeard(w: World, frame: Frame, a: Account)
    requires Inv(w, a) && w.phase.Reading? && frame.event == Error(Interrupted)
    ensures Inv(Heard(w, frame), a) && Heard(w, frame).phase.Settling?
  {
    hide Grounded, Told;
    CutGrounded(w.cluster, w.stream);
  }

  lemma CutGrounded(c: Cluster, s: Stream)
    requires Grounded(c, s)
    ensures var after := AfterFailure(s, Interrupted);
            Grounded(c, after) && after == if s.state == Live then s.(state := Reconnecting) else s
  {
    EventKeepsValid(s, Error(Interrupted));
  }

  // ---- keeping it: an acquisition ----------------------------------------------------------------------

  lemma TellingItems(log: seq<Change>, closed: seq<Period>, at: nat, order: seq<Object>, i: nat)
    requires at <= |log| && i < |order|
    ensures Transcript(log, Account(closed, Acquired(at, order[..i + 1], at)))
         == Transcript(log, Account(closed, Acquired(at, order[..i], at))) + [Item(Listed, Some(order[i]))]
  {
    hide ClosedItems, ListedItems;
    assert order[..i + 1] == order[..i] + [order[i]];
    ListedNext(order[..i], order[i]);
    assert log[at..at] == [];
  }

  lemma TellingPeriod(c: Cluster, closed: seq<Period>, at: nat, order: seq<Object>, i: nat)
    requires at <= |c.log| && Enumerates(order, c.Snapshot(at)) && i <= |order|
    requires forall j :: 0 <= j < |closed| ==> ClosedOk(c, closed[j])
    ensures AccountOk(c, Account(closed, Acquired(at, order[..i], at)))
  {
    hide ClosedOk;
    assert c.log[at..at] == [];
  }

  lemma {:induction false} AnnounceKeeps(w: World, telling: Telling, i: nat, closed: seq<Period>) returns (b: Account)
    requires i <= |telling.order| && Acquainted(w.stream) && !w.phase.Stopped? && !w.phase.Starting?
    requires PhaseOk(w.cluster, w.stream, w.phase)
    requires Grounded(w.cluster, w.stream) && Budgeted(w) && At(w.cluster, w.stream) <= |w.cluster.log|
    requires TellingAllowed(w.cluster.Snapshot(At(w.cluster, w.stream)), telling)
    requires Told(w.cluster, w.records,
                  Account(closed, Acquired(At(w.cluster, w.stream), telling.order[..i], At(w.cluster, w.stream))))
    requires Poised(w.records, w.stream)
    ensures !b.open.Resumed? && b.closed == closed
    ensures Inv(Announce(w, telling, i), b)
    ensures !Announce(w, telling, i).phase.Stopped? ==> Announce(w, telling, i).phase == w.phase
    decreases |telling.order| - i
  {
    var at := At(w.cluster, w.stream);
    b := Account(closed, Acquired(at, telling.order[..i], at));
    if i < |telling.order| {
      var more := Account(closed, Acquired(at, telling.order[..i + 1], at));
      var fate := if i < telling.taken then Taken else telling.otherwise;
      TellingPeriod(w.cluster, closed, at, telling.order, i);
      TellingPeriod(w.cluster, closed, at, telling.order, i + 1);
      TellingItems(w.cluster.log, closed, at, telling.order, i);
      ObservationDelivered(w, Listed, Some(telling.order[i]), fate, b, more);
      var told := Deliver(w, Listed, Some(telling.order[i]), fate);
      if told.phase.Stopped? {
        if fate == Taken { b := more; }
      } else {
        b := AnnounceKeeps(told, telling, i + 1, closed);
      }
    } else {
      assert telling.order[..i] == telling.order;
    }
  }

  lemma ListingPoised(records: seq<Record>, s: Stream, objects: seq<Object>, version: Version)
    requires WatchStreams.Valid(s) && Poised(records, s) && (Acquainted(s) ==> records == [])
    ensures Poised(records, AfterListing(s, objects, version))
  {
    ListingKeepsValid(s, objects, version);
    assert s.gaps != [] ==> AfterListing(s, objects, version).gaps != [];
  }

  lemma AcquireKeeps(w: World, answer: Answer, telling: Telling, closed: seq<Period>) returns (b: Account)
    requires Grounded(w.cluster, w.stream) && Told(w.cluster, w.records, Account(closed, Unacquired))
    requires Budgeted(w) && !w.phase.Stopped? && Poised(w.records, w.stream)
    requires Acquainted(w.stream) ==> w.records == []
    requires AnswerAllowed(w.cluster, answer, telling)
    ensures !b.open.Resumed? && b.closed == closed
    ensures Inv(Acquire(w, answer, telling), b)
    ensures Acquire(w, answer, telling).phase.Stopped? || Acquire(w, answer, telling).phase.Between?
  {
    b := Account(closed, Unacquired);
    if Usable(answer) {
      var version := answer.version.value;
      var at := w.cluster.names[version];
      TruthfulListing(w.cluster, w.stream, answer.objects, version);
      ListingPoised(w.records, w.stream, answer.objects, version);
      var listed := w.(stream := AfterListing(w.stream, answer.objects, version), phase := Between);
      StartTelling(w.cluster, w.records, closed, at, telling.order);
      b := AnnounceKeeps(listed, telling, 0, closed);
    }
  }

  lemma StartTelling(c: Cluster, records: seq<Record>, closed: seq<Period>, at: nat, order: seq<Object>)
    requires at <= |c.log| && Enumerates(order, c.Snapshot(at)) && Told(c, records, Account(closed, Unacquired))
    ensures Told(c, records, Account(closed, Acquired(at, order[..0], at)))
  {
    TellingPeriod(c, closed, at, order, 0);
    assert c.log[at..at] == [];
    assert order[..0] == [];
  }

  // ---- keeping it: one event -----------------------------------------------------------------------------

  lemma ChangeTold(c: Cluster, closed: seq<Period>, open: Period)
    requires AccountOk(c, Account(closed, open)) && !open.Unacquired? && Whole(c, open) && open.end < |c.log|
    ensures AccountOk(c, Account(closed, open.(end := open.end + 1)))
    ensures Whole(c, open.(end := open.end + 1))
    ensures Transcript(c.log, Account(closed, open.(end := open.end + 1)))
            == Transcript(c.log, Account(closed, open)) + [Item(WordOf(c.log[open.end]), Some(c.log[open.end].item))]
  {
    hide Enumerates, ClosedItems, ListedItems, ChangeItems, Fold;
    ChangeNext(c.log, open.start, open.end);
  }

  /** A change of the history, heard on an acquired stream. */
  lemma ChangeDelivered(w: World, at: nat, next: Stream, fate: Fate, a: Account) returns (b: Account)
    requires Inv(w, a) && w.phase == Reading(Following(at)) && at < |w.cluster.log|
    requires next == AfterEvent(w.stream, Mutation(w.cluster.log[at]))
    ensures var told := Deliver(w.(stream := next, phase := Reading(Following(at + 1))),
                                WordOf(w.cluster.log[at]), Some(w.cluster.log[at].item), fate);
            Inv(told, b) && (told.phase.Reading? || told.phase.Stopped?)
    ensures Resumes(b, a)
  {
    hide Resumes;
    FollowingFacts(w, a);
    TruthfulChange(w.cluster, w.stream);
    b := ChangeRecorded(w.(stream := next, phase := Reading(Following(at + 1))), w.stream, at, fate, a);
  }

  lemma HeardChange(w: World, frame: Frame, change: Change)
    requires w.phase.Reading? && w.phase.body.Following? && frame.event == Mutation(change)
    requires w.stream.state == Live && w.stream.staging.None?
    ensures Heard(Sent(w, frame.event), frame)
            == Deliver(w.(phase := Reading(Following(w.phase.body.cursor + 1)),
                            stream := AfterEvent(w.stream, frame.event)),
                       WordOf(change), Some(change.item), frame.fate)
  {
  }

  lemma FollowingFacts(w: World, a: Account)
    requires Ready(w, a) && w.phase.Reading? && w.phase.body.Following?
    ensures w.stream.state == Live && w.stream.staging.None? && w.phase.body.cursor == At(w.cluster, w.stream)
    ensures !a.open.Unacquired? && a.open.end == At(w.cluster, w.stream) && Whole(w.cluster, a.open)
    ensures Poised(w.records, w.stream)
  {
  }

  lemma ChangeRecorded(w: World, before: Stream, at: nat, fate: Fate, a: Account) returns (b: Account)
    requires Grounded(w.cluster, w.stream) && Told(w.cluster, w.records, a) && Budgeted(w)
    requires w.phase == Reading(Following(at + 1)) && at < |w.cluster.log| && Poised(w.records, before)
    requires w.stream.state == Live && w.stream.staging.None? && At(w.cluster, w.stream) == at + 1
    requires Acquainted(before) && |w.stream.segments| == |before.segments|
    requires (before.gaps != [] ==> w.stream.gaps != [])
    requires !a.open.Unacquired? && a.open.end == at && Whole(w.cluster, a.open)
    ensures var told := Deliver(w, WordOf(w.cluster.log[at]), Some(w.cluster.log[at].item), fate);
            Inv(told, b) && (told.phase.Reading? || told.phase.Stopped?)
    ensures Resumes(b, a)
  {
    hide Grounded, Ordered, Said, Transcript, Resumes;
    ResumesBy(a, a);
    var change := w.cluster.log[at];
    var more := Account(a.closed, a.open.(end := at + 1));
    ChangeTold(w.cluster, a.closed, a.open);
    assert Poised(w.records, w.stream);
    ObservationDelivered(w, WordOf(change), Some(change.item), fate, a, more);
    ResumesBy(more, a);
    b := if fate == Taken then more else a;
  }

  /** A bookmark on an acquired stream, the late end of a list included: a position, and no change. */
  lemma BookmarkHeard(w: World, frame: Frame, a: Account)
    requires Inv(w, a) && w.phase.Reading? && w.phase.body.Following?
    requires frame.event.Bookmark? || frame.event.InitialEventsEnd?
    requires Sends(w.cluster, w.phase.body, frame.event)
    ensures Inv(Heard(Sent(w, frame.event), frame), a) && Heard(Sent(w, frame.event), frame).phase.Reading?
  {
    hide Told;
    TruthfulBookmark(w.cluster, w.stream, frame.event.version);
  }

  /** One more object of the initial state of a streaming list. */
  lemma StagedHeard(w: World, frame: Frame, a: Account)
    requires Inv(w, a) && w.phase.Reading? && w.phase.body.Initial? && frame.event.Mutation?
    requires Sends(w.cluster, w.phase.body, frame.event)
    ensures Inv(Heard(Sent(w, frame.event), frame), a) && Heard(Sent(w, frame.event), frame).phase.Reading?
  {
    hide Told;
    var staged, left := w.stream.staging.value, w.phase.body.left;
    assert staged + left == staged + [left[0]] + left[1..];
    EventKeepsValid(w.stream, frame.event);
  }

  lemma EarlyBookmarkHeard(w: World, frame: Frame, a: Account)
    requires Inv(w, a) && w.phase.Reading? && w.phase.body.Initial? && frame.event.Bookmark?
    requires Sends(w.cluster, w.phase.body, frame.event)
    ensures Inv(Heard(Sent(w, frame.event), frame), a) && Heard(Sent(w, frame.event), frame).phase.Reading?
  {
    hide Told;
    TruthfulBookmark(w.cluster, w.stream, frame.event.version);
  }

  /** The end of the initial state: what was staged is the collection at the bookmark's position. */
  lemma StagedIsSnapshot(c: Cluster, s: Stream, at: nat)
    requires at <= |c.log| && s.staging.Some? && Enumerates(s.staging.value + [], c.Snapshot(at))
    ensures Collect(s.staging.value) == c.Snapshot(at)
  {
    assert s.staging.value + [] == s.staging.value;
    FoldKeyed(map[], c.log[..at]);
    CollectEnumeration(s.staging.value, c.Snapshot(at));
  }

  lemma SynchronisedHeard(w: World, frame: Frame, a: Account) returns (b: Account)
    requires Inv(w, a) && w.phase.Reading? && w.phase.body.Initial? && frame.event.InitialEventsEnd?
    requires Sends(w.cluster, w.phase.body, frame.event)
    requires TellingAllowed(AfterEvent(w.stream, frame.event).objects, frame.telling)
    ensures Inv(Heard(Sent(w, frame.event), frame), b)
    ensures var after := Heard(Sent(w, frame.event), frame); after.phase.Reading? || after.phase.Stopped?
    ensures Resumes(b, a)
  {
    hide Told, Poised, Transcript, Ordered, Announce, Resumes;
    var staged, at := w.stream.staging.value, w.phase.body.at;
    StagedIsSnapshot(w.cluster, w.stream, at);
    TruthfulListing(w.cluster, w.stream, staged, frame.event.version);
    ListingPoised(w.records, w.stream, staged, frame.event.version);
    StartTelling(w.cluster, w.records, a.closed, at, frame.telling.order);
    var listed := w.(stream := AfterListing(w.stream, staged, frame.event.version),
                     phase := Reading(Following(at)), declined := false);
    b := AnnounceKeeps(listed, frame.telling, 0, a.closed);
    ResumesBy(b, a);
    assert Heard(Sent(w, frame.event), frame) == Announce(listed, frame.telling, 0);
  }

  lemma FrameHeard(w: World, frame: Frame, a: Account) returns (b: Account)
    requires Inv(w, a) && w.phase.Reading? && Sends(w.cluster, w.phase.body, frame.event)
    requires ReceptionOf(w.stream, frame.event) == Synchronised ==>
               TellingAllowed(AfterEvent(w.stream, frame.event).objects, frame.telling)
    ensures Inv(Heard(Sent(w, frame.event), frame), b)
    ensures var after := Heard(Sent(w, frame.event), frame);
            after.phase.Reading? || after.phase.Settling? || after.phase.Stopped?
    ensures Resumes(b, a)
  {
    hide Grounded, Told, Budgeted, Poised, Resumes;
    ResumesBy(a, a);
    b := a;
    if frame.event.Error? {
      assert Sent(w, frame.event) == w;
      if frame.event.failure == Interrupted {
        CutHeard(w, frame, a);
      } else {
        LinkedWhole(w.cluster, w.stream, a);
        b := BreakHeard(w, frame, a);
      }
    } else if w.phase.body.Initial? {
      match frame.event
      case Mutation(_) => StagedHeard(w, frame, a);
      case Bookmark(_) => EarlyBookmarkHeard(w, frame, a);
      case InitialEventsEnd(_) => b := SynchronisedHeard(w, frame, a);
    } else if frame.event.Mutation? {
      var at := w.phase.body.cursor;
      HeardChange(w, frame, w.cluster.log[at]);
      b := ChangeDelivered(w, at, AfterEvent(w.stream, frame.event), frame.fate, a);
    } else {
      BookmarkHeard(w, frame, a);
    }
  }

  lemma {:induction false} FeedKeeps(w: World, frames: seq<Frame>, a: Account) returns (b: Account)
    requires Inv(w, a) && (w.phase.Reading? || w.phase.Settling? || w.phase.Stopped?) && FramesAllowed(w, frames)
    ensures Inv(Feed(w, frames), b)
    ensures var after := Feed(w, frames); after.phase.Reading? || after.phase.Settling? || after.phase.Stopped?
    ensures Resumes(b, a)
    decreases |frames|
  {
    hide Resumes;
    ResumesBy(a, a);
    b := a;
    if frames != [] && w.phase.Reading? {
      var after := FrameHeard(w, frames[0], a);
      b := FeedKeeps(Heard(Sent(w, frames[0].event), frames[0]), frames[1..], after);
      ResumesJoin(b, after, a);
    }
  }

  // ---- keeping it: every step ------------------------------------------------------------------------------

  lemma SettledKeeps(w: World, a: Account)
    requires Inv(w, a) && (w.phase.Reading? || w.phase.Settling? || w.phase.Stopped?)
    ensures Inv(Settled(w), a)
  {
  }

  lemma NothingTold(c: Cluster)
    ensures Told(c, [], Account([], Unacquired))
  {
  }

  lemma StreamingBegins(w: World, a: Account)
    requires Inv(w, a) && w.phase.Starting? && !w.declined && BeginError(w.stream).None?
    ensures Inv(w.(stream := AfterBegin(w.stream), phase := Between), a)
  {
    hide Grounded, AfterBegin, Told, Resumes;
    BeginGrounded(w.cluster, w.stream);
  }

  lemma BeginKeeps(w: World, answer: Answer, telling: Telling, a: Account) returns (b: Account)
    requires Inv(w, a) && Allowed(w, Begin(answer, telling))
    ensures Inv(Next(w, Begin(answer, telling)), b)
    ensures Resumes(b, a) && (w.declined ==> !b.open.Resumed?)
  {
    hide Grounded, AfterBegin, Told, Resumes, Linked, Acquire;
    ResumesBy(a, a);
    NothingTold(w.cluster);
    b := a;
    if w.declined {
      b := AcquireKeeps(w, answer, telling, []);
      ResumesBy(b, a);
    } else if BeginError(w.stream).None? {
      StreamingBegins(w, a);
    }
  }

  lemma BeginGrounded(c: Cluster, s: Stream)
    requires Grounded(c, s) && s.staging.None? && s.state in {Syncing, Live}
    ensures Grounded(c, AfterBegin(s)) && PhaseOk(c, AfterBegin(s), Between)
    ensures AfterBegin(s) == s.(staging := if s.state == Syncing then Some([]) else None)
  {
    ControlKeepsValid(s, Key(None, ""));
  }

  lemma StagingDropped(c: Cluster, s: Stream, records: seq<Record>)
    requires Grounded(c, s)
    ensures Grounded(c, s.(staging := None))
    ensures Poised(records, s) ==> Poised(records, s.(staging := None))
  {
    ControlKeepsValid(s, Key(None, ""));
  }

  lemma AbandonKeeps(w: World, answer: Answer, telling: Telling, a: Account) returns (b: Account)
    requires Inv(w, a) && w.phase.Settling? && w.stream.staging.Some? && AnswerAllowed(w.cluster, answer, telling)
    ensures Inv(Acquire(w.(stream := w.stream.(staging := None), declined := true), answer, telling), b)
    ensures Resumes(b, a)
  {
    hide Resumes, Grounded, Told, Poised;
    StagingDropped(w.cluster, w.stream, w.records);
    b := AcquireKeeps(w.(stream := w.stream.(staging := None), declined := true), answer, telling, []);
    ResumesBy(b, a);
  }

  lemma RelistKeeps(w: World, answer: Answer, telling: Telling, notice: Option<Fate>, a: Account) returns (b: Account)
    requires Inv(w, a) && w.phase.Settling? && w.stream.state == GapDetected
    requires AnswerAllowed(w.cluster, answer, telling)
    ensures Inv(Noticed(Acquire(w, answer, telling), notice), b)
    ensures Resumes(b, a)
  {
    hide Resumes;
    b := AcquireKeeps(w, answer, telling, a.closed);
    ResumesBy(b, a);
    NoticedKeeps(Acquire(w, answer, telling), notice, b);
  }

  lemma NoticedKeeps(w: World, notice: Option<Fate>, a: Account)
    requires Inv(w, a) && !w.phase.Starting?
    ensures Inv(Noticed(w, notice), a)
  {
    if notice.Some? && !w.phase.Stopped? { NoticeDelivered(w, notice.value, a); }
  }

  lemma Reopened(c: Cluster, s: Stream, records: seq<Record>)
    requires Grounded(c, s) && Acquainted(s)
    ensures AfterReconnect(s) == s.(state := Live) && Grounded(c, AfterReconnect(s))
    ensures Poised(records, s) ==> Poised(records, AfterReconnect(s))
  {
    ControlKeepsValid(s, Key(None, ""));
  }

  lemma ReopenKeeps(w: World, notice: Option<Fate>, a: Account)
    requires Inv(w, a) && w.phase.Settling? && Acquainted(w.stream)
    ensures Inv(Noticed(w.(stream := AfterReconnect(w.stream), phase := Between), notice), a)
  {
    hide Told, Grounded, Poised;
    Reopened(w.cluster, w.stream, w.records);
    NoticedKeeps(w.(stream := AfterReconnect(w.stream), phase := Between), notice, a);
  }

  lemma ResolveKeeps(w: World, answer: Answer, telling: Telling, notice: Option<Fate>, a: Account) returns (b: Account)
    requires Inv(w, a) && w.phase.Settling? && AnswerAllowed(w.cluster, answer, telling)
    ensures Inv(Resolve(w, answer, telling, notice), b)
    ensures Resumes(b, a)
  {
    hide Grounded, Told, Resumes;
    ResumesBy(a, a);
    b := a;
    if w.stream.staging.Some? {
      b := AbandonKeeps(w, answer, telling, a);
    } else if w.stream.state == GapDetected {
      if w.reacquire { b := RelistKeeps(w, answer, telling, notice, a); }
    } else if Acquainted(w.stream) {
      ReopenKeeps(w, notice, a);
      assert w.stream.state == Live ==> AfterReconnect(w.stream) == w.stream;
    }
  }

  lemma LiveHasCheckpoint(c: Cluster, s: Stream)
    requires Grounded(c, s)
    ensures Acquainted(s) ==> s.checkpoint.Some? && s.checkpoint.value in c.names
    ensures s.state == Syncing ==> s.checkpoint.None?
  {
  }

  lemma OpenKeeps(w: World, status: nat, body: Body, fate: Fate, a: Account) returns (b: Account)
    requires Inv(w, a) && Allowed(w, Open(status, body, fate))
    ensures Inv(Opened(w, status, body, fate), b)
    ensures Resumes(b, a)
  {
    hide Grounded, Told, Poised, Resumes, Heard;
    ResumesBy(a, a);
    b := a;
    LinkedWhole(w.cluster, w.stream, a);
    if status == 200 {
      LiveHasCheckpoint(w.cluster, w.stream);
      if body.Initial? { assert [] + body.left == body.left; }
    } else if w.stream.staging.Some? && (status == 400 || status == 403) {
    } else if status == 410 {
      b := BreakHeard(w, Frame(Error(Expired), fate, Telling([], 0, Fault)), a);
    } else if status == 403 {
      b := BreakHeard(w, Frame(Error(Refused), fate, Telling([], 0, Fault)), a);
    }
  }

  lemma StepKeeps(w: World, input: Input, a: Account) returns (b: Account)
    requires Inv(w, a) && Allowed(w, input)
    ensures Inv(Next(w, input), b)
    ensures Resumes(b, a) && (input.Begin? && w.declined ==> !b.open.Resumed?)
  {
    hide Grounded, Told, Poised, Resumes;
    ResumesBy(a, a);
    b := a;
    match input
    case Grow(later) => GrowKeeps(w, later, a);
    case Stop =>
    case Begin(answer, telling) => b := BeginKeeps(w, answer, telling, a);
    case Open(status, body, fate) => b := OpenKeeps(w, status, body, fate, a);
    case OpenFails(outcome) =>
    case Chunk(frames, readable) =>
      if readable { b := FeedKeeps(w, frames, a); } else { CutHeard(w, CUT, a); }
    case Quiet(notice) => if notice.Some? { NoticeDelivered(w, notice.value, a); }
    case End(rest, readable) =>
      if readable { b := FeedKeeps(w, rest, a); SettledKeeps(Feed(w, rest), b); } else { CutHeard(w, CUT, a); }
    case Settle(answer, telling, notice) => b := ResolveKeeps(w, answer, telling, notice, a);
  }

  /** The account a run starts with: nothing, or the stream that was live, from where it stands. */
  function FirstAccount(w: World): Account {
    var at := if w.stream.checkpoint.Some? && w.stream.checkpoint.value in w.cluster.names
              then w.cluster.names[w.stream.checkpoint.value] else 0;
    Account([], if w.stream.state == Live then Resumed(at, at) else Unacquired)
  }

  lemma StartTells(w: World)
    requires Starts(w)
    ensures Told(w.cluster, w.records, FirstAccount(w)) && Grounded(w.cluster, w.stream)
  {
    if w.stream.state == Live {
      var at := FirstAccount(w).open.start;
      assert w.cluster.log[at..at] == [];
    }
  }

  lemma StartHolds(w: World)
    requires Starts(w)
    ensures Inv(w, FirstAccount(w)) && Began(w, w, FirstAccount(w))
  {
    hide Told, Grounded;
    StartTells(w);
  }

  lemma {:induction false} RunSplits(worlds: seq<World>, inputs: seq<Input>)
    requires Run(worlds, inputs) && inputs != []
    ensures var n := |inputs| - 1;
            Run(worlds[..n + 1], inputs[..n]) && Moves(worlds[n], inputs[n], worlds[n + 1])
  {
    var n := |inputs| - 1;
    assert Moves(worlds[n], inputs[n], worlds[n + 1]);
    forall i | 0 <= i < n ensures Moves(worlds[..n + 1][i], inputs[..n][i], worlds[..n + 1][i + 1]) {
      assert Moves(worlds[i], inputs[i], worlds[i + 1]);
    }
  }

  /** A period that was never listed begins where the stream the invocation met stood. */
  ghost predicate Began(w0: World, w: World, a: Account) {
    && w0.cluster.Extends(w.cluster)
    && (w.phase.Starting? ==> w.declined == w0.declined)
    && ListedAfterGaps(a)
    && (Origin(a).Resumed? ==> w0.stream.state == Live && Origin(a).start == At(w0.cluster, w0.stream))
    && (a.open.Resumed? ==> w.phase.Starting? || w.phase.Stopped? || !w0.declined)
  }

  lemma BeganKeeps(w0: World, w: World, input: Input, a: Account, b: Account)
    requires Began(w0, w, a) && w.cluster.Valid() && Allowed(w, input)
    requires Resumes(b, a) && (input.Begin? && w.declined ==> !b.open.Resumed?)
    ensures Began(w0, Next(w, input), b)
  {
    StepFrame(w, input);
    if w.phase.Starting? && b.open.Resumed? {
      assert input.Begin? || input.Grow? || input.Stop?;
    }
    assert forall i :: 0 <= i < |w0.cluster.log| ==> w.cluster.log[..|w0.cluster.log|][i] == w0.cluster.log[i];
    assert Next(w, input).cluster.log[..|w0.cluster.log|]
        == Next(w, input).cluster.log[..|w.cluster.log|][..|w0.cluster.log|];
  }

  /** In every run, over any mix of closes, interruptions, expiries, refusals, fallbacks and notices, the
      invariant holds of some account of the observation. */
  lemma {:induction false} RunKeeps(worlds: seq<World>, inputs: seq<Input>) returns (a: Account)
    requires Run(worlds, inputs)
    ensures Inv(worlds[|inputs|], a) && Began(worlds[0], worlds[|inputs|], a)
    decreases |inputs|
  {
    if inputs == [] {
      a := FirstAccount(worlds[0]);
      StartHolds(worlds[0]);
    } else {
      var n := |inputs| - 1;
      RunSplits(worlds, inputs);
      var b := RunKeeps(worlds[..n + 1], inputs[..n]);
      var w := worlds[..n + 1][n];
      a := StepKeeps(w, inputs[n], b);
      BeganKeeps(worlds[0], w, inputs[n], b, a);
    }
  }

  lemma HeardFrame(w: World, frame: Frame)
    ensures Heard(w, frame).cluster == w.cluster && (!w.phase.Starting? ==> !Heard(w, frame).phase.Starting?)
  {
    hide AfterEvent, Announce, ReceptionOf;
    AnnounceFrame(w.(stream := AfterEvent(w.stream, frame.event), declined := false), frame.telling, 0);
  }

  lemma {:induction false} AnnounceFrame(w: World, telling: Telling, i: nat)
    ensures var after := Announce(w, telling, i);
            after.cluster == w.cluster && (after.phase.Stopped? || after.phase == w.phase)
    decreases |telling.order| - i
  {
    if i < |telling.order| {
      var told := Deliver(w, Listed, Some(telling.order[i]), if i < telling.taken then Taken else telling.otherwise);
      AnnounceFrame(told, telling, i + 1);
    }
  }

  lemma {:induction false} FeedFrame(w: World, frames: seq<Frame>)
    ensures Feed(w, frames).cluster == w.cluster && (!w.phase.Starting? ==> !Feed(w, frames).phase.Starting?)
    decreases |frames|
  {
    if frames != [] && w.phase.Reading? {
      HeardFrame(Sent(w, frames[0].event), frames[0]);
      FeedFrame(Heard(Sent(w, frames[0].event), frames[0]), frames[1..]);
    }
  }

  lemma AcquireFrame(w: World, answer: Answer, telling: Telling)
    ensures Acquire(w, answer, telling).cluster == w.cluster && !(Acquire(w, answer, telling).phase.Starting?)
  {
    if Usable(answer) {
      AnnounceFrame(w.(stream := AfterListing(w.stream, answer.objects, answer.version.value),
                      phase := Between), telling, 0);
    }
  }

  /** Only the cluster changes the cluster, and an invocation starts once. */
  lemma StepFrame(w: World, input: Input)
    requires w.cluster.Valid() && Allowed(w, input)
    ensures w.cluster.Extends(Next(w, input).cluster)
    ensures Next(w, input).phase.Starting? ==> w.phase.Starting? && Next(w, input).declined == w.declined
  {
    match input
    case Begin(answer, telling) => AcquireFrame(w, answer, telling);
    case Open(status, body, fate) => OpenFrame(w, status, body, fate);
    case Chunk(frames, readable) => FeedFrame(w, frames); HeardFrame(w, CUT);
    case End(rest, readable) => FeedFrame(w, rest); HeardFrame(w, CUT);
    case Settle(answer, telling, notice) => ResolveFrame(w, answer, telling, notice);
    case _ =>
  }

  lemma OpenFrame(w: World, status: nat, body: Body, fate: Fate)
    ensures Opened(w, status, body, fate).cluster == w.cluster
    ensures !w.phase.Starting? ==> !Opened(w, status, body, fate).phase.Starting?
  {
    HeardFrame(w, Frame(Error(Expired), fate, Telling([], 0, Fault)));
    HeardFrame(w, Frame(Error(Refused), fate, Telling([], 0, Fault)));
  }

  lemma ResolveFrame(w: World, answer: Answer, telling: Telling, notice: Option<Fate>)
    ensures Resolve(w, answer, telling, notice).cluster == w.cluster
    ensures !Resolve(w, answer, telling, notice).phase.Starting?
  {
    hide AfterListing, AfterReconnect;
    AcquireFrame(w, answer, telling);
    AcquireFrame(w.(stream := w.stream.(staging := None), declined := true), answer, telling);
  }
}
