/** The state of one watched collection (watch.rs), and what its operations make of it.

    `Stream` is the value of the whole state and the functions on it say what each operation makes of
    it; `WatchStream` is the object the provider updates in place, one method per operation. */
module WatchStreams {
  import opened Kube

  datatype SyncState = Syncing | Live | Reconnecting | GapDetected | Denied

  datatype Reception =
    | Applied | Checkpointed | Staged | Synchronised | Suspended | ContinuityBroken | Discarded

  datatype ResumeError = NotAcquired | CheckpointExpired | AccessDenied

  datatype GapReason = WatchExpired | WatchDenied | RestartedWithoutCheckpoint | ChangeLogTrimmed

  datatype WatchGap = WatchGap(reason: GapReason, after: Option<Version>, resumedAt: Option<Version>)

  /** A change as the log of a period keeps it: what happened, to which lifetime, at which version. */
  datatype Observed = Observed(what: ChangeClass, key: Key, uid: string, version: Option<Version>)

  /** A stretch of the history that was watched without a break. */
  datatype Segment = Segment(
    startedAt: Version, closedAt: Option<Version>, changes: seq<Observed>, trimmed: nat)

  datatype Stream = Stream(
    state: SyncState,
    checkpoint: Option<Version>,
    objects: Table,
    segments: seq<Segment>,
    gaps: seq<WatchGap>,
    trimGap: Option<nat>,
    discarded: nat,
    pendingWrites: set<Key>,
    staging: Option<seq<Object>>)

  const CHANGE_LOG_CAPACITY: nat := 1024
  const TRIM_BLOCK: nat := CHANGE_LOG_CAPACITY / 4

  const NEW_STREAM := Stream(Syncing, None, map[], [], [], None, 0, {}, None)

  /** What the log of a period remembers of a change. */
  function Remember(change: Change): Observed {
    Observed(change.what, change.item.key, change.item.uid, change.item.version)
  }

  /** No break has been recorded, and no second period begun. */
  predicate GapFree(s: Stream) {
    s.gaps == [] && |s.segments| < 2
  }

  // ---- what each operation makes of the state ---------------------------------------------------

  function CloseSegment(s: Stream): Stream {
    if s.segments != [] && s.segments[|s.segments| - 1].closedAt.None? then
      var last := |s.segments| - 1;
      s.(segments := s.segments[last := s.segments[last].(closedAt := s.checkpoint)])
    else s
  }

  /** An open gap is closed by the listing; re-listing a stream that never failed is a gap itself. */
  function GapsOnListing(s: Stream, version: Version): seq<WatchGap> {
    if s.gaps != [] && s.gaps[|s.gaps| - 1].resumedAt.None? then
      var last := |s.gaps| - 1;
      s.gaps[last := s.gaps[last].(resumedAt := Some(version))]
    else if s.segments != [] then
      s.gaps + [WatchGap(RestartedWithoutCheckpoint, s.checkpoint, Some(version))]
    else s.gaps
  }

  function AfterListing(s: Stream, objects: seq<Object>, version: Version): Stream {
    var closed := CloseSegment(s.(staging := None, pendingWrites := {}));
    closed.(gaps := GapsOnListing(closed, version), objects := Collect(objects), checkpoint := Some(version),
            segments := closed.segments + [Segment(version, None, [], 0)], trimGap := None, state := Live)
  }

  /** One more change in a period's log; a full log first forgets its oldest block. */
  function Pushed(segment: Segment, change: Observed): Segment {
    if |segment.changes| >= CHANGE_LOG_CAPACITY then
      segment.(changes := segment.changes[TRIM_BLOCK..] + [change], trimmed := segment.trimmed + TRIM_BLOCK)
    else segment.(changes := segment.changes + [change])
  }

  /** Where the retained record of a trimmed period begins. */
  function RetainedFrom(segment: Segment): Version {
    if segment.trimmed > 0 && segment.changes != [] && segment.changes[0].version.Some?
    then segment.changes[0].version.value else segment.startedAt
  }

  function RecordTrim(s: Stream): Stream {
    if s.segments == [] then s else
    var segment := s.segments[|s.segments| - 1];
    var resumed := Some(RetainedFrom(segment));
    if s.trimGap.Some? && s.trimGap.value < |s.gaps| then
      s.(gaps := s.gaps[s.trimGap.value := s.gaps[s.trimGap.value].(resumedAt := resumed)])
    else s.(trimGap := Some(|s.gaps|),
            gaps := s.gaps + [WatchGap(ChangeLogTrimmed, Some(segment.startedAt), resumed)])
  }

  function Discard(s: Stream): Stream {
    s.(discarded := s.discarded + 1)
  }

  /** The cache, the checkpoint and the quarantine after a change; the period's log is `Logged`. */
  function Cached(s: Stream, change: Change): Stream {
    s.(checkpoint := if change.item.version.Some? then change.item.version else s.checkpoint,
       pendingWrites := s.pendingWrites - {change.item.key},
       objects := Apply(s.objects, change))
  }

  function Logged(s: Stream, change: Change): Stream {
    if s.segments == [] then s else
    var last := |s.segments| - 1;
    var pushed := s.(segments := s.segments[last := Pushed(s.segments[last], Remember(change))]);
    if |s.segments[last].changes| >= CHANGE_LOG_CAPACITY then RecordTrim(pushed) else pushed
  }

  function AfterChange(s: Stream, change: Change): Stream {
    if s.state != Live then Discard(s) else Logged(Cached(s, change), change)
  }

  function AfterCheckpoint(s: Stream, version: Version): Stream {
    if s.state != Live then Discard(s) else s.(checkpoint := Some(version))
  }

  function AfterBreak(s: Stream, reason: GapReason, state: SyncState): Stream {
    if s.state == GapDetected || s.state == Denied then s.(staging := None) else
    var closed := CloseSegment(s.(staging := None));
    closed.(gaps := closed.gaps + [WatchGap(reason, closed.checkpoint, None)],
            checkpoint := None, trimGap := None, state := state)
  }

  function AfterFailure(s: Stream, failure: Failure): Stream {
    match failure
    case Interrupted => if s.state == Live then s.(state := Reconnecting) else s
    case Expired => AfterBreak(s, WatchExpired, GapDetected)
    case Refused => AfterBreak(s, WatchDenied, Denied)
  }

  function AfterEvent(s: Stream, event: Event): Stream {
    match event
    case Error(failure) => AfterFailure(s, failure)
    case Bookmark(version) => AfterCheckpoint(s, version)
    case InitialEventsEnd(version) =>
      if s.staging.Some? then AfterListing(s, s.staging.value, version) else AfterCheckpoint(s, version)
    case Mutation(change) =>
      if change.what == Added && s.staging.Some? then s.(staging := Some(s.staging.value + [change.item]))
      else AfterChange(s, change)
  }

  function ReceptionOf(s: Stream, event: Event): Reception {
    match event
    case Error(Interrupted) => Suspended
    case Error(_) => ContinuityBroken
    case Bookmark(_) => if s.state == Live then Checkpointed else Discarded
    case InitialEventsEnd(_) =>
      if s.staging.Some? then Synchronised else if s.state == Live then Checkpointed else Discarded
    case Mutation(change) =>
      if change.what == Added && s.staging.Some? then Staged
      else if s.state == Live then Applied else Discarded
  }

  function AfterBegin(s: Stream): Stream {
    if s.state == Syncing || s.state == GapDetected then s.(staging := Some([])) else s
  }

  function BeginError(s: Stream): Option<ResumeError> {
    if s.state == Denied then Some(AccessDenied) else None
  }

  function AfterReconnect(s: Stream): Stream {
    if s.state in {Live, Reconnecting} && s.checkpoint.Some? then s.(state := Live) else s
  }

  function ReconnectError(s: Stream): Option<ResumeError> {
    match s.state
    case Syncing => Some(NotAcquired)
    case GapDetected => Some(CheckpointExpired)
    case Denied => Some(AccessDenied)
    case _ => if s.checkpoint.None? then Some(NotAcquired) else None
  }

  function AfterWrite(s: Stream, key: Key): Stream {
    if s.state == Live then s.(pendingWrites := s.pendingWrites + {key}) else s
  }

  /** What a lookup is served: nothing for an object whose write has not come back as an event. */
  function Find(s: Stream, key: Key): Option<Object> {
    if key !in s.pendingWrites && key in s.objects then Some(s.objects[key]) else None
  }

  // ---- what every operation keeps ----------------------------------------------------------------

  /** The shape of a stream that only these operations have touched. */
  ghost predicate Valid(s: Stream) {
    && Keyed(s.objects)
    && (s.trimGap.Some? ==> s.trimGap.value < |s.gaps| && s.gaps[s.trimGap.value].reason == ChangeLogTrimmed)
    && (forall i :: 0 <= i < |s.gaps| - 1 ==> s.gaps[i].resumedAt.Some?)
    && (forall i :: 0 <= i < |s.segments| ==> |s.segments[i].changes| <= CHANGE_LOG_CAPACITY)
    && (forall i :: 0 <= i < |s.segments| - 1 ==> s.segments[i].closedAt.Some?)
    && match s.state
       case Syncing => s.segments == [] && s.gaps == [] && s.objects == map[] && s.checkpoint.None?
                       && s.pendingWrites == {}
       case GapDetected => Broken(s)
       case Denied => Broken(s) && s.staging.None?
       case _ => s.staging.None? && s.checkpoint.Some? && s.segments != []
                 && s.segments[|s.segments| - 1].closedAt.None?
                 && (s.gaps != [] ==> s.gaps[|s.gaps| - 1].resumedAt.Some?)
  }

  /** Past a break: no checkpoint to go back to, the break is on record, the last period is closed. */
  ghost predicate Broken(s: Stream) {
    && s.checkpoint.None? && s.trimGap.None?
    && s.gaps != [] && s.gaps[|s.gaps| - 1].resumedAt.None?
    && (s.segments != [] ==> s.segments[|s.segments| - 1].closedAt.Some?)
  }

  lemma ListingKeepsValid(s: Stream, objects: seq<Object>, version: Version)
    requires Valid(s)
    ensures Valid(AfterListing(s, objects, version))
    ensures |AfterListing(s, objects, version).segments| == |s.segments| + 1
  {
    CollectKeyed(objects);
  }

  lemma LogKeepsValid(s: Stream, change: Change)
    requires Valid(s) && s.state == Live
    ensures Valid(Logged(s, change))
  {
    var last := |s.segments| - 1;
    var pushed := s.(segments := s.segments[last := Pushed(s.segments[last], Remember(change))]);
    assert |Pushed(s.segments[last], Remember(change)).changes| <= CHANGE_LOG_CAPACITY;
    assert Valid(pushed);
  }

  lemma CacheKeepsValid(s: Stream, change: Change)
    requires Valid(s) && s.state == Live
    ensures Valid(Cached(s, change))
  {
  }

  lemma FailureKeepsValid(s: Stream, failure: Failure)
    requires Valid(s)
    ensures Valid(AfterFailure(s, failure))
  {
    var closed := CloseSegment(s.(staging := None));
    assert closed.checkpoint == s.checkpoint && closed.gaps == s.gaps;
    assert closed.segments != [] && s.checkpoint.Some? ==> closed.segments[|closed.segments| - 1].closedAt.Some?;
  }

  lemma EventKeepsValid(s: Stream, event: Event)
    requires Valid(s)
    ensures Valid(AfterEvent(s, event))
  {
    match event
    case Error(failure) => FailureKeepsValid(s, failure);
    case Bookmark(version) =>
    case InitialEventsEnd(version) =>
      if s.staging.Some? { ListingKeepsValid(s, s.staging.value, version); }
    case Mutation(change) =>
      if s.state == Live {
        CacheKeepsValid(s, change);
        LogKeepsValid(Cached(s, change), change);
      }
  }

  lemma ControlKeepsValid(s: Stream, key: Key)
    requires Valid(s)
    ensures Valid(AfterBegin(s)) && Valid(s.(staging := None)) && Valid(AfterReconnect(s)) && Valid(AfterWrite(s, key))
  {
  }

  /** Every stream reached from a new one by any mix of listings, events, streaming lists, reconnects
      and writes is valid. */
  datatype Operation =
    | Listing(objects: seq<Object>, version: Version) | Observing(event: Event)
    | Beginning | Abandoning | Reconnect | Writing(key: Key)

  function Perform(s: Stream, op: Operation): Stream {
    match op
    case Listing(objects, version) => AfterListing(s, objects, version)
    case Observing(event) => AfterEvent(s, event)
    case Beginning => AfterBegin(s)
    case Abandoning => s.(staging := None)
    case Reconnect => AfterReconnect(s)
    case Writing(key) => AfterWrite(s, key)
  }

  function PerformAll(ops: seq<Operation>): Stream
    decreases |ops|
  {
    if ops == [] then NEW_STREAM else Perform(PerformAll(ops[..|ops| - 1]), ops[|ops| - 1])
  }

  lemma {:induction false} AlwaysValid(ops: seq<Operation>)
    ensures Valid(PerformAll(ops))
    decreases |ops|
  {
    if ops != [] {
      var s := PerformAll(ops[..|ops| - 1]);
      AlwaysValid(ops[..|ops| - 1]);
      match ops[|ops| - 1]
      case Listing(objects, version) => ListingKeepsValid(s, objects, version);
      case Observing(event) => EventKeepsValid(s, event);
      case Writing(key) => ControlKeepsValid(s, key);
      case _ => ControlKeepsValid(s, Key(None, ""));
    }
  }

  /** What a reception says of the event and of what it did to the stream: staged, applied, a position and no
      more, a list that came to its end, a break or an interruption; and what a stream that is not live is told
      is counted and goes no further. */
  lemma ReceptionSays(s: Stream, event: Event)
    requires Valid(s)
    ensures var after := AfterEvent(s, event);
      match ReceptionOf(s, event)
      case Staged =>
        && s.staging.Some? && event.Mutation? && event.change.what == Added
        && after == s.(staging := Some(s.staging.value + [event.change.item]))
      case Applied =>
        && s.state == Live && event.Mutation? && after.state == Live && after.discarded == s.discarded
        && after.objects == Apply(s.objects, event.change)
        && after.checkpoint ==
             if event.change.item.version.Some? then event.change.item.version else s.checkpoint
      case Checkpointed =>
        && s.state == Live && (event.Bookmark? || event.InitialEventsEnd?)
        && after == s.(checkpoint := Some(event.version))
      case Synchronised =>
        && s.staging.Some? && event.InitialEventsEnd? && after.state == Live
        && after.objects == Collect(s.staging.value) && after.checkpoint == Some(event.version)
      case Suspended =>
        event == Error(Interrupted) && after == if s.state == Live then s.(state := Reconnecting) else s
      case ContinuityBroken =>
        && event in {Error(Expired), Error(Refused)} && after.checkpoint.None?
        && after.state == (if s.state in {GapDetected, Denied} then s.state
                           else if event == Error(Expired) then GapDetected else Denied)
      case Discarded => s.state != Live && !event.Error? && after == s.(discarded := s.discarded + 1)
  {
  }

  /** Why a stream does not resume, and why a streaming list does not begin. */
  lemma ErrorsSay(s: Stream)
    requires Valid(s)
    ensures match ReconnectError(s)
      case None => s.state in {Live, Reconnecting}
      case Some(NotAcquired) => s.state == Syncing
      case Some(CheckpointExpired) => s.state == GapDetected
      case Some(AccessDenied) => s.state == Denied
    ensures BeginError(s) == if s.state == Denied then Some(AccessDenied) else None
  {
  }

  /** The current period's log has forgotten its beginning exactly when a gap says so: from the start of the
      period to the oldest change that is kept. It forgets 256 changes at a time, and never the last 768. */
  ghost predicate TrimOk(s: Stream) {
    s.state in {Live, Reconnecting} && s.segments != [] ==>
      var segment := s.segments[|s.segments| - 1];
      && (segment.trimmed > 0 <==> s.trimGap.Some?)
      && (s.trimGap.Some? ==>
            && s.trimGap.value < |s.gaps| && segment.trimmed % 256 == 0 && |segment.changes| > 768
            && s.gaps[s.trimGap.value] ==
                 WatchGap(ChangeLogTrimmed, Some(segment.startedAt),
                          Some(if segment.changes[0].version.Some? then segment.changes[0].version.value
                               else segment.startedAt)))
  }

  lemma LogKeepsTrim(s: Stream, change: Change)
    requires Valid(s) && s.state == Live && TrimOk(s)
    ensures TrimOk(Logged(s, change))
  {
    var last := |s.segments| - 1;
    var pushed := s.(segments := s.segments[last := Pushed(s.segments[last], Remember(change))]);
    assert pushed.segments[last].startedAt == s.segments[last].startedAt;
  }

  lemma EventKeepsTrim(s: Stream, event: Event)
    requires Valid(s) && TrimOk(s)
    ensures TrimOk(AfterEvent(s, event))
  {
    match event
    case Error(failure) => FailureKeepsValid(s, failure);
    case Bookmark(version) =>
    case InitialEventsEnd(version) =>
    case Mutation(change) =>
      if s.state == Live {
        CacheKeepsValid(s, change);
        LogKeepsTrim(Cached(s, change), change);
      }
  }

  /** Over any mix of operations, every trim of the log is on record. */
  lemma {:induction false} TrimIsRecorded(ops: seq<Operation>)
    ensures TrimOk(PerformAll(ops))
    decreases |ops|
  {
    hide Valid, TrimOk, Perform;
    if ops == [] {
      assert TrimOk(NEW_STREAM) by { NewIsTrimmed(); }
    } else {
      var s := PerformAll(ops[..|ops| - 1]);
      TrimIsRecorded(ops[..|ops| - 1]);
      AlwaysValid(ops[..|ops| - 1]);
      StepKeepsTrim(s, ops[|ops| - 1]);
    }
  }

  lemma NewIsTrimmed()
    ensures TrimOk(NEW_STREAM)
  {
  }

  lemma StepKeepsTrim(s: Stream, op: Operation)
    requires Valid(s) && TrimOk(s)
    ensures TrimOk(Perform(s, op))
  {
    match op
    case Observing(event) => EventKeepsTrim(s, event);
    case _ =>
  }

  // ---- the object ---------------------------------------------------------------------------------

  class WatchStream {
    var state: SyncState
    var checkpoint: Option<Version>
    var objects: Table
    var segments: seq<Segment>
    var gaps: seq<WatchGap>
    var trimGap: Option<nat>
    var discarded: nat
    var pendingWrites: set<Key>
    var staging: Option<seq<Object>>

    function View(): Stream
      reads this
    {
      Stream(state, checkpoint, objects, segments, gaps, trimGap, discarded, pendingWrites, staging)
    }

    constructor ()
      ensures View() == NEW_STREAM && Valid(View())
    {
      state, checkpoint, objects, segments, gaps := Syncing, None, map[], [], [];
      trimGap, discarded, pendingWrites, staging := None, 0, {}, None;
    }

    static method Collecting(listing: seq<Object>) returns (collected: Table)
      ensures collected == Collect(listing)
    {
      collected := map[];
      for i := 0 to |listing|
        invariant collected == Collect(listing[..i])
      {
        assert listing[..i + 1][..i] == listing[..i];
        collected := collected[listing[i].key := listing[i]];
      }
      assert listing[..|listing|] == listing;
    }

    method CloseOpenSegment()
      modifies this`segments
      ensures View() == CloseSegment(old(View()))
    {
      if segments != [] {
        var last := |segments| - 1;
        if segments[last].closedAt.None? {
          segments := segments[last := segments[last].(closedAt := checkpoint)];
        }
      }
    }

    method Listed(listing: seq<Object>, version: Version)
      requires Valid(View())
      modifies this
      ensures Valid(View())
      ensures View() == AfterListing(old(View()), listing, version)
    {
      hide Valid;
      ghost var was := View();
      staging := None;
      pendingWrites := {};
      CloseOpenSegment();
      ResumeGaps(version);
      objects := Collecting(listing);
      checkpoint := Some(version);
      segments := segments + [Segment(version, None, [], 0)];
      trimGap := None;
      state := Live;
      assert View() == AfterListing(was, listing, version);
      ListingKeepsValid(was, listing, version);
    }

    method ResumeGaps(version: Version)
      modifies this`gaps
      ensures gaps == GapsOnListing(old(View()), version)
    {
      if gaps != [] && gaps[|gaps| - 1].resumedAt.None? {
        var last := |gaps| - 1;
        gaps := gaps[last := gaps[last].(resumedAt := Some(version))];
      } else if segments != [] {
        gaps := gaps + [WatchGap(RestartedWithoutCheckpoint, checkpoint, Some(version))];
      }
    }

    method Observe(event: Event) returns (reception: Reception)
      requires Valid(View())
      modifies this
      ensures Valid(View())
      ensures View() == AfterEvent(old(View()), event)
      ensures reception == ReceptionOf(old(View()), event)
    {
      EventKeepsValid(View(), event);
      match event {
        case Error(failure) => reception := Fail(failure);
        case Bookmark(version) => reception := MoveCheckpoint(version);
        case InitialEventsEnd(version) =>
          if staging.Some? {
            Listed(staging.value, version);
            reception := Synchronised;
          } else {
            reception := MoveCheckpoint(version);
          }
        case Mutation(change) =>
          if change.what == Added && staging.Some? {
            staging := Some(staging.value + [change.item]);
            reception := Staged;
          } else {
            reception := Record(change);
          }
      }
    }

    method MoveCheckpoint(version: Version) returns (reception: Reception)
      modifies this`checkpoint, this`discarded
      ensures View() == AfterCheckpoint(old(View()), version)
      ensures reception == if old(state) == Live then Checkpointed else Discarded
    {
      if state != Live {
        discarded := discarded + 1;
        return Discarded;
      }
      checkpoint := Some(version);
      return Checkpointed;
    }

    method Record(change: Change) returns (reception: Reception)
      modifies this
      ensures View() == AfterChange(old(View()), change)
      ensures reception == if old(state) == Live then Applied else Discarded
    {
      if state != Live {
        discarded := discarded + 1;
        return Discarded;
      }
      if change.item.version.Some? {
        checkpoint := change.item.version;
      }
      pendingWrites := pendingWrites - {change.item.key};
      match change.what {
        case Deleted => objects := objects - {change.item.key};
        case _ => objects := objects[change.item.key := change.item];
      }
      if segments != [] {
        var last := |segments| - 1;
        var full := |segments[last].changes| >= CHANGE_LOG_CAPACITY;
        segments := segments[last := Pushed(segments[last], Remember(change))];
        if full {
          NoteTrim();
        }
      }
      return Applied;
    }

    method NoteTrim()
      modifies this`trimGap, this`gaps
      ensures View() == RecordTrim(old(View()))
    {
      if segments == [] { return; }
      var segment := segments[|segments| - 1];
      var resumed := Some(RetainedFrom(segment));
      if trimGap.Some? && trimGap.value < |gaps| {
        gaps := gaps[trimGap.value := gaps[trimGap.value].(resumedAt := resumed)];
        return;
      }
      trimGap := Some(|gaps|);
      gaps := gaps + [WatchGap(ChangeLogTrimmed, Some(segment.startedAt), resumed)];
    }

    method Fail(failure: Failure) returns (reception: Reception)
      modifies this
      ensures View() == AfterFailure(old(View()), failure)
      ensures reception == if failure == Interrupted then Suspended else ContinuityBroken
    {
      match failure {
        case Interrupted =>
          if state == Live { state := Reconnecting; }
          return Suspended;
        case Expired => reception := BreakContinuity(WatchExpired, GapDetected);
        case Refused => reception := BreakContinuity(WatchDenied, Denied);
      }
    }

    method BreakContinuity(reason: GapReason, broken: SyncState) returns (reception: Reception)
      modifies this
      ensures View() == AfterBreak(old(View()), reason, broken)
      ensures reception == ContinuityBroken
    {
      staging := None;
      if state == GapDetected || state == Denied {
        return ContinuityBroken;
      }
      CloseOpenSegment();
      gaps := gaps + [WatchGap(reason, checkpoint, None)];
      checkpoint := None;
      trimGap := None;
      state := broken;
      return ContinuityBroken;
    }

    method BeginStreamingList() returns (error: Option<ResumeError>)
      requires Valid(View())
      modifies this`staging
      ensures Valid(View())
      ensures View() == AfterBegin(old(View())) && error == BeginError(old(View()))
    {
      match state {
        case Syncing => staging := Some([]); error := None;
        case GapDetected => staging := Some([]); error := None;
        case Denied => error := Some(AccessDenied);
        case _ => error := None;
      }
    }

    method AbandonStreamingList() returns (abandoned: bool)
      requires Valid(View())
      modifies this`staging
      ensures Valid(View())
      ensures View() == old(View()).(staging := None) && abandoned == old(staging).Some?
    {
      abandoned := staging.Some?;
      staging := None;
    }

    method Reconnected() returns (error: Option<ResumeError>)
      requires Valid(View())
      modifies this`state
      ensures Valid(View())
      ensures View() == AfterReconnect(old(View())) && error == ReconnectError(old(View()))
      ensures error.None? <==> old(state) in {Live, Reconnecting}
    {
      match state {
        case Syncing => error := Some(NotAcquired);
        case GapDetected => error := Some(CheckpointExpired);
        case Denied => error := Some(AccessDenied);
        case _ =>
          if checkpoint.None? { return Some(NotAcquired); }
          state := Live;
          error := None;
      }
    }

    method Written(key: Key) returns (quarantined: bool)
      requires Valid(View())
      modifies this`pendingWrites
      ensures Valid(View())
      ensures View() == AfterWrite(old(View()), key)
      ensures quarantined == (old(state) == Live)
    {
      if state != Live { return false; }
      pendingWrites := pendingWrites + {key};
      return true;
    }

    method Lookup(key: Key) returns (found: Option<Object>)
      ensures found == Find(View(), key)
    {
      if key in pendingWrites { return None; }
      if key in objects { return Some(objects[key]); }
      return None;
    }
  }

  // ---- what the quarantine promises ---------------------------------------------------------------

  /** Whether an operation shows the stream the object under `key` again. */
  predicate Shows(s: Stream, op: Operation, key: Key) {
    match op
    case Listing(_, _) => true
    case Observing(InitialEventsEnd(_)) => s.staging.Some?
    case Observing(Mutation(change)) => change.item.key == key && s.state == Live
    case _ => false
  }

  lemma QuarantineStep(s: Stream, op: Operation, key: Key)
    requires key in s.pendingWrites && !Shows(s, op, key)
    ensures key in Perform(s, op).pendingWrites
  {
    match op
    case Observing(Mutation(change)) =>
      assert AfterChange(s, change).pendingWrites >= s.pendingWrites - {change.item.key} || s.state != Live;
    case _ =>
  }

  /** From a write until the stream is shown the object again, no lookup is served the object the
      write replaced, whatever else happens in between; and the event itself ends the quarantine. */
  lemma {:induction false} QuarantineHolds(s: Stream, key: Key, ops: seq<Operation>)
    requires Valid(s) && s.state == Live
    requires forall i :: 0 <= i < |ops| ==> !Shows(Runs(AfterWrite(s, key), ops[..i]), ops[i], key)
    ensures key in Runs(AfterWrite(s, key), ops).pendingWrites
    ensures Find(Runs(AfterWrite(s, key), ops), key) == None
    decreases |ops|
  {
    if ops != [] {
      var init := ops[..|ops| - 1];
      forall i | 0 <= i < |init| ensures !Shows(Runs(AfterWrite(s, key), init[..i]), init[i], key) {
        assert init[..i] == ops[..i];
      }
      QuarantineHolds(s, key, init);
      assert ops[..|ops| - 1] == init;
      QuarantineStep(Runs(AfterWrite(s, key), init), ops[|ops| - 1], key);
    }
  }

  function Runs(s: Stream, ops: seq<Operation>): Stream
    decreases |ops|
  {
    if ops == [] then s else Perform(Runs(s, ops[..|ops| - 1]), ops[|ops| - 1])
  }

  lemma EventEndsQuarantine(s: Stream, change: Change)
    requires Valid(s) && s.state == Live
    ensures Find(AfterEvent(s, Mutation(change)), change.item.key)
            == if change.what == Deleted then None else Some(change.item)
  {
  }
}
