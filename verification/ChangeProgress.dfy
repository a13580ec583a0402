/** When the `k8s-change` loop goes on, where it goes, and when and how it ends (changes.rs `live`,
    `Live::run`): the other half of what `ChangeStream` keeps. */
module ChangeProgress {
  import opened Kube
  import opened WatchStreams
  import opened ChangeStream

  // ---- causes -----------------------------------------------------------------------------------------------

  function FrameFates(frames: seq<Frame>): set<Fate> {
    set i | 0 <= i < |frames| :: frames[i].fate
  }

  function TellingFates(frames: seq<Frame>): set<Fate> {
    set i | 0 <= i < |frames| :: frames[i].telling.otherwise
  }

  function NoticeFates(notice: Option<Fate>): set<Fate> {
    if notice.Some? then {notice.value} else {}
  }

  /** What may become of the records that a step hands to the host. */
  function Fates(input: Input): set<Fate> {
    match input
    case Begin(_, telling) => {telling.otherwise}
    case Open(_, _, fate) => {fate}
    case Chunk(frames, _) => FrameFates(frames) + TellingFates(frames)
    case Quiet(notice) => NoticeFates(notice)
    case End(rest, _) => FrameFates(rest) + TellingFates(rest)
    case Settle(_, telling, notice) => {telling.otherwise} + NoticeFates(notice)
    case _ => {}
  }

  /** This step handed on the last record of the budget. */
  predicate Reached(v: World, w: World) {
    w.budget.Some? && |v.records| < |w.records| && |w.records| == w.budget.value
  }

  /** A response is over, and there is nothing to go on from: access was denied, nothing was ever begun, or
      continuity is lost and the query does not ask for it to be re-acquired. */
  predicate NothingLeft(v: World, input: Input) {
    && input.Settle? && v.stream.staging.None?
    && (v.stream.state in {Syncing, Denied} || (v.stream.state == GapDetected && !v.reacquire))
  }

  /** The step takes a listing: at the start after streaming lists were declined, for a streaming list that did
      not come to its end, or for continuity that was lost. */
  predicate Lists(v: World, input: Input) {
    || (input.Begin? && v.declined)
    || (input.Settle? && (v.stream.staging.Some? || (v.stream.state == GapDetected && v.reacquire)))
  }

  /** A status that is neither a watch, nor an expiry, nor a refusal, nor a streaming list declined. */
  predicate Unopenable(v: World, status: nat) {
    status != 200 && status != 410 && status != 403 && !(status == 400 && v.stream.staging.Some?)
  }

  predicate Fails(v: World, input: Input) {
    || Fault in Fates(input)
    || input == OpenFails(Failed)
    || (input.Open? && Unopenable(v, input.status))
    || (Lists(v, input) && (input.answer == Unreachable(Failed) || (input.answer.Page? && !Usable(input.answer))))
  }

  predicate Cancels(v: World, input: Input) {
    || Cancel in Fates(input) || input == Stop || input == OpenFails(Cancelled)
    || (Lists(v, input) && input.answer == Unreachable(Cancelled))
  }

  // ---- where a step that does not end the invocation leads --------------------------------------------------

  /** How far the server is with a body that was read to the end of these frames. */
  function Consumed(body: Body, frames: seq<Frame>): Body
    decreases |frames|
  {
    if frames == [] then body else Consumed(Advance(body, frames[0].event), frames[1..])
  }

  predicate Unbroken(frames: seq<Frame>) {
    forall i :: 0 <= i < |frames| ==> !frames[i].event.Error?
  }

  /** The first `k` frames, and then one that breaks off. */
  predicate BreaksAt(frames: seq<Frame>, k: nat) {
    k < |frames| && frames[k].event.Error? && Unbroken(frames[..k])
  }

  /** The stream stands where the body has been read to: acquired at that position of the history, or with that
      much of the initial state staged. */
  ghost predicate StandsAt(w: World, body: Body) {
    PhaseOk(w.cluster, w.stream, Reading(body))
  }

  /** What is left after a failure of a body read as far as `body`: the position for an interruption, a gap
      for an expiry, a denial for a refusal. */
  ghost predicate LeftBy(failure: Failure, w: World, body: Body) {
    match failure
    case Expired => w.stream.state == GapDetected && w.stream.staging.None?
    case Refused => w.stream.state == Denied && w.stream.staging.None?
    case Interrupted =>
      if body.Following? then w.stream.state == Reconnecting && StandsAt(w.(stream := w.stream.(state := Live)), body)
      else StandsAt(w, body)
  }

  /** Frames that were read: all of them, or up to the first that breaks off. */
  ghost predicate ReadFrames(w: World, body: Body, frames: seq<Frame>, readable: bool) {
    if !readable then LeftBy(Interrupted, w, body)
    else if Unbroken(frames) then StandsAt(w, Consumed(body, frames))
    else exists k: nat :: BreaksAt(frames, k) && LeftBy(frames[k].event.failure, w, Consumed(body, frames[..k]))
  }

  /** Live at the version of this listing. */
  predicate LiveAt(s: Stream, answer: Answer) {
    s.state == Live && s.staging.None? && Usable(answer) && s.checkpoint == answer.version
    && s.objects == Collect(answer.objects)
  }

  predicate ToldWhole(telling: Telling) {
    telling.otherwise == Taken || telling.taken >= |telling.order|
  }

  /** The host took every record of these frames. */
  predicate AllTaken(body: Body, frames: seq<Frame>)
    decreases |frames|
  {
    frames == [] ||
    match frames[0].event
    case Error(failure) => failure == Interrupted || frames[0].fate == Taken
    case Mutation(_) =>
      (body.Following? ==> frames[0].fate == Taken) && AllTaken(Advance(body, frames[0].event), frames[1..])
    case InitialEventsEnd(_) =>
      (body.Initial? ==> ToldWhole(frames[0].telling)) && AllTaken(Advance(body, frames[0].event), frames[1..])
    case Bookmark(_) => AllTaken(body, frames[1..])
  }

  /** The host took every record of the step. */
  predicate Delivered(v: World, input: Input) {
    match input
    case Begin(_, telling) => v.declined ==> ToldWhole(telling)
    case Open(status, _, fate) => status == 410 || (status == 403 && v.stream.staging.None?) ==> fate == Taken
    case Chunk(frames, readable) => readable && v.phase.Reading? ==> AllTaken(v.phase.body, frames)
    case Quiet(notice) => notice in {None, Some(Taken)}
    case End(rest, readable) => readable && v.phase.Reading? ==> AllTaken(v.phase.body, rest)
    case Settle(_, telling, notice) =>
      && (Lists(v, input) ==> ToldWhole(telling))
      && (v.stream.staging.None? ==> notice in {None, Some(Taken)})
    case _ => true
  }

  ghost predicate Goes(v: World, input: Input, w: World) {
    match input
    case Grow(later) => w == v.(cluster := later)
    case Stop => false
    case OpenFails(_) => false
    case Begin(answer, _) =>
      && w.phase.Between?
      && (if v.declined then LiveAt(w.stream, answer)
          else w.stream == if v.stream.state == Live then v.stream else v.stream.(staging := Some([])))
    case Open(status, body, _) =>
      if status == 200 then w == v.(phase := Reading(body))
      else if status == 410 then w.phase.Settling? && LeftBy(Expired, w, body)
      else if v.stream.staging.Some? then w == v.(phase := Settling)
      else status == 403 && w.phase.Settling? && LeftBy(Refused, w, body)
    case Chunk(frames, readable) =>
      && v.phase.Reading? && ReadFrames(w, v.phase.body, frames, readable)
      && w.phase == if readable && Unbroken(frames) then Reading(Consumed(v.phase.body, frames)) else Settling
    case Quiet(_) => w.phase == v.phase && w.stream == v.stream
    case End(rest, readable) => v.phase.Reading? && w.phase.Settling? && ReadFrames(w, v.phase.body, rest, readable)
    case Settle(answer, _, _) =>
      && w.phase.Between?
      && (if v.stream.staging.Some? then LiveAt(w.stream, answer) && w.declined
          else if v.stream.state == GapDetected then v.reacquire && LiveAt(w.stream, answer)
          else Acquainted(v.stream) && w.stream == v.stream.(state := Live))
  }

  // ---- records ----------------------------------------------------------------------------------------------

  predicate Unspent(w: World) {
    w.budget.Some? ==> |w.records| < w.budget.value
  }

  /** From one point of a step to a later one. */
  ghost predicate Progress(v: World, w: World, fates: set<Fate>) {
    && w.cluster == v.cluster && w.budget == v.budget && w.reacquire == v.reacquire && v.records <= w.records
    && (w.phase == Stopped(Completed) <==> Reached(v, w))
    && (w.phase == Stopped(Cancelled) ==> Cancel in fates) && (w.phase == Stopped(Failed) ==> Fault in fates)
    && (!w.phase.Stopped? ==> Unspent(w))
  }

  lemma ProgressJoins(u: World, v: World, w: World, a: set<Fate>, b: set<Fate>, all: set<Fate>)
    requires Progress(u, v, a) && Progress(v, w, b) && !v.phase.Stopped? && a <= all && b <= all
    ensures Progress(u, w, all)
  {
  }

  lemma DeliverProgress(w: World, word: Word, item: Option<Object>, fate: Fate)
    requires !w.phase.Stopped? && Unspent(w)
    ensures var told := Deliver(w, word, item, fate);
      && Progress(w, told, {fate}) && told.declined == w.declined
      && (!told.phase.Stopped? ==> fate == Taken && told == w.(records := told.records)
                                   && |told.records| == |w.records| + 1)
  {
  }

  lemma {:induction false} AnnounceProgress(w: World, telling: Telling, i: nat)
    requires !w.phase.Stopped? && Unspent(w) && i <= |telling.order|
    ensures var told := Announce(w, telling, i);
      && Progress(w, told, {telling.otherwise}) && told.declined == w.declined
      && (!told.phase.Stopped? ==> told == w.(records := told.records) && (i == |telling.order| || ToldWhole(telling)))
    decreases |telling.order| - i
  {
    hide Deliver;
    if i < |telling.order| {
      var fate := if i < telling.taken then Taken else telling.otherwise;
      var told := Deliver(w, Listed, Some(telling.order[i]), fate);
      DeliverProgress(w, Listed, Some(telling.order[i]), fate);
      if !told.phase.Stopped? {
        AnnounceProgress(told, telling, i + 1);
      }
    }
  }

  lemma NoticedProgress(w: World, notice: Option<Fate>)
    requires !w.phase.Stopped? && Unspent(w)
    ensures Progress(w, Noticed(w, notice), NoticeFates(notice))
    ensures !Noticed(w, notice).phase.Stopped? ==>
      Noticed(w, notice) == w.(records := Noticed(w, notice).records) && notice in {None, Some(Taken)}
  {
    hide Deliver;
    if notice.Some? { DeliverProgress(w, Notice, None, notice.value); }
  }

  lemma RunningUnspent(w: World)
    requires Budgeted(w) && !w.phase.Stopped?
    ensures Unspent(w)
  {
  }

  // ---- a listing, an event, a body --------------------------------------------------------------------------

  lemma AcquireProgress(w: World, answer: Answer, telling: Telling)
    requires !w.phase.Stopped? && Unspent(w)
    requires answer.Unreachable? ==> answer.outcome != Completed
    ensures var told := Acquire(w, answer, telling);
      && told.cluster == w.cluster && told.budget == w.budget && told.reacquire == w.reacquire
      && told.declined == w.declined && w.records <= told.records
      && (told.phase == Stopped(Completed) <==> Reached(w, told))
      && (told.phase == Stopped(Cancelled) ==> telling.otherwise == Cancel || answer == Unreachable(Cancelled))
      && (told.phase == Stopped(Failed) ==>
            telling.otherwise == Fault || answer == Unreachable(Failed) || (answer.Page? && !Usable(answer)))
      && (!told.phase.Stopped? ==>
            && told.phase.Between? && LiveAt(told.stream, answer) && Unspent(told)
            && ToldWhole(telling))
  {
    hide Announce;
    if Usable(answer) {
      AnnounceProgress(w.(stream := AfterListing(w.stream, answer.objects, answer.version.value), phase := Between),
                       telling, 0);
    }
  }

  /** One event that was read. */
  lemma HeardProgress(w: World, frame: Frame)
    requires !w.phase.Stopped? && Unspent(w)
    ensures var after := Heard(w, frame);
      && Progress(w, after, {if ReceptionOf(w.stream, frame.event) == Synchronised
                             then frame.telling.otherwise else frame.fate})
      && (!after.phase.Stopped? ==>
            && after.stream == AfterEvent(w.stream, frame.event)
            && after.phase == (if frame.event.Error? then Settling else w.phase)
            && (ReceptionOf(w.stream, frame.event) == Synchronised ==> ToldWhole(frame.telling))
            && (ReceptionOf(w.stream, frame.event) in {Applied, ContinuityBroken} ==> frame.fate == Taken))
  {
    hide Announce, Deliver, AfterEvent;
    var after := w.(stream := AfterEvent(w.stream, frame.event));
    match ReceptionOf(w.stream, frame.event)
    case Synchronised => AnnounceProgress(after.(declined := false), frame.telling, 0);
    case Applied => DeliverProgress(after, WordOf(frame.event.change), Some(frame.event.change.item), frame.fate);
    case ContinuityBroken => DeliverProgress(after, Gap, None, frame.fate);
    case _ =>
  }

  /** A body that is being read: where the stream stands, and what its events are received as. */
  lemma ReadingFacts(w: World, event: Event, a: Account)
    requires Inv(w, a) && w.phase.Reading? && Sends(w.cluster, w.phase.body, event)
    ensures StandsAt(w, w.phase.body)
    ensures match event
      case Error(Interrupted) => true
      case Error(_) => ReceptionOf(w.stream, event) == ContinuityBroken
      case Mutation(_) => w.phase.body.Following? ==> ReceptionOf(w.stream, event) == Applied
      case InitialEventsEnd(_) => w.phase.body.Initial? ==> ReceptionOf(w.stream, event) == Synchronised
      case Bookmark(_) => true
  {
    hide Grounded, Told, Enumerates;
  }

  /** What a failure leaves of a stream that was being read to. */
  lemma FailureLeaves(w: World, t: World, failure: Failure, a: Account)
    requires Inv(w, a) && w.phase.Reading? && t.cluster == w.cluster
    requires t.stream == AfterEvent(w.stream, Error(failure))
    ensures LeftBy(failure, t, w.phase.body)
  {
    hide Told, Enumerates;
  }

  ghost predicate FeedGoes(w: World, frames: seq<Frame>, t: World)
    requires w.phase.Reading?
  {
    && Progress(w, t, FrameFates(frames) + TellingFates(frames))
    && (!t.phase.Stopped? ==>
          && AllTaken(w.phase.body, frames) && ReadFrames(t, w.phase.body, frames, true)
          && t.phase == if Unbroken(frames) then Reading(Consumed(w.phase.body, frames)) else Settling)
  }

  lemma FatesGrow(frames: seq<Frame>)
    requires frames != []
    ensures {frames[0].fate, frames[0].telling.otherwise} <= FrameFates(frames) + TellingFates(frames)
    ensures FrameFates(frames[1..]) + TellingFates(frames[1..]) <= FrameFates(frames) + TellingFates(frames)
  {
    forall f | f in FrameFates(frames[1..]) ensures f in FrameFates(frames) {
      var i :| 0 <= i < |frames| - 1 && frames[1..][i].fate == f;
      assert frames[i + 1].fate == f;
    }
    forall f | f in TellingFates(frames[1..]) ensures f in TellingFates(frames) {
      var i :| 0 <= i < |frames| - 1 && frames[1..][i].telling.otherwise == f;
      assert frames[i + 1].telling.otherwise == f;
    }
  }

  /** The event that breaks off. */
  lemma FeedBreaks(w: World, frames: seq<Frame>, t: World, a: Account)
    requires Inv(w, a) && w.phase.Reading? && FramesAllowed(w, frames) && frames != [] && frames[0].event.Error?
    requires t == Heard(w, frames[0])
    ensures FeedGoes(w, frames, t)
  {
    hide Grounded, Told, Poised, Linked, PhaseOk, Enumerates, Heard, LeftBy, Progress, FrameFates, TellingFates;
    RunningUnspent(w);
    FatesGrow(frames);
    assert ReceptionOf(w.stream, frames[0].event) != Synchronised;
    ReadingFacts(w, frames[0].event, a);
    HeardProgress(w, frames[0]);
    ProgressWidens(w, t, {frames[0].fate}, FrameFates(frames) + TellingFates(frames));
    if !t.phase.Stopped? {
      FailureLeaves(w, t, frames[0].event.failure, a);
      assert frames[..0] == [] && BreaksAt(frames, 0);
    }
  }

  lemma ProgressWidens(v: World, w: World, some: set<Fate>, all: set<Fate>)
    requires Progress(v, w, some) && some <= all
    ensures Progress(v, w, all)
  {
  }

  /** An event that does not, and what is read after it. */
  lemma FeedContinues(w: World, frames: seq<Frame>, after: World, t: World)
    requires w.phase.Reading? && frames != [] && !frames[0].event.Error?
    requires after.phase == Reading(Advance(w.phase.body, frames[0].event))
    requires AllTaken(after.phase.body, frames[1..]) ==> AllTaken(w.phase.body, frames)
    requires Progress(w, after, FrameFates(frames) + TellingFates(frames)) && FeedGoes(after, frames[1..], t)
    ensures FeedGoes(w, frames, t)
  {
    hide LeftBy, StandsAt, FrameFates, TellingFates, AllTaken;
    FatesGrow(frames);
    var rest, body := frames[1..], w.phase.body;
    assert Unbroken(frames) <==> Unbroken(rest) by {
      assert forall i :: 0 < i < |frames| ==> frames[i] == rest[i - 1];
    }
    if !t.phase.Stopped? && !Unbroken(rest) {
      var k: nat :| BreaksAt(rest, k) && LeftBy(rest[k].event.failure, t, Consumed(after.phase.body, rest[..k]));
      assert frames[..k + 1] == [frames[0]] + rest[..k] && frames[..k + 1][1..] == rest[..k];
      UnbrokenNext(frames[0], rest[..k]);
    }
  }

  lemma UnbrokenNext(frame: Frame, frames: seq<Frame>)
    requires Unbroken(frames) && !frame.event.Error?
    ensures Unbroken([frame] + frames)
  {
  }

  lemma {:induction false} FeedProgress(w: World, frames: seq<Frame>, a: Account)
    requires Inv(w, a) && w.phase.Reading? && FramesAllowed(w, frames)
    ensures FeedGoes(w, frames, Feed(w, frames))
    decreases |frames|
  {
    hide Grounded, Told, Poised, Linked, PhaseOk, Heard, Progress, FrameFates, TellingFates, ReceptionOf, FeedGoes;
    RunningUnspent(w);
    if frames == [] {
      NothingFed(w, a);
    } else {
      var frame, rest := frames[0], frames[1..];
      var after := Heard(Sent(w, frame.event), frame);
      assert Feed(w, frames) == Feed(after, rest);
      if frame.event.Error? {
        assert Sent(w, frame.event) == w;
        HeardProgress(w, frame);
        FeedBreaks(w, frames, after, a);
      } else {
        ReadingFacts(w, frame.event, a);
        HeardProgress(Sent(w, frame.event), frame);
        FatesGrow(frames);
        var fate := if ReceptionOf(w.stream, frame.event) == Synchronised then frame.telling.otherwise else frame.fate;
        SentProgress(w, frame.event, after, {fate});
        ProgressWidens(w, after, {fate}, FrameFates(frames) + TellingFates(frames));
        if after.phase.Stopped? {
          FeedStops(w, frames, after);
        } else {
          var b := FrameHeard(w, frame, a);
          FeedProgress(after, rest, b);
          FeedContinues(w, frames, after, Feed(after, rest));
        }
      }
    }
  }

  lemma NothingFed(w: World, a: Account)
    requires Inv(w, a) && w.phase.Reading? && Unspent(w)
    ensures FeedGoes(w, [], w)
  {
  }

  lemma SentProgress(w: World, event: Event, after: World, fates: set<Fate>)
    requires Progress(Sent(w, event), after, fates)
    ensures Progress(w, after, fates)
  {
  }

  lemma FeedStops(w: World, frames: seq<Frame>, t: World)
    requires w.phase.Reading? && t.phase.Stopped? && Progress(w, t, FrameFates(frames) + TellingFates(frames))
    ensures FeedGoes(w, frames, t)
  {
  }

  // ---- every step -------------------------------------------------------------------------------------------

  /** What one step of a running invocation comes to: it ends, and has a cause of that kind; or it goes on,
      every record was taken, and it stands where it should. */
  ghost predicate Comes(v: World, input: Input, w: World) {
    && (w.phase == Stopped(Completed) <==> Reached(v, w) || NothingLeft(v, input))
    && (w.phase == Stopped(Cancelled) ==> Cancels(v, input))
    && (w.phase == Stopped(Failed) ==> Fails(v, input))
    && (!w.phase.Stopped? ==> Delivered(v, input) && Goes(v, input, w))
  }

  lemma CutComes(v: World, a: Account)
    requires Inv(v, a) && v.phase.Reading?
    ensures var w := Heard(v, CUT);
      w.phase.Settling? && w.records == v.records && w.budget == v.budget && LeftBy(Interrupted, w, v.phase.body)
  {
    FailureLeaves(v, Heard(v, CUT), Interrupted, a);
  }

  lemma BeginComes(v: World, answer: Answer, telling: Telling, a: Account)
    requires Inv(v, a) && !v.phase.Stopped? && Allowed(v, Begin(answer, telling))
    ensures Comes(v, Begin(answer, telling), Next(v, Begin(answer, telling)))
  {
    hide Grounded, Told, Poised, Linked;
    RunningUnspent(v);
    if v.declined { AcquireProgress(v, answer, telling); }
  }

  /** A watch that was answered with an expiry or a refusal. */
  lemma BreakComes(v: World, failure: Failure, body: Body, fate: Fate, a: Account)
    requires Inv(v, a) && v.phase.Between? && failure != Interrupted
    ensures var w := Settled(Heard(v, Frame(Error(failure), fate, Telling([], 0, Fault))));
      && (w.phase == Stopped(Completed) <==> Reached(v, w))
      && (w.phase == Stopped(Cancelled) ==> fate == Cancel) && (w.phase == Stopped(Failed) ==> fate == Fault)
      && (!w.phase.Stopped? ==> fate == Taken && w.phase.Settling? && LeftBy(failure, w, body))
  {
    hide Grounded, Told, Poised, Linked, Heard, Enumerates;
    RunningUnspent(v);
    var frame := Frame(Error(failure), fate, Telling([], 0, Fault));
    HeardProgress(v, frame);
    assert ReceptionOf(v.stream, frame.event) == ContinuityBroken;
  }

  lemma OpenComes(v: World, status: nat, body: Body, fate: Fate, a: Account)
    requires Inv(v, a) && !v.phase.Stopped? && Allowed(v, Open(status, body, fate))
    ensures Comes(v, Open(status, body, fate), Next(v, Open(status, body, fate)))
  {
    hide Grounded, Told, Poised, Linked, PhaseOk, Heard, Settled, LeftBy, BodyAllowed;
    RunningUnspent(v);
    BreakComes(v, Expired, body, fate, a);
    BreakComes(v, Refused, body, fate, a);
  }

  lemma ChunkComes(v: World, frames: seq<Frame>, a: Account)
    requires Inv(v, a) && v.phase.Reading? && FramesAllowed(v, frames)
    ensures Comes(v, Chunk(frames, true), Feed(v, frames))
    ensures |frames| <= 1 ==> Comes(v, End(frames, true), Settled(Feed(v, frames)))
  {
    hide Grounded, Told, Poised, Linked, PhaseOk, Enumerates, Feed, ReadFrames, FrameFates, TellingFates, AllTaken;
    FeedProgress(v, frames, a);
    RunningUnspent(v);
    SameGround(Feed(v, frames), frames, v.phase.body);
  }

  /** Where a world stands has nothing to do with the phase it is in. */
  lemma SameGround(w: World, frames: seq<Frame>, body: Body)
    ensures ReadFrames(w, body, frames, true) ==> ReadFrames(w.(phase := Settling), body, frames, true)
  {
    hide Enumerates;
    if ReadFrames(w, body, frames, true) && !Unbroken(frames) {
      var k: nat :| BreaksAt(frames, k) && LeftBy(frames[k].event.failure, w, Consumed(body, frames[..k]));
      assert LeftBy(frames[k].event.failure, w.(phase := Settling), Consumed(body, frames[..k]));
    }
  }

  lemma AbandonComes(v: World, answer: Answer, telling: Telling, notice: Option<Fate>)
    requires v.phase.Settling? && Unspent(v) && v.stream.staging.Some?
    requires answer.Unreachable? ==> answer.outcome != Completed
    ensures Comes(v, Settle(answer, telling, notice), Resolve(v, answer, telling, notice))
  {
    hide Acquire, LiveAt;
    AcquireProgress(v.(stream := v.stream.(staging := None), declined := true), answer, telling);
  }

  lemma RelistComes(v: World, answer: Answer, telling: Telling, notice: Option<Fate>)
    requires v.phase.Settling? && Unspent(v) && v.stream.staging.None? && v.stream.state == GapDetected && v.reacquire
    requires answer.Unreachable? ==> answer.outcome != Completed
    ensures Comes(v, Settle(answer, telling, notice), Resolve(v, answer, telling, notice))
  {
    hide Acquire, Noticed, LiveAt;
    AcquireProgress(v, answer, telling);
    var told := Acquire(v, answer, telling);
    if !told.phase.Stopped? { NoticedProgress(told, notice); } else { NoNotice(told, notice); }
  }

  lemma ReopenComes(v: World, answer: Answer, telling: Telling, notice: Option<Fate>)
    requires v.phase.Settling? && Unspent(v) && v.stream.staging.None?
    requires Acquainted(v.stream) ==> v.stream.checkpoint.Some?
    requires v.stream.state == GapDetected ==> !v.reacquire
    ensures Comes(v, Settle(answer, telling, notice), Resolve(v, answer, telling, notice))
  {
    hide Acquire, Noticed, LiveAt;
    if Acquainted(v.stream) { NoticedProgress(v.(stream := AfterReconnect(v.stream), phase := Between), notice); }
  }

  /** A response is over. */
  lemma SettleComes(v: World, answer: Answer, telling: Telling, notice: Option<Fate>, a: Account)
    requires Inv(v, a) && v.phase.Settling? && AnswerAllowed(v.cluster, answer, telling)
    ensures Comes(v, Settle(answer, telling, notice), Resolve(v, answer, telling, notice))
  {
    hide Told, Poised, Linked, Comes, Resolve;
    AnswerEnds(v.cluster, answer, telling);
    RunningUnspent(v);
    LiveHasCheckpoint(v.cluster, v.stream);
    if v.stream.staging.Some? {
      AbandonComes(v, answer, telling, notice);
    } else if v.stream.state == GapDetected && v.reacquire {
      RelistComes(v, answer, telling, notice);
    } else {
      ReopenComes(v, answer, telling, notice);
    }
  }

  lemma AnswerEnds(c: Cluster, answer: Answer, telling: Telling)
    requires c.Valid() && AnswerAllowed(c, answer, telling)
    ensures answer.Unreachable? ==> answer.outcome != Completed
  {
  }

  lemma NoNotice(w: World, notice: Option<Fate>)
    requires w.phase.Stopped?
    ensures Noticed(w, notice) == w
  {
  }

  /** Every step of a running invocation. */
  lemma StepComes(v: World, input: Input, a: Account)
    requires Inv(v, a) && !v.phase.Stopped? && v.cluster.Valid() && Allowed(v, input)
    ensures Comes(v, input, Next(v, input))
  {
    hide Grounded, Told, Poised, Linked, PhaseOk, Feed, Heard, Resolve, Opened, Acquire, Comes;
    match input
    case Begin(answer, telling) => BeginComes(v, answer, telling, a);
    case Open(status, body, fate) => OpenComes(v, status, body, fate, a);
    case Chunk(frames, readable) => if readable { ChunkComes(v, frames, a); } else { CutEnds(v, frames, a); }
    case End(rest, readable) => if readable { ChunkComes(v, rest, a); } else { CutEnds(v, rest, a); }
    case Settle(answer, telling, notice) => SettleComes(v, answer, telling, notice, a);
    case _ => QuietComes(v, input);
  }

  lemma CutEnds(v: World, frames: seq<Frame>, a: Account)
    requires Inv(v, a) && v.phase.Reading?
    ensures Comes(v, Chunk(frames, false), Heard(v, CUT)) && Comes(v, End(frames, false), Settled(Heard(v, CUT)))
  {
    hide Grounded, Told, Poised, Linked, PhaseOk, Heard, FrameFates, TellingFates;
    CutComes(v, a);
    RunningUnspent(v);
  }

  lemma QuietComes(v: World, input: Input)
    requires Budgeted(v) && !v.phase.Stopped? && v.cluster.Valid() && Allowed(v, input)
    requires input.Grow? || input.Stop? || input.OpenFails? || input.Quiet?
    ensures Comes(v, input, Next(v, input))
  {
    hide Noticed;
    RunningUnspent(v);
    if input.Quiet? { NoticedProgress(v, input.notice); }
  }

  // ---- main results -----------------------------------------------------------------------------------------

  /** In every run of the loop a step that ends the invocation has its cause: it is complete exactly when the
      budget was reached there or nothing was left to go on from, cancelled only by the operator or a host
      that takes no more, failed only by a record that could not be handed on, a request that failed, a status
      that opens nothing, or a listing that cannot be used. Any other step goes on, having told all it
      had to tell: a response that is over leads back to a watch from where the stream stood, or from a new
      listing, and what a body brings is read to its end or to the first frame that breaks off. */
  lemma EndsForACause(worlds: seq<World>, inputs: seq<Input>, i: nat)
    requires Run(worlds, inputs) && i < |inputs| && !worlds[i].phase.Stopped?
    ensures Comes(worlds[i], inputs[i], worlds[i + 1])
  {
    hide Comes;
    assert Moves(worlds[i], inputs[i], worlds[i + 1]);
    forall j | 0 <= j < i ensures Moves(worlds[..i + 1][j], inputs[..i][j], worlds[..i + 1][j + 1]) {
      assert Moves(worlds[j], inputs[j], worlds[j + 1]);
    }
    var a := RunKeeps(worlds[..i + 1], inputs[..i]);
    StepComes(worlds[i], inputs[i], a);
  }

  /** A live watch that the server closes is opened again where it was. */
  lemma CloseReopens(v: World, a: Account, answer: Answer, telling: Telling, n: nat, fate: Fate)
    requires Inv(v, a) && v.phase == Reading(Following(n)) && AnswerAllowed(v.cluster, answer, telling)
    ensures Moves(v, End([], true), v.(phase := Settling))
    ensures Moves(v.(phase := Settling), Settle(answer, telling, None), v.(phase := Between))
    ensures Moves(v.(phase := Between), Open(200, Following(n), fate), v)
  {
    hide Told, Poised, Enumerates, AnswerAllowed;
    FollowingFacts(v, a);
    LiveHasCheckpoint(v.cluster, v.stream);
  }

  /** And the change that comes after it is handed to the reader as the next record. */
  lemma NextChangeIsHeard(v: World, a: Account, n: nat, telling: Telling)
    requires Inv(v, a) && v.phase == Reading(Following(n)) && n < |v.cluster.log|
    ensures var change := v.cluster.log[n];
      var input := Chunk([Frame(Mutation(change), Taken, telling)], true);
      var heard := Next(v, input);
      && Moves(v, input, heard) && |heard.records| == |v.records| + 1 && heard.records[..|v.records|] == v.records
      && heard.records[|v.records|].item == Some(change.item)
      && heard.records[|v.records|].word ==
           (if change.what == Added then Arrived else if change.what == Deleted then Gone else Changed)
  {
    hide Told, Poised, Enumerates, AfterEvent;
    FollowingFacts(v, a);
    var frame := Frame(Mutation(v.cluster.log[n]), Taken, telling);
    assert [frame][1..] == [];
    HeardChange(v, frame, v.cluster.log[n]);
    assert Feed(v, [frame]) == Feed(Heard(Sent(v, frame.event), frame), []);
    assert ReceptionOf(v.stream, frame.event) == Applied;
    assert FramesAllowed(Heard(Sent(v, frame.event), frame), []);
    assert FramesAllowed(v, [frame]);
  }
}
