/** Waiting for a write to converge (mutations.rs `converge`, `Converging::run`).

    The rule that decides an object is a parameter; what is proved is which objects it is asked about.
    The server answers a watch request as it likes within the watch contract (`Serves`), the session's
    cache answers polls as it likes, and the clock and the operator interrupt anywhere. */
module Converge {
  import opened Kube

  datatype Verdict = Confirmed | Refuted | Pending | Inconclusive
  datatype Stage = ApiAccepted | SpecObserved | GenerationObserved | StatusConverged | ExternallyHealthy
  datatype Finding = Finding(verdict: Verdict, reached: Option<Stage>)

  /** What a rule makes of one observation of the target. */
  datatype Evaluation = Evaluation(item: Object, finding: Finding)

  type Rule = Object -> Finding

  datatype Reason =
    | GenerationNotObserved | ConditionsInconclusive | WindowExpired | WatchGap
    | PartialCoverage | WatchDenied | TypeNotServed | RequestFailed | TargetGone

  datatype Verified = Decided(on: Evaluation) | Unfinished(why: Reason, evidence: Evaluation) | Cancelled

  /** How a single watch over the target ends. */
  datatype Watched =
    | Settled(on: Evaluation)
    | Stuck(why: Reason, seen: Option<Evaluation>)
    | Reopen(checkpoint: Option<Version>, seen: Option<Evaluation>)

  /** What one read of the response body brings. */
  datatype Arrival = Events(events: seq<Event>) | Unreadable | Silence | Failing

  /** One turn of the round's loop: whether the window is over, and what is read otherwise. */
  datatype Turn = Turn(due: bool, arrival: Arrival)

  /** A server's whole answer to one watch request; a body that runs out has ended. */
  datatype Response = Unreachable | Response(status: nat, at: nat, turns: seq<Turn>)

  type Server = Option<Version> -> Response

  /** One turn of the loop over rounds. */
  datatype Round = Round(cancelled: bool, expired: bool, cutShort: bool, server: Server)

  datatype Lookup = NotServed | ConfirmedAbsent | Found(item: Object)

  /** One poll of the session's own cache. */
  datatype Poll = Poll(cancelled: bool, live: bool, looked: Lookup, due: bool)

  predicate IsDecided(finding: Finding) {
    finding.verdict == Confirmed || finding.verdict == Refuted
  }

  function Evaluate(rule: Rule, item: Object): Evaluation {
    Evaluation(item, rule(item))
  }

  /** The reason to give when time runs out, by how far the newest evaluation got. */
  function WindowEnded(last: Evaluation): Reason {
    match last.finding.reached
    case None => WindowExpired
    case Some(ApiAccepted) => GenerationNotObserved
    case Some(SpecObserved) => GenerationNotObserved
    case Some(_) => ConditionsInconclusive
  }

  function Or(seen: Option<Evaluation>, last: Evaluation): Evaluation {
    if seen.Some? then seen.value else last
  }

  // ---- what a verification answers ------------------------------------------------------------------------

  /** Where the events of a chunk leave a round. */
  datatype Way = On(checkpoint: Option<Version>, seen: Option<Evaluation>) | Out(watched: Watched)

  function ChunkEnd(rule: Rule, events: seq<Event>, checkpoint: Option<Version>, seen: Option<Evaluation>): Way
    decreases |events|
  {
    if events == [] then On(checkpoint, seen) else
    match events[0]
    case Mutation(Change(Deleted, _)) => Out(Stuck(TargetGone, seen))
    case Mutation(change) =>
      var now := Evaluate(rule, change.item);
      if IsDecided(now.finding) then Out(Settled(now))
      else ChunkEnd(rule, events[1..], if change.item.version.Some? then change.item.version else checkpoint, Some(now))
    case Bookmark(version) => ChunkEnd(rule, events[1..], Some(version), seen)
    case InitialEventsEnd(version) => ChunkEnd(rule, events[1..], Some(version), seen)
    case Error(Expired) => Out(Stuck(WatchGap, seen))
    case Error(Refused) => Out(Stuck(WatchDenied, seen))
    case Error(Interrupted) => Out(Reopen(checkpoint, seen))
  }

  function TurnsEnd(rule: Rule, turns: seq<Turn>, last: Evaluation, checkpoint: Option<Version>,
                    seen: Option<Evaluation>): Watched
    decreases |turns|
  {
    if turns == [] then Reopen(checkpoint, seen)
    else if turns[0].due then Stuck(WindowEnded(Or(seen, last)), seen)
    else
      match turns[0].arrival
      case Unreadable => Stuck(PartialCoverage, seen)
      case Silence => TurnsEnd(rule, turns[1..], last, checkpoint, seen)
      case Failing => Reopen(checkpoint, seen)
      case Events(events) =>
        match ChunkEnd(rule, events, checkpoint, seen)
        case Out(watched) => watched
        case On(next, now) => TurnsEnd(rule, turns[1..], last, next, now)
  }

  /** Why a watch that did not open is not a watch. */
  function Unopened(status: nat): Option<Reason> {
    if status == 200 then None
    else if status == 410 then Some(WatchGap)
    else if status == 401 || status == 403 then Some(WatchDenied)
    else if status == 404 then Some(TypeNotServed)
    else Some(RequestFailed)
  }

  function RoundEnd(rule: Rule, from: Option<Version>, last: Evaluation, response: Response): Watched
    requires response.Response?
  {
    if Unopened(response.status).Some? then Stuck(Unopened(response.status).value, None)
    else TurnsEnd(rule, response.turns, last, from, None)
  }

  function Conclude(outcome: Watched, last: Evaluation): Verified {
    match outcome
    case Settled(on) => Decided(on)
    case Stuck(why, seen) => Unfinished(why, Or(seen, last))
    case Reopen(_, seen) => Unfinished(RequestFailed, Or(seen, last))
  }

  /** The rounds that are left; an invocation that runs out of them ran out of its window. */
  function RoundsEnd(rule: Rule, rounds: seq<Round>, last: Evaluation, from: Option<Version>): Verified
    decreases |rounds|
  {
    if rounds == [] then Unfinished(WindowEnded(last), last)
    else if rounds[0].cancelled then Cancelled
    else if rounds[0].expired then Unfinished(WindowEnded(last), last)
    else
      var response := rounds[0].server(from);
      if response.Unreachable? then if rounds[0].cutShort then Cancelled else Unfinished(RequestFailed, last)
      else
        var outcome := RoundEnd(rule, from, last, response);
        if !outcome.Reopen? then Conclude(outcome, last)
        else
          RoundsEnd(rule, rounds[1..], Or(outcome.seen, last),
                    if outcome.checkpoint.Some? then outcome.checkpoint else from)
  }

  /** What polling comes to: an answer, or the newest evaluation to go on with. */
  datatype PollEnd = Answered(verified: Verified) | GoOn(last: Evaluation)

  function PollsEnd(rule: Rule, polls: seq<Poll>, last: Evaluation): PollEnd
    decreases |polls|
  {
    if polls == [] then GoOn(last)
    else if polls[0].cancelled then Answered(Cancelled)
    else if !polls[0].live then GoOn(last)
    else
      match polls[0].looked
      case ConfirmedAbsent => Answered(Unfinished(TargetGone, last))
      case NotServed =>
        if polls[0].due then Answered(Unfinished(WindowEnded(last), last)) else PollsEnd(rule, polls[1..], last)
      case Found(item) =>
        var now := Evaluate(rule, item);
        if IsDecided(now.finding) then Answered(Decided(now))
        else if polls[0].due then Answered(Unfinished(WindowEnded(now), now))
        else PollsEnd(rule, polls[1..], now)
  }

  /** The answer of the whole verification. */
  function Answer(rule: Rule, first: Evaluation, observed: Option<Version>, polls: seq<Poll>,
                  rounds: seq<Round>): Verified {
    match PollsEnd(rule, polls, first)
    case Answered(verified) => verified
    case GoOn(last) => RoundsEnd(rule, rounds, last, observed)
  }

  // ---- what decides a verification --------------------------------------------------------------------------

  /** What one watch brings, one thing after the other: its events, and how it comes to an end. */
  datatype Signal = Heard(event: Event) | Due | Garbled | Broke | Over

  function HeardAll(events: seq<Event>): (signals: seq<Signal>)
    ensures |signals| == |events| && forall i :: 0 <= i < |events| ==> signals[i] == Heard(events[i])
  {
    seq(|events|, i requires 0 <= i < |events| => Heard(events[i]))
  }

  function Signals(turns: seq<Turn>): seq<Signal>
    decreases |turns|
  {
    if turns == [] then [Over]
    else if turns[0].due then [Due]
    else
      match turns[0].arrival
      case Unreadable => [Garbled]
      case Failing => [Broke]
      case Silence => Signals(turns[1..])
      case Events(events) => HeardAll(events) + Signals(turns[1..])
  }

  /** A state of the target that decides the rule. */
  predicate Decisive(rule: Rule, change: Change) {
    change.what != Deleted && rule(change.item).verdict in {Confirmed, Refuted}
  }

  /** A state of the target that leaves the rule open. */
  predicate StaysOpen(rule: Rule, change: Change) {
    change.what != Deleted && rule(change.item).verdict in {Pending, Inconclusive}
  }

  lemma DecidedIs(finding: Finding)
    ensures IsDecided(finding) <==> finding.verdict in {Confirmed, Refuted}
    ensures !IsDecided(finding) <==> finding.verdict in {Pending, Inconclusive}
  {
  }

  /** Nothing to act on: a bookmark, or a state that leaves the rule open. */
  predicate PassesBy(rule: Rule, signal: Signal) {
    signal.Heard? &&
    match signal.event
    case Error(_) => false
    case Mutation(change) => StaysOpen(rule, change)
    case _ => true
  }

  /** Where a watch can be opened again: the last version that was heard of. */
  function Token(from: Option<Version>, signals: seq<Signal>): Option<Version>
    decreases |signals|
  {
    if signals == [] then from else Token(NextToken(from, signals[0]), signals[1..])
  }

  function NextToken(from: Option<Version>, signal: Signal): Option<Version> {
    match signal
    case Heard(Bookmark(version)) => Some(version)
    case Heard(InitialEventsEnd(version)) => Some(version)
    case Heard(Mutation(change)) => if change.item.version.Some? then change.item.version else from
    case _ => from
  }

  /** The newest evaluation. */
  function Seen(rule: Rule, seen: Option<Evaluation>, signals: seq<Signal>): Option<Evaluation>
    decreases |signals|
  {
    if signals == [] then seen else Seen(rule, NextSeen(rule, seen, signals[0]), signals[1..])
  }

  function NextSeen(rule: Rule, seen: Option<Evaluation>, signal: Signal): Option<Evaluation> {
    match signal
    case Heard(Mutation(change)) => Some(Evaluate(rule, change.item))
    case _ => seen
  }

  /** The newest evaluation there is, on top of one from before. */
  function Latest(rule: Rule, last: Evaluation, signals: seq<Signal>): Evaluation
    decreases |signals|
  {
    if signals == [] then last
    else
      match signals[0]
      case Heard(Mutation(change)) => Latest(rule, Evaluate(rule, change.item), signals[1..])
      case _ => Latest(rule, last, signals[1..])
  }

  lemma {:induction false} LatestIs(rule: Rule, seen: Option<Evaluation>, last: Evaluation, signals: seq<Signal>)
    ensures Or(Seen(rule, seen, signals), last) == Latest(rule, Or(seen, last), signals)
    decreases |signals|
  {
    if signals != [] { LatestIs(rule, NextSeen(rule, seen, signals[0]), last, signals[1..]); }
  }

  /** The watch stopped bringing anything, and may be opened again. */
  predicate Reopens(signal: Signal) {
    signal in {Heard(Error(Interrupted)), Broke, Over}
  }

  /** The reason to give up for what a watch brought. */
  predicate Stops(signal: Signal, newest: Evaluation, why: Reason) {
    match signal
    case Heard(Mutation(change)) => change.what == Deleted && why == TargetGone
    case Heard(Error(Expired)) => why == WatchGap
    case Heard(Error(Refused)) => why == WatchDenied
    case Due => why == WindowEnded(newest)
    case Garbled => why == PartialCoverage
    case _ => false
  }

  /** The `k`-th signal is the first to act on. */
  predicate ActsAt(rule: Rule, signals: seq<Signal>, k: nat) {
    k < |signals| && !PassesBy(rule, signals[k]) && forall i :: 0 <= i < k ==> PassesBy(rule, signals[i])
  }

  /** A watch ends as the first signal to act on has it. */
  predicate EndsAs(rule: Rule, from: Option<Version>, seen: Option<Evaluation>, last: Evaluation,
                   signals: seq<Signal>, k: nat, watched: Watched)
    requires k < |signals|
  {
    var newest := Seen(rule, seen, signals[..k]);
    match watched
    case Settled(on) =>
      && signals[k].Heard? && signals[k].event.Mutation?
      && Decisive(rule, signals[k].event.change) && on == Evaluate(rule, signals[k].event.change.item)
    case Stuck(why, evidence) => Stops(signals[k], Or(newest, last), why) && evidence == newest
    case Reopen(checkpoint, evidence) =>
      Reopens(signals[k]) && checkpoint == Token(from, signals[..k]) && evidence == newest
  }

  ghost predicate Turning(rule: Rule, from: Option<Version>, seen: Option<Evaluation>, last: Evaluation,
                          signals: seq<Signal>, watched: Watched)
  {
    exists k: nat :: ActsAt(rule, signals, k) && EndsAs(rule, from, seen, last, signals, k, watched)
  }

  lemma TurnsHere(rule: Rule, from: Option<Version>, seen: Option<Evaluation>, last: Evaluation,
                  signals: seq<Signal>, watched: Watched)
    requires signals != [] && !PassesBy(rule, signals[0])
    requires EndsAs(rule, from, seen, last, signals, 0, watched)
    ensures Turning(rule, from, seen, last, signals, watched)
  {
    assert ActsAt(rule, signals, 0);
  }

  lemma TurnsLater(rule: Rule, from: Option<Version>, seen: Option<Evaluation>, last: Evaluation,
                   signals: seq<Signal>, watched: Watched)
    requires signals != [] && PassesBy(rule, signals[0])
    requires Turning(rule, NextToken(from, signals[0]), NextSeen(rule, seen, signals[0]), last, signals[1..], watched)
    ensures Turning(rule, from, seen, last, signals, watched)
  {
    hide PassesBy, NextToken, NextSeen, Stops, Reopens;
    var k: nat :| ActsAt(rule, signals[1..], k)
      && EndsAs(rule, NextToken(from, signals[0]), NextSeen(rule, seen, signals[0]), last, signals[1..], k, watched);
    assert signals[..k + 1][1..] == signals[1..][..k];
    assert ActsAt(rule, signals, k + 1) by {
      forall i | 0 <= i < k + 1 ensures PassesBy(rule, signals[i]) {
        if i > 0 { assert signals[i] == signals[1..][i - 1]; }
      }
    }
  }

  lemma {:induction false} ChunkTurning(rule: Rule, events: seq<Event>, from: Option<Version>, seen: Option<Evaluation>,
                                        last: Evaluation, rest: seq<Signal>, watched: Watched)
    requires match ChunkEnd(rule, events, from, seen)
             case Out(out) => watched == out
             case On(checkpoint, now) => Turning(rule, checkpoint, now, last, rest, watched)
    ensures Turning(rule, from, seen, last, HeardAll(events) + rest, watched)
    decreases |events|
  {
    hide Turning;
    var signals := HeardAll(events) + rest;
    if events == [] {
      assert signals == rest;
    } else {
      assert signals[0] == Heard(events[0]) && signals[..0] == [];
      assert signals[1..] == HeardAll(events[1..]) + rest;
      if PassesBy(rule, signals[0]) {
        ChunkTurning(rule, events[1..], NextToken(from, signals[0]), NextSeen(rule, seen, signals[0]), last,
                     rest, watched);
        TurnsLater(rule, from, seen, last, signals, watched);
      } else {
        TurnsHere(rule, from, seen, last, signals, watched);
      }
    }
  }

  lemma {:induction false} TurnsTurning(rule: Rule, turns: seq<Turn>, last: Evaluation, from: Option<Version>,
                                        seen: Option<Evaluation>)
    ensures Turning(rule, from, seen, last, Signals(turns), TurnsEnd(rule, turns, last, from, seen))
    decreases |turns|
  {
    hide Turning, ChunkEnd;
    var watched := TurnsEnd(rule, turns, last, from, seen);
    if turns == [] {
      TurnsHere(rule, from, seen, last, [Over], watched);
    } else if turns[0].due {
      TurnsHere(rule, from, seen, last, [Due], watched);
    } else {
      match turns[0].arrival
      case Unreadable => TurnsHere(rule, from, seen, last, [Garbled], watched);
      case Failing => TurnsHere(rule, from, seen, last, [Broke], watched);
      case Silence => TurnsTurning(rule, turns[1..], last, from, seen);
      case Events(events) =>
        var way := ChunkEnd(rule, events, from, seen);
        if way.On? { TurnsTurning(rule, turns[1..], last, way.checkpoint, way.seen); }
        ChunkTurning(rule, events, from, seen, last, Signals(turns[1..]), watched);
    }
  }

  /** Why a watch that was answered with another status than 200 is given up. */
  predicate RefusedFor(status: nat, why: Reason) {
    match why
    case WatchGap => status == 410
    case WatchDenied => status == 401 || status == 403
    case TypeNotServed => status == 404
    case RequestFailed => status !in {200, 401, 403, 404, 410}
    case _ => false
  }

  /** The rounds that were made: the token each was asked with, and the newest evaluation before it. The last
      of them is the one that ended the verification. */
  datatype Chronicle = Chronicle(asked: seq<Option<Version>>, lasts: seq<Evaluation>) {

    predicate Fits(rounds: seq<Round>) {
      asked != [] && |lasts| == |asked| <= |rounds| + 1
    }

    function Response(rounds: seq<Round>, m: nat): Response
      requires Fits(rounds) && m < |asked| && m < |rounds|
    {
      rounds[m].server(asked[m])
    }
  }

  /** A watch that was opened. */
  predicate Opened(round: Round, response: Response) {
    !round.cancelled && !round.expired && response.Response? && response.status == 200
  }

  /** A round after which the watch is opened again: what it was left with, where and with what to go on. */
  ghost predicate Continues(rule: Rule, round: Round, from: Option<Version>, last: Evaluation,
                            next: Option<Version>, newest: Evaluation)
  {
    && Opened(round, round.server(from))
    && exists k: nat ::
         var signals := Signals(round.server(from).turns);
         && ActsAt(rule, signals, k) && Reopens(signals[k]) && next == Token(from, signals[..k])
         && newest == Latest(rule, last, signals[..k])
  }

  /** The watch of this round is what the verification ends with. */
  ghost predicate Finishes(rule: Rule, signals: seq<Signal>, last: Evaluation, verified: Verified) {
    exists k: nat ::
      ActsAt(rule, signals, k) &&
      match verified
      case Decided(on) =>
        && signals[k].Heard? && signals[k].event.Mutation?
        && Decisive(rule, signals[k].event.change) && on == Evaluate(rule, signals[k].event.change.item)
      case Unfinished(why, evidence) =>
        evidence == Latest(rule, last, signals[..k]) && Stops(signals[k], evidence, why)
      case Cancelled => false
  }

  /** How the last round ended the verification. */
  ghost predicate Concludes(rule: Rule, round: Round, from: Option<Version>, last: Evaluation, verified: Verified) {
    var response := round.server(from);
    if round.cancelled then verified == Cancelled
    else if round.expired then verified == Unfinished(WindowEnded(last), last)
    else if response.Unreachable? then verified == if round.cutShort then Cancelled else Unfinished(RequestFailed, last)
    else if response.status != 200 then
      verified.Unfinished? && RefusedFor(response.status, verified.why) && verified.evidence == last
    else Finishes(rule, Signals(response.turns), last, verified)
  }

  /** Every round but the last was followed by another watch; the last one gave the answer, or there was no time
      left for it. */
  ghost predicate Chronicled(rule: Rule, rounds: seq<Round>, last: Evaluation, from: Option<Version>,
                             verified: Verified, chronicle: Chronicle)
  {
    && chronicle.Fits(rounds) && chronicle.asked[0] == from && chronicle.lasts[0] == last
    && (forall m :: 0 <= m < |chronicle.asked| - 1 ==>
          Continues(rule, rounds[m], chronicle.asked[m], chronicle.lasts[m],
                    chronicle.asked[m + 1], chronicle.lasts[m + 1]))
    && var n := |chronicle.asked| - 1;
      if n == |rounds| then verified == Unfinished(WindowEnded(chronicle.lasts[n]), chronicle.lasts[n])
      else Concludes(rule, rounds[n], chronicle.asked[n], chronicle.lasts[n], verified)
  }

  lemma {:induction false} TokenStays(from: Option<Version>, signals: seq<Signal>)
    ensures from.Some? ==> Token(from, signals).Some?
    decreases |signals|
  {
    if signals != [] { TokenStays(NextToken(from, signals[0]), signals[1..]); }
  }

  lemma RoundContinues(rule: Rule, round: Round, from: Option<Version>, last: Evaluation)
    requires round.server(from).Response? && !round.cancelled && !round.expired
    ensures var outcome := RoundEnd(rule, from, last, round.server(from));
      if outcome.Reopen?
      then Continues(rule, round, from, last, if outcome.checkpoint.Some? then outcome.checkpoint else from,
                     Or(outcome.seen, last))
      else Concludes(rule, round, from, last, Conclude(outcome, last))
  {
    hide TurnsEnd, PassesBy, Token, Seen, Latest, Signals;
    var response := round.server(from);
    if response.status == 200 {
      TurnsTurning(rule, response.turns, last, from, None);
      var signals := Signals(response.turns);
      var k: nat :| ActsAt(rule, signals, k)
        && EndsAs(rule, from, None, last, signals, k, TurnsEnd(rule, response.turns, last, from, None));
      TokenStays(from, signals[..k]);
      LatestIs(rule, None, last, signals[..k]);
    }
  }

  lemma ChronicleGrows(rule: Rule, rounds: seq<Round>, last: Evaluation, from: Option<Version>, verified: Verified,
                       rest: Chronicle)
    requires rounds != [] && rest.asked != [] && rest.lasts != []
    requires Chronicled(rule, rounds[1..], rest.lasts[0], rest.asked[0], verified, rest)
    requires Continues(rule, rounds[0], from, last, rest.asked[0], rest.lasts[0])
    ensures Chronicled(rule, rounds, last, from, verified, Chronicle([from] + rest.asked, [last] + rest.lasts))
  {
    hide Continues, Concludes;
    var whole := Chronicle([from] + rest.asked, [last] + rest.lasts);
    forall m | 0 <= m < |whole.asked| - 1
      ensures Continues(rule, rounds[m], whole.asked[m], whole.lasts[m], whole.asked[m + 1], whole.lasts[m + 1])
    {
      if m > 0 { assert rounds[m] == rounds[1..][m - 1]; }
    }
  }

  lemma {:induction false} RoundsChronicled(rule: Rule, rounds: seq<Round>, last: Evaluation, from: Option<Version>)
    returns (chronicle: Chronicle)
    ensures Chronicled(rule, rounds, last, from, RoundsEnd(rule, rounds, last, from), chronicle)
    decreases |rounds|
  {
    hide Continues, Concludes, RoundEnd;
    chronicle := Chronicle([from], [last]);
    if rounds != [] {
      if rounds[0].cancelled || rounds[0].expired || rounds[0].server(from).Unreachable? {
        AtOnce(rule, rounds, last, from);
      } else {
        RoundContinues(rule, rounds[0], from, last);
        var outcome := RoundEnd(rule, from, last, rounds[0].server(from));
        if outcome.Reopen? {
          var rest := RoundsChronicled(rule, rounds[1..], Or(outcome.seen, last),
                                       if outcome.checkpoint.Some? then outcome.checkpoint else from);
          ChronicleGrows(rule, rounds, last, from, RoundsEnd(rule, rounds, last, from), rest);
          chronicle := Chronicle([from] + rest.asked, [last] + rest.lasts);
        }
      }
    }
  }

  lemma AtOnce(rule: Rule, rounds: seq<Round>, last: Evaluation, from: Option<Version>)
    requires rounds != [] && (rounds[0].cancelled || rounds[0].expired || rounds[0].server(from).Unreachable?)
    ensures Concludes(rule, rounds[0], from, last, RoundsEnd(rule, rounds, last, from))
  {
  }

  /** The `k`-th poll is the first to act on. */
  predicate PollActsAt(rule: Rule, polls: seq<Poll>, k: nat) {
    && k <= |polls| && (k < |polls| ==> !PollPassesBy(rule, polls[k]))
    && forall i :: 0 <= i < k ==> PollPassesBy(rule, polls[i])
  }

  predicate PollPassesBy(rule: Rule, poll: Poll) {
    && !poll.cancelled && poll.live && !poll.due && !poll.looked.ConfirmedAbsent?
    && (poll.looked.Found? ==> rule(poll.looked.item).verdict in {Pending, Inconclusive})
  }

  /** The newest evaluation of the polls, the last found object that is. */
  function Polled(rule: Rule, polls: seq<Poll>, last: Evaluation): Evaluation
    decreases |polls|
  {
    if polls == [] then last
    else Polled(rule, polls[1..], if polls[0].looked.Found? then Evaluate(rule, polls[0].looked.item) else last)
  }

  /** Polling ends as the first poll to act on has it: on a watch of its own where the session has no live one,
      or no more polls are made. */
  predicate PollsEndAs(rule: Rule, polls: seq<Poll>, last: Evaluation, k: nat, end: PollEnd)
    requires k <= |polls|
  {
    var newest := Polled(rule, polls[..k], last);
    if k == |polls| then end == GoOn(newest)
    else
      var poll := polls[k];
      if poll.cancelled then end == Answered(Cancelled)
      else if !poll.live then end == GoOn(newest)
      else
        match poll.looked
        case ConfirmedAbsent => end == Answered(Unfinished(TargetGone, newest))
        case NotServed => end == Answered(Unfinished(WindowEnded(newest), newest))
        case Found(item) =>
          var now := Evaluate(rule, item);
          if rule(item).verdict in {Confirmed, Refuted} then end == Answered(Decided(now))
          else end == Answered(Unfinished(WindowEnded(now), now))
  }

  lemma {:induction false} PollsTurn(rule: Rule, polls: seq<Poll>, last: Evaluation) returns (k: nat)
    ensures PollActsAt(rule, polls, k) && PollsEndAs(rule, polls, last, k, PollsEnd(rule, polls, last))
    decreases |polls|
  {
    
    k := 0;
    if polls != [] && PollPassesBy(rule, polls[0]) {
      var newest := if polls[0].looked.Found? then Evaluate(rule, polls[0].looked.item) else last;
      var j := PollsTurn(rule, polls[1..], newest);
      k := j + 1;
      assert polls[..k][1..] == polls[1..][..j];
      assert k < |polls| ==> polls[k] == polls[1..][j];
      forall i | 0 <= i < k ensures PollPassesBy(rule, polls[i]) {
        if i > 0 { assert polls[i] == polls[1..][i - 1]; }
      }
    }
  }

  // ---- the watch contract ------------------------------------------------------------------------------

  /** The events of one chunk go on with the target's history from `cursor`; nothing is promised after
      an error frame. */
  ghost predicate Follow(c: Cluster, cursor: nat, events: seq<Event>)
    decreases |events|
  {
    events != [] ==>
      match events[0]
      case Error(_) => true
      case Mutation(change) => cursor < |c.log| && change == c.log[cursor] && Follow(c, cursor + 1, events[1..])
      case Bookmark(version) => version in c.names && c.names[version] == cursor && Follow(c, cursor, events[1..])
      case InitialEventsEnd(version) =>
        version in c.names && c.names[version] == cursor && Follow(c, cursor, events[1..])
  }

  function Mutations(events: seq<Event>): nat
    decreases |events|
  {
    if events == [] then 0 else (if events[0].Mutation? then 1 else 0) + Mutations(events[1..])
  }

  ghost predicate ServesTurns(c: Cluster, cursor: nat, turns: seq<Turn>)
    decreases |turns|
  {
    turns != [] ==>
      match turns[0].arrival
      case Events(events) =>
        Follow(c, cursor, events) && ServesTurns(c, cursor + Mutations(events), turns[1..])
      case _ => ServesTurns(c, cursor, turns[1..])
  }

  /** A watch opened at a version delivers the history after it; one opened at none, from wherever the
      server is. */
  ghost predicate Serves(c: Cluster, from: Option<Version>, response: Response) {
    response.Response? ==>
      && (from.Some? && from.value in c.names ==> response.at == c.names[from.value])
      && ServesTurns(c, response.at, response.turns)
  }

  ghost predicate Contract(c: Cluster, rounds: seq<Round>) {
    c.Valid() && forall i, from {:trigger rounds[i].server(from)} ::
      0 <= i < |rounds| ==> Serves(c, from, rounds[i].server(from))
  }

  // ---- no decisive state is missed ---------------------------------------------------------------------------

  /** How many changes of the history were heard. */
  function Mutated(signals: seq<Signal>): nat
    decreases |signals|
  {
    if signals == [] then 0
    else (if signals[0].Heard? && signals[0].event.Mutation? then 1 else 0) + Mutated(signals[1..])
  }

  /** What is heard goes on with the history from `cursor`, up to an error frame. */
  ghost predicate Tells(c: Cluster, cursor: nat, signals: seq<Signal>)
    decreases |signals|
  {
    signals != [] ==>
      match signals[0]
      case Heard(Error(_)) => true
      case Heard(Mutation(change)) => cursor < |c.log| && change == c.log[cursor] && Tells(c, cursor + 1, signals[1..])
      case Heard(Bookmark(version)) =>
        version in c.names && c.names[version] == cursor && Tells(c, cursor, signals[1..])
      case Heard(InitialEventsEnd(version)) =>
        version in c.names && c.names[version] == cursor && Tells(c, cursor, signals[1..])
      case _ => true
  }

  lemma {:induction false} ChunkTells(c: Cluster, cursor: nat, events: seq<Event>, rest: seq<Signal>)
    requires Follow(c, cursor, events) && Tells(c, cursor + Mutations(events), rest)
    ensures Tells(c, cursor, HeardAll(events) + rest)
    decreases |events|
  {
    var signals := HeardAll(events) + rest;
    if events == [] {
      assert signals == rest;
    } else {
      assert signals[0] == Heard(events[0]) && signals[1..] == HeardAll(events[1..]) + rest;
      if !events[0].Error? { ChunkTells(c, if events[0].Mutation? then cursor + 1 else cursor, events[1..], rest); }
    }
  }

  lemma {:induction false} TurnsTell(c: Cluster, cursor: nat, turns: seq<Turn>)
    requires ServesTurns(c, cursor, turns)
    ensures Tells(c, cursor, Signals(turns))
    decreases |turns|
  {
    if turns != [] && !turns[0].due {
      match turns[0].arrival
      case Silence => TurnsTell(c, cursor, turns[1..]);
      case Events(events) =>
        TurnsTell(c, cursor + Mutations(events), turns[1..]);
        ChunkTells(c, cursor, events, Signals(turns[1..]));
      case _ =>
    }
  }

  /** Signals that pass by tell of open states, one after the other, and leave a token for where they end. */
  lemma {:induction false} PassingTells(c: Cluster, rule: Rule, cursor: nat, from: Option<Version>,
                                        signals: seq<Signal>, k: nat)
    requires c.Valid() && Tells(c, cursor, signals) && k < |signals| && cursor <= |c.log|
    requires from.Some? && from.value in c.names && c.names[from.value] == cursor
    requires forall i :: 0 <= i < k ==> PassesBy(rule, signals[i])
    ensures var token, at := Token(from, signals[..k]), cursor + Mutated(signals[..k]);
      && token.Some? && token.value in c.names && c.names[token.value] == at <= |c.log|
      && (forall p :: cursor <= p < at ==> StaysOpen(rule, c.log[p]))
      && (signals[k].Heard? && signals[k].event.Mutation? ==> at < |c.log| && signals[k].event.change == c.log[at])
    decreases k
  {
    
    if k > 0 {
      var rest, step := signals[1..], if signals[0].event.Mutation? then 1 else 0;
      assert signals[..k][1..] == rest[..k - 1] && signals[k] == rest[k - 1];
      forall i | 0 <= i < k - 1 ensures PassesBy(rule, rest[i]) { assert rest[i] == signals[i + 1]; }
      PassingTells(c, rule, cursor + step, NextToken(from, signals[0]), rest, k - 1);
    }
  }

  lemma {:induction false} MutatedGrows(signals: seq<Signal>, j: nat, k: nat)
    requires j < k <= |signals| && signals[j].Heard? && signals[j].event.Mutation?
    ensures Mutated(signals[..j]) < Mutated(signals[..k])
    decreases j
  {
    if j > 0 {
      assert signals[..j][1..] == signals[1..][..j - 1] && signals[..k][1..] == signals[1..][..k - 1];
      MutatedGrows(signals[1..], j - 1, k - 1);
    }
  }

  /** A body that brings nothing but history, bookmarks, silence, interruptions, reads that fail, and its end. */
  predicate Gentle(turns: seq<Turn>) {
    forall i :: 0 <= i < |turns| ==>
      && !turns[i].due && !turns[i].arrival.Unreadable?
      && (turns[i].arrival.Events? ==>
            Error(Expired) !in turns[i].arrival.events && Error(Refused) !in turns[i].arrival.events)
  }

  /** The `m`-th change after the position the watch was opened at is delivered before the watch breaks off. */
  ghost predicate Delivers(signals: seq<Signal>, m: int) {
    exists j: nat ::
      && j < |signals| && signals[j].Heard? && signals[j].event.Mutation? && Mutated(signals[..j]) == m
      && forall i :: 0 <= i < j ==> !Reopens(signals[i])
  }

  /** What a body's signals are signals of. */
  lemma {:induction false} SignalsAreBrought(turns: seq<Turn>, signal: Signal)
    requires signal in Signals(turns)
    ensures match signal
      case Heard(event) => exists i :: 0 <= i < |turns| && turns[i].arrival.Events? && event in turns[i].arrival.events
      case Due => exists i :: 0 <= i < |turns| && turns[i].due
      case Garbled => exists i :: 0 <= i < |turns| && turns[i].arrival.Unreadable?
      case Broke => exists i :: 0 <= i < |turns| && turns[i].arrival.Failing?
      case Over => true
    decreases |turns|
  {
    if turns != [] {
      var rest := turns[1..];
      assert forall i :: 0 <= i < |rest| ==> rest[i] == turns[i + 1];
      if !turns[0].due && (turns[0].arrival.Silence? || turns[0].arrival.Events?) {
        if turns[0].arrival.Events? && signal in HeardAll(turns[0].arrival.events) {
          assert signal.Heard? && signal.event in turns[0].arrival.events;
        } else {
          SignalsAreBrought(rest, signal);
        }
      }
    }
  }

  /** The position of the history that each watch was opened at: none is past an open stretch of it. */
  lemma {:induction false} AskedInOrder(c: Cluster, rule: Rule, rounds: seq<Round>, last: Evaluation,
                                        from: Option<Version>, verified: Verified, chronicle: Chronicle, d: nat, m: nat)
    requires Contract(c, rounds) && Chronicled(rule, rounds, last, from, verified, chronicle) && m < |chronicle.asked|
    requires from.Some? && from.value in c.names && c.names[from.value] <= d < |c.log| && !StaysOpen(rule, c.log[d])
    ensures chronicle.asked[m].Some? && chronicle.asked[m].value in c.names && c.names[chronicle.asked[m].value] <= d
    ensures c.names[from.value] <= c.names[chronicle.asked[m].value]
    decreases m
  {
    hide Serves, PassesBy, Concludes, Signals, Token, Latest, Mutated;
    if m > 0 {
      AskedInOrder(c, rule, rounds, last, from, verified, chronicle, d, m - 1);
      var before := chronicle.asked[m - 1];
      assert Continues(rule, rounds[m - 1], before, chronicle.lasts[m - 1], chronicle.asked[m], chronicle.lasts[m]);
      var signals := Signals(rounds[m - 1].server(before).turns);
      var k: nat :| ActsAt(rule, signals, k) && Reopens(signals[k]) && chronicle.asked[m] == Token(before, signals[..k])
        && chronicle.lasts[m] == Latest(rule, chronicle.lasts[m - 1], signals[..k]);
      WatchTells(c, rule, rounds, m - 1, before, k);
    }
  }

  /** One watch, up to the first signal to act on. */
  lemma WatchTells(c: Cluster, rule: Rule, rounds: seq<Round>, m: nat, from: Option<Version>, k: nat)
    requires Contract(c, rounds) && m < |rounds| && rounds[m].server(from).Response?
    requires from.Some? && from.value in c.names
    requires ActsAt(rule, Signals(rounds[m].server(from).turns), k)
    ensures var signals, cursor := Signals(rounds[m].server(from).turns), c.names[from.value];
      var token, at := Token(from, signals[..k]), cursor + Mutated(signals[..k]);
      && token.Some? && token.value in c.names && c.names[token.value] == at <= |c.log|
      && (forall p :: cursor <= p < at ==> StaysOpen(rule, c.log[p]))
      && (signals[k].Heard? && signals[k].event.Mutation? ==> at < |c.log| && signals[k].event.change == c.log[at])
  {
    hide PassesBy, Signals, Token, Mutated;
    var response := rounds[m].server(from);
    assert Serves(c, from, response);
    TurnsTell(c, response.at, response.turns);
    PassingTells(c, rule, response.at, from, Signals(response.turns), k);
  }

  /** A watch that delivers a state that decides the rule, and nothing before it that ends the verification, is
      not opened again. */
  lemma DeliveredEnds(c: Cluster, rule: Rule, signals: seq<Signal>, cursor: nat, k: nat, d: nat)
    requires ActsAt(rule, signals, k) && Reopens(signals[k])
    requires cursor <= d < |c.log| && Decisive(rule, c.log[d])
    requires cursor + Mutated(signals[..k]) <= |c.log|
    requires forall p :: cursor <= p < cursor + Mutated(signals[..k]) ==> StaysOpen(rule, c.log[p])
    ensures !Delivers(signals, d - cursor)
  {
    hide Mutated;
    if Delivers(signals, d - cursor) {
      var j: nat :| j < |signals| && signals[j].Heard? && signals[j].event.Mutation?
        && Mutated(signals[..j]) == d - cursor
        && forall i :: 0 <= i < j ==> !Reopens(signals[i]);
      assert j < k;
      MutatedGrows(signals, j, k);
    }
  }

  /** A round that is not cut short, on a watch that was opened and brings nothing but history. */
  ghost predicate Undisturbed(round: Round, from: Option<Version>) {
    Opened(round, round.server(from)) && Gentle(round.server(from).turns)
  }

  /** What such a round can end with. */
  lemma GentleEnds(rule: Rule, round: Round, from: Option<Version>, last: Evaluation, verified: Verified)
    returns (k: nat)
    requires Undisturbed(round, from) && Concludes(rule, round, from, last, verified)
    ensures var signals := Signals(round.server(from).turns);
      && ActsAt(rule, signals, k) && signals[k].Heard? && signals[k].event.Mutation?
      && match verified
         case Decided(on) =>
           Decisive(rule, signals[k].event.change) && on == Evaluate(rule, signals[k].event.change.item)
         case Unfinished(why, _) => signals[k].event.change.what == Deleted
         case Cancelled => false
  {
    hide PassesBy, Signals, Latest, WindowEnded;
    var signals := Signals(round.server(from).turns);
    assert Finishes(rule, signals, last, verified);
    k :| ActsAt(rule, signals, k) &&
      match verified
      case Decided(on) =>
        && signals[k].Heard? && signals[k].event.Mutation?
        && Decisive(rule, signals[k].event.change) && on == Evaluate(rule, signals[k].event.change.item)
      case Unfinished(why, evidence) =>
        evidence == Latest(rule, last, signals[..k]) && Stops(signals[k], evidence, why)
      case Cancelled => false;
    SignalsAreBrought(round.server(from).turns, signals[k]);
  }

  /** The state of the history that first decides the rule, no deletion before it, is what the verification
      answers, whenever it is delivered: if no round up to the `i`-th is cut short, refused or torn, and the
      `i`-th, should it come to that, delivers the state. The watches before may close, stall or break off as
      often as they like. */
  lemma DecidedWhenDelivered(c: Cluster, rule: Rule, rounds: seq<Round>, last: Evaluation, from: Option<Version>,
                             verified: Verified, chronicle: Chronicle, d: nat, i: nat)
    requires Contract(c, rounds) && Chronicled(rule, rounds, last, from, verified, chronicle) && i < |rounds|
    requires from.Some? && from.value in c.names && c.names[from.value] <= d < |c.log|
    requires Decisive(rule, c.log[d]) && forall p :: c.names[from.value] <= p < d ==> StaysOpen(rule, c.log[p])
    requires forall m :: 0 <= m <= i && m < |chronicle.asked| ==> Undisturbed(rounds[m], chronicle.asked[m])
    requires
      i < |chronicle.asked| && chronicle.asked[i].Some? && chronicle.asked[i].value in c.names
      && chronicle.Response(rounds, i).Response? ==>
      Delivers(Signals(chronicle.Response(rounds, i).turns), d - c.names[chronicle.asked[i].value])
    ensures verified == Decided(Evaluate(rule, c.log[d].item))
  {
    hide Serves, PassesBy, Signals, Token, Latest, Mutated, Delivers, Gentle, Concludes;
    var n := |chronicle.asked| - 1;
    if n > i {
      AskedInOrder(c, rule, rounds, last, from, verified, chronicle, d, i);
      var asked := chronicle.asked[i];
      assert Continues(rule, rounds[i], asked, chronicle.lasts[i], chronicle.asked[i + 1], chronicle.lasts[i + 1]);
      var signals := Signals(rounds[i].server(asked).turns);
      var k: nat :| ActsAt(rule, signals, k) && Reopens(signals[k])
        && chronicle.asked[i + 1] == Token(asked, signals[..k])
        && chronicle.lasts[i + 1] == Latest(rule, chronicle.lasts[i], signals[..k]);
      WatchTells(c, rule, rounds, i, asked, k);
      DeliveredEnds(c, rule, signals, c.names[asked.value], k, d);
      assert false;
    }
    AskedInOrder(c, rule, rounds, last, from, verified, chronicle, d, n);
    var k := GentleEnds(rule, rounds[n], chronicle.asked[n], chronicle.lasts[n], verified);
    WatchTells(c, rule, rounds, n, chronicle.asked[n], k);
    var at := c.names[chronicle.asked[n].value] + Mutated(Signals(rounds[n].server(chronicle.asked[n]).turns)[..k]);
    assert at == d;
  }

  /** And it gives up for no other cause than the one it names. */
  lemma ReasonsHaveCauses(rule: Rule, rounds: seq<Round>, last: Evaluation, from: Option<Version>,
                          verified: Verified, chronicle: Chronicle)
    requires Chronicled(rule, rounds, last, from, verified, chronicle) && !verified.Decided?
    ensures var n := |chronicle.asked| - 1;
      if n == |rounds| then verified.Unfinished? && OutOfTime(verified)
      else CausedBy(rounds[n], chronicle.Response(rounds, n), verified)
  {
    hide PassesBy, Signals, Latest;
    var n := |chronicle.asked| - 1;
    if n < |rounds| && Opened(rounds[n], chronicle.Response(rounds, n)) {
      var signals := Signals(chronicle.Response(rounds, n).turns);
      assert Finishes(rule, signals, chronicle.lasts[n], verified);
      var k: nat :| ActsAt(rule, signals, k) && verified.evidence == Latest(rule, chronicle.lasts[n], signals[..k])
        && Stops(signals[k], verified.evidence, verified.why);
      SignalsAreBrought(chronicle.Response(rounds, n).turns, signals[k]);
    }
  }

  /** The word for a window that ended says how far the newest evaluation got. */
  predicate OutOfTime(verified: Verified)
    requires verified.Unfinished?
  {
    var reached := verified.evidence.finding.reached;
    match verified.why
    case WindowExpired => reached == None
    case GenerationNotObserved => reached in {Some(ApiAccepted), Some(SpecObserved)}
    case ConditionsInconclusive => reached in {Some(GenerationObserved), Some(StatusConverged), Some(ExternallyHealthy)}
    case _ => false
  }

  /** Some event of the body is this one. */
  predicate Brings(turns: seq<Turn>, event: Event) {
    exists i :: 0 <= i < |turns| && turns[i].arrival.Events? && event in turns[i].arrival.events
  }

  ghost predicate BringsDeletion(turns: seq<Turn>) {
    exists item :: Brings(turns, Mutation(Change(Deleted, item)))
  }

  ghost predicate CausedBy(round: Round, response: Response, verified: Verified)
    requires !verified.Decided?
  {
    var watched := Opened(round, response);
    match verified
    case Cancelled => round.cancelled || (response.Unreachable? && round.cutShort)
    case Unfinished(why, _) =>
      match why
      case TargetGone => watched && BringsDeletion(response.turns)
      case WatchGap =>
        response.Response? && (response.status == 410 || (watched && Brings(response.turns, Error(Expired))))
      case WatchDenied =>
        response.Response? && (response.status in {401, 403} || (watched && Brings(response.turns, Error(Refused))))
      case TypeNotServed => response.Response? && response.status == 404
      case RequestFailed =>
        if response.Unreachable? then !round.cutShort else response.status !in {200, 401, 403, 404, 410}
      case PartialCoverage => watched && exists i :: 0 <= i < |response.turns| && response.turns[i].arrival.Unreadable?
      case _ =>
        && OutOfTime(verified)
        && (round.expired || (watched && exists i :: 0 <= i < |response.turns| && response.turns[i].due))
  }

  // ---- what an evaluation history is --------------------------------------------------------------------

  /** The states of the target in `log`. */
  function States(log: seq<Change>): seq<Object> {
    seq(|log|, i requires 0 <= i < |log| => log[i].item)
  }

  ghost predicate Undecided(rule: Rule, items: seq<Object>) {
    forall i :: 0 <= i < |items| ==> !IsDecided(rule(items[i]))
  }

  /** `items` are the states the target went through after the first `start` changes, one after the
      other, while it existed. */
  ghost predicate Window(c: Cluster, start: nat, items: seq<Object>) {
    && start + |items| <= |c.log|
    && items == States(c.log[start..start + |items|])
    && forall i :: start <= i < start + |items| ==> c.log[i].what != Deleted
  }

  ghost function Newest(rule: Rule, items: seq<Object>): Option<Evaluation> {
    if items == [] then None else Some(Evaluate(rule, items[|items| - 1]))
  }

  lemma WindowGrows(c: Cluster, start: nat, items: seq<Object>, next: Object)
    requires Window(c, start, items) && start + |items| < |c.log|
    requires c.log[start + |items|].item == next && c.log[start + |items|].what != Deleted
    ensures Window(c, start, items + [next])
  {
    var n := start + |items|;
    assert c.log[start..n + 1] == c.log[start..n] + [c.log[n]];
  }

  lemma NoWindow(c: Cluster, start: nat)
    requires start <= |c.log|
    ensures Window(c, start, [])
  {
  }

  lemma WindowsJoin(c: Cluster, start: nat, a: seq<Object>, b: seq<Object>)
    requires Window(c, start, a) && Window(c, start + |a|, b)
    ensures Window(c, start, a + b)
  {
    assert c.log[start..start + |a + b|] == c.log[start..start + |a|] + c.log[start + |a|..start + |a| + |b|];
  }

  /** What a round's outcome says of the states it evaluated. */
  ghost predicate Accounts(c: Cluster, rule: Rule, start: nat, watched: Watched, items: seq<Object>) {
    && Window(c, start, items)
    && (match watched
        case Settled(on) =>
          items != [] && Some(on) == Newest(rule, items) && IsDecided(on.finding)
          && Undecided(rule, items[..|items| - 1])
        case Stuck(why, seen) =>
          Undecided(rule, items) && seen == Newest(rule, items)
          && (why == TargetGone ==> start + |items| < |c.log| && c.log[start + |items|].what == Deleted)
        case Reopen(_, seen) => Undecided(rule, items) && seen == Newest(rule, items))
  }

  // ---- the two loops --------------------------------------------------------------------------------------

  lemma EvaluatedNext(rule: Rule, items: seq<Object>, item: Object)
    requires Undecided(rule, items)
    ensures Newest(rule, items + [item]) == Some(Evaluate(rule, item))
    ensures !IsDecided(rule(item)) ==> Undecided(rule, items + [item])
  {
    hide IsDecided;
  }

  lemma SettledHere(c: Cluster, rule: Rule, start: nat, items: seq<Object>, item: Object)
    requires Window(c, start, items + [item]) && Undecided(rule, items) && IsDecided(rule(item))
    ensures Accounts(c, rule, start, Settled(Evaluate(rule, item)), items + [item])
  {
    hide Window;
    assert (items + [item])[..|items|] == items;
  }

  lemma LeftHere(c: Cluster, rule: Rule, start: nat, items: seq<Object>, watched: Watched)
    requires Window(c, start, items) && Undecided(rule, items) && !watched.Settled?
    requires watched.seen == Newest(rule, items)
    requires watched.Stuck? && watched.why == TargetGone ==>
      start + |items| < |c.log| && c.log[start + |items|].what == Deleted
    ensures Accounts(c, rule, start, watched, items)
  {
  }

  /** One chunk of a round: the next state of the loop, or the way out of it. */
  method Chunk(rule: Rule, events: seq<Event>, checkpoint0: Option<Version>, seen0: Option<Evaluation>,
               ghost c: Cluster, ghost start: nat, ghost items0: seq<Object>)
    returns (checkpoint: Option<Version>, seen: Option<Evaluation>, out: Option<Watched>, ghost items: seq<Object>)
    requires c.Valid() && Window(c, start, items0) && Undecided(rule, items0) && seen0 == Newest(rule, items0)
    requires checkpoint0.Some? ==> checkpoint0.value in c.names && c.names[checkpoint0.value] == start + |items0|
    requires Follow(c, start + |items0|, events)
    ensures items0 <= items
    ensures ChunkEnd(rule, events, checkpoint0, seen0) == if out.Some? then Out(out.value) else On(checkpoint, seen)
    ensures out.Some? ==> Accounts(c, rule, start, out.value, items)
    ensures out.Some? && out.value.Reopen? && checkpoint0.Some? ==> out.value.checkpoint.Some?
    ensures out.Some? && out.value.Reopen? && out.value.checkpoint.Some? ==>
              out.value.checkpoint.value in c.names && c.names[out.value.checkpoint.value] == start + |items|
    ensures out.None? ==> Window(c, start, items) && Undecided(rule, items) && seen == Newest(rule, items)
    ensures out.None? ==> |items| == |items0| + Mutations(events)
    ensures out.None? && checkpoint0.Some? ==> checkpoint.Some?
    ensures out.None? && checkpoint.Some? ==>
      checkpoint.value in c.names && c.names[checkpoint.value] == start + |items|
  {
    hide Window, Undecided, Newest, Accounts;
    checkpoint, seen, out, items := checkpoint0, seen0, None, items0;
    var j := 0;
    while j < |events|
      invariant 0 <= j <= |events| && items0 <= items
      invariant Window(c, start, items) && Undecided(rule, items) && seen == Newest(rule, items)
      invariant ChunkEnd(rule, events, checkpoint0, seen0) == ChunkEnd(rule, events[j..], checkpoint, seen)
      invariant Follow(c, start + |items|, events[j..])
      invariant |items| + Mutations(events[j..]) == |items0| + Mutations(events)
      invariant checkpoint0.Some? ==> checkpoint.Some?
      invariant checkpoint.Some? ==> checkpoint.value in c.names && c.names[checkpoint.value] == start + |items|
    {
      assert events[j..][0] == events[j] && events[j..][1..] == events[j + 1..];
      match events[j] {
        case Mutation(change) =>
          if change.what == Deleted {
            out := Some(Stuck(TargetGone, seen));
            LeftHere(c, rule, start, items, out.value);
            return;
          }
          WindowGrows(c, start, items, change.item);
          EvaluatedNext(rule, items, change.item);
          if change.item.version.Some? { checkpoint := change.item.version; }
          var verification := Evaluate(rule, change.item);
          ghost var before := items;
          items := items + [change.item];
          if IsDecided(verification.finding) {
            SettledHere(c, rule, start, before, change.item);
            out := Some(Settled(verification));
            return;
          }
          seen := Some(verification);
        case Bookmark(version) => checkpoint := Some(version);
        case InitialEventsEnd(version) => checkpoint := Some(version);
        case Error(Expired) =>
          out := Some(Stuck(WatchGap, seen));
          LeftHere(c, rule, start, items, out.value);
          return;
        case Error(Refused) =>
          out := Some(Stuck(WatchDenied, seen));
          LeftHere(c, rule, start, items, out.value);
          return;
        case Error(Interrupted) =>
          out := Some(Reopen(checkpoint, seen));
          LeftHere(c, rule, start, items, out.value);
          return;
      }
      j := j + 1;
    }
  }

  lemma NothingYet(rule: Rule)
    ensures Undecided(rule, []) && Newest(rule, []) == None
  {
  }

  /** One watch over the target, read until the rule is decided, the body ends or the window does. */
  method Run(rule: Rule, from: Option<Version>, last: Evaluation, response: Response, ghost c: Cluster)
    returns (watched: Watched, ghost items: seq<Object>)
    requires c.Valid() && response.Response? && Serves(c, from, response) && response.at <= |c.log|
    requires from.Some? ==> from.value in c.names
    ensures watched == RoundEnd(rule, from, last, response)
    ensures Accounts(c, rule, response.at, watched, items)
    ensures watched.Reopen? && from.Some? ==> watched.checkpoint.Some?
    ensures watched.Reopen? && watched.checkpoint.Some? ==>
              watched.checkpoint.value in c.names && c.names[watched.checkpoint.value] == response.at + |items|
  {
    hide Window, ChunkEnd, Follow, Mutations, IsDecided, Newest, Undecided;
    NoWindow(c, response.at);
    NothingYet(rule);
    items := [];
    match response.status {
      case 200 =>
      case 410 => watched := Stuck(WatchGap, None); return;
      case 401 => watched := Stuck(WatchDenied, None); return;
      case 403 => watched := Stuck(WatchDenied, None); return;
      case 404 => watched := Stuck(TypeNotServed, None); return;
      case _ => watched := Stuck(RequestFailed, None); return;
    }
    var checkpoint, seen := from, None;
    var i := 0;
    while i < |response.turns|
      invariant 0 <= i <= |response.turns|
      invariant Window(c, response.at, items) && Undecided(rule, items) && seen == Newest(rule, items)
      invariant ServesTurns(c, response.at + |items|, response.turns[i..])
      invariant TurnsEnd(rule, response.turns, last, from, None) ==
        TurnsEnd(rule, response.turns[i..], last, checkpoint, seen)
      invariant from.Some? ==> checkpoint.Some?
      invariant checkpoint.Some? ==> checkpoint.value in c.names && c.names[checkpoint.value] == response.at + |items|
    {
      var turn := response.turns[i];
      assert response.turns[i..][0] == turn && response.turns[i..][1..] == response.turns[i + 1..];
      if turn.due {
        watched := Stuck(WindowEnded(Or(seen, last)), seen);
        return;
      }
      match turn.arrival {
        case Unreadable => watched := Stuck(PartialCoverage, seen); return;
        case Silence =>
        case Failing => watched := Reopen(checkpoint, seen); return;
        case Events(events) =>
          var out;
          checkpoint, seen, out, items := Chunk(rule, events, checkpoint, seen, c, response.at, items);
          if out.Some? {
            watched := out.value;
            return;
          }
      }
      i := i + 1;
    }
    watched := Reopen(checkpoint, seen);
  }

  /** Everything the answer of a verification says of the states it evaluated: `polled` in the session's
      cache and then `watched` on watches of its own. `first` is what the write's own read found. */
  ghost predicate Answers(rule: Rule, first: Evaluation, verified: Verified,
                          polled: seq<Object>, watched: seq<Object>)
  {
    var all := polled + watched;
    match verified
    case Cancelled => Undecided(rule, all)
    case Decided(on) =>
      all != [] && Some(on) == Newest(rule, all) && IsDecided(on.finding) && Undecided(rule, all[..|all| - 1])
    case Unfinished(_, evidence) => Undecided(rule, all) && evidence == Or(Newest(rule, all), first)
  }

  /** The session's own watch, polled while it is live. */
  method PollCache(rule: Rule, first: Evaluation, polls: seq<Poll>)
    returns (last: Evaluation, verified: Option<Verified>, ghost polled: seq<Object>)
    ensures PollsEnd(rule, polls, first) == if verified.Some? then Answered(verified.value) else GoOn(last)
    ensures last == Or(Newest(rule, polled), first)
    ensures verified.None? ==> Undecided(rule, polled)
    ensures verified.Some? ==> Answers(rule, first, verified.value, polled, [])
  {
    last, verified, polled := first, None, [];
    for i := 0 to |polls|
      invariant last == Or(Newest(rule, polled), first) && Undecided(rule, polled)
      invariant verified.None? && PollsEnd(rule, polls, first) == PollsEnd(rule, polls[i..], last)
    {
      assert polled + [] == polled;
      assert polls[i..][0] == polls[i] && polls[i..][1..] == polls[i + 1..];
      if polls[i].cancelled { verified := Some(Cancelled); return; }
      if !polls[i].live { return; }
      match polls[i].looked {
        case NotServed =>
        case ConfirmedAbsent => verified := Some(Unfinished(TargetGone, last)); return;
        case Found(item) =>
          var verification := Evaluate(rule, item);
          polled := polled + [item];
          assert polled + [] == polled;
          last := verification;
          if IsDecided(verification.finding) {
            verified := Some(Decided(verification));
            return;
          }
      }
      if polls[i].due { verified := Some(Unfinished(WindowEnded(last), last)); return; }
    }
  }

  predicate SaysGone(verified: Verified) {
    verified.Unfinished? && verified.why == TargetGone
  }

  /** The history goes on with a deletion of the target: right after the evaluated states, where they are
      known to follow the observed version. */
  ghost predicate GoneAfter(c: Cluster, observed: Option<Version>, watched: seq<Object>) {
    exists at: nat :: at < |c.log| && c.log[at].what == Deleted
      && (observed.Some? && observed.value in c.names ==> at == c.names[observed.value] + |watched|)
  }

  lemma GoneIsSeen(c: Cluster, rule: Rule, observed: Option<Version>, watched: seq<Object>,
                   start: nat, items: seq<Object>,
                   seen: Option<Evaluation>)
    requires Accounts(c, rule, start, Stuck(TargetGone, seen), items)
    requires observed.Some? && observed.value in c.names ==> start == c.names[observed.value] + |watched|
    ensures GoneAfter(c, observed, watched + items)
  {
    hide Window, Undecided, Newest;
    var at := start + |items|;
    assert c.log[at].what == Deleted;
  }

  /** Where the loop over rounds stands: nothing decided, and the newest evaluation at hand. */
  ghost predicate Waiting(rule: Rule, first: Evaluation, last: Evaluation, polled: seq<Object>, watched: seq<Object>) {
    last == Or(Newest(rule, polled + watched), first) && Undecided(rule, polled + watched)
  }

  lemma RoundOver(c: Cluster, rule: Rule, first: Evaluation, last: Evaluation,
                  polled: seq<Object>, watched: seq<Object>,
                  outcome: Watched, start: nat, items: seq<Object>)
    requires Waiting(rule, first, last, polled, watched) && Accounts(c, rule, start, outcome, items)
    ensures Answers(rule, first, Conclude(outcome, last), polled, watched + items)
    ensures outcome.Reopen? ==> Waiting(rule, first, Or(outcome.seen, last), polled, watched + items)
  {
    var all := polled + watched;
    assert polled + (watched + items) == all + items;
    if items == [] {
      assert all + items == all;
    } else {
      assert (all + items)[..|all + items| - 1] == all + items[..|items| - 1];
    }
  }

  /** Polls the session's cache while its watch is live, then watches the target from the version the
      write's own read observed, until the rule is decided or the window ends.

      The states evaluated on the watches, over every round and every reopening, are the target's history
      after that version, none skipped and none repeated; the verdict is the first decisive one; and an
      unfinished answer cites the newest evaluation there is. */
  method Converge(rule: Rule, first: Evaluation, observed: Option<Version>, polls: seq<Poll>, rounds: seq<Round>,
                  ghost c: Cluster)
    returns (verified: Verified, ghost polled: seq<Object>, ghost watched: seq<Object>)
    requires Contract(c, rounds)
    requires observed.Some? ==> observed.value in c.names
    requires forall i, from {:trigger rounds[i].server(from)} ::
               0 <= i < |rounds| && rounds[i].server(from).Response? ==> rounds[i].server(from).at <= |c.log|
    ensures verified == Answer(rule, first, observed, polls, rounds)
    ensures Answers(rule, first, verified, polled, watched)
    ensures observed.Some? ==> Window(c, c.names[observed.value], watched)
    ensures SaysGone(verified) ==>
      PollsEnd(rule, polls, first).Answered? || GoneAfter(c, observed, watched)
    ensures match PollsEnd(rule, polls, first)
      case Answered(early) => verified == early
      case GoOn(last) => exists chronicle :: Chronicled(rule, rounds, last, observed, verified, chronicle)
  {
    hide Undecided, Newest, Window, ServesTurns, Chronicled;
    watched := [];
    var last, early;
    last, early, polled := PollCache(rule, first, polls);
    assert polled + [] == polled;
    if observed.Some? { NoWindow(c, c.names[observed.value]); }
    if early.Some? {
      verified := early.value;
      return;
    }
    ghost var chronicle := RoundsChronicled(rule, rounds, last, observed);
    var from := observed;
    var i := 0;
    while i < |rounds|
      invariant 0 <= i <= |rounds|
      invariant Waiting(rule, first, last, polled, watched)
      invariant Answer(rule, first, observed, polls, rounds) == RoundsEnd(rule, rounds[i..], last, from)
      invariant from.Some? ==> from.value in c.names
      invariant observed.Some? ==>
                  from.Some? && Window(c, c.names[observed.value], watched)
                  && c.names[from.value] == c.names[observed.value] + |watched|
    {
      assert rounds[i..][0] == rounds[i] && rounds[i..][1..] == rounds[i + 1..];
      if rounds[i].cancelled { return Cancelled, polled, watched; }
      if rounds[i].expired { return Unfinished(WindowEnded(last), last), polled, watched; }
      var response := rounds[i].server(from);
      if response.Unreachable? {
        if rounds[i].cutShort { return Cancelled, polled, watched; }
        return Unfinished(RequestFailed, last), polled, watched;
      }
      var outcome; ghost var items;
      outcome, items := Run(rule, from, last, response, c);
      RoundOver(c, rule, first, last, polled, watched, outcome, response.at, items);
      if observed.Some? { WindowsJoin(c, c.names[observed.value], watched, items); }
      ghost var before := watched;
      watched := watched + items;
      match outcome {
        case Settled(on) => return Decided(on), polled, watched;
        case Stuck(why, seen) =>
          if why == TargetGone { GoneIsSeen(c, rule, observed, before, response.at, items, seen); }
          return Unfinished(why, Or(seen, last)), polled, watched;
        case Reopen(checkpoint, seen) =>
          last := Or(seen, last);
          if checkpoint.Some? { from := checkpoint; }
      }
      i := i + 1;
    }
    verified := Unfinished(WindowEnded(last), last);
  }

  /** So a verdict reached on the watch is about the first decisive state the target went through after
      the read: every state before it in the history was evaluated and left the question open. */
  lemma FirstDecisive(c: Cluster, rule: Rule, first: Evaluation, verified: Verified, start: nat,
                      polled: seq<Object>, watched: seq<Object>)
    requires Answers(rule, first, verified, polled, watched) && verified.Decided?
    requires Window(c, start, watched) && watched != []
    ensures var at := start + |watched| - 1;
            && verified.on == Evaluate(rule, c.log[at].item) && IsDecided(rule(c.log[at].item))
            && forall i :: start <= i < at ==> !IsDecided(rule(c.log[i].item))
  {
    var all := polled + watched;
    assert watched[|watched| - 1] == c.log[start..start + |watched|][|watched| - 1].item;
    forall i | start <= i < start + |watched| - 1 ensures !IsDecided(rule(c.log[i].item)) {
      assert all[..|all| - 1][|polled| + (i - start)] == watched[i - start]
          == c.log[start..start + |watched|][i - start].item;
    }
  }
}
