/** A streamed listing: pages are read one after another, each handed on as records before the next is
    asked for (transport.rs `Client::walk`, query.rs `Streamed`, `read`). */
module Listing {
  import opened Kube

  type Item = string

  datatype Page = Page(objects: seq<Item>, version: Option<Version>, token: Option<string>)

  datatype Failure = Failure(retryable: bool, unauthenticated: bool, expired: bool, code: Option<nat>)

  /** One turn of the environment: the ledger refuses the request, the server answers a page the ledger can
      or cannot afford, or the request fails, and the invocation may be cancelled at that moment or while
      waiting to try again. */
  datatype Turn =
    | OverBudget
    | Answered(page: Page, affordable: bool)
    | Broke(failure: Failure, cancelled: bool, cancelledWaiting: bool)

  datatype Ask = Ask(token: Option<string>, turn: Turn)

  datatype Emission = Taken | Cancelled | Rejected

  /** A record, and whether it says that more remains upstream. */
  datatype Record = Record(item: Item, more: bool)

  datatype Outcome = Completed | CancelledOut | Failed

  datatype Next = Continue | Stop

  const FATAL := Broke(Failure(false, false, false, None), false, false)

  class Host {
    var turns: seq<Turn>
    var asks: seq<Ask>

    constructor (turns: seq<Turn>)
      ensures this.turns == turns && asks == []
    {
      this.turns, asks := turns, [];
    }

    /** One request; a host with nothing more to say is a connection that broke. */
    method Send(token: Option<string>) returns (turn: Turn)
      modifies this
      ensures asks == old(asks) + [Ask(token, turn)]
      ensures if old(turns) == [] then turn == FATAL && turns == []
              else turn == old(turns)[0] && turns == old(turns)[1..]
    {
      if turns == [] {
        turn := FATAL;
      } else {
        turn, turns := turns[0], turns[1..];
      }
      asks := asks + [Ask(token, turn)];
    }
  }

  // ---- the reader -------------------------------------------------------------------------------------------

  /** Whether the stream is about to stop with results still upstream, on its `n`-th page. */
  predicate LastOfBudget(page: Page, n: nat, budget: Option<nat>) {
    page.token.Some? && budget.Some? && n >= budget.value
  }

  function Marked(objects: seq<Item>, more: bool): (records: seq<Record>)
    ensures |records| == |objects|
    ensures forall i :: 0 <= i < |objects| ==> records[i] == Record(objects[i], more)
  {
    seq(|objects|, i requires 0 <= i < |objects| => Record(objects[i], more))
  }

  /** The records of a run of pages: every object, in order, marked by its page. */
  function Records(pages: seq<Page>, budget: Option<nat>): seq<Record>
    decreases |pages|
  {
    if pages == [] then []
    else
      var last := pages[|pages| - 1];
      Records(pages[..|pages| - 1], budget) + Marked(last.objects, LastOfBudget(last, |pages|, budget))
  }

  lemma RecordsNext(pages: seq<Page>, page: Page, budget: Option<nat>)
    ensures Records(pages + [page], budget) ==
      Records(pages, budget) + Marked(page.objects, LastOfBudget(page, |pages| + 1, budget))
  {
    assert (pages + [page])[..|pages|] == pages;
  }

  const RETRY_ALLOWANCE: nat := 3

  /** How many of the next `n` emissions are taken before one is not. */
  function TakenOf(emissions: nat -> Emission, from: nat, n: nat): (k: nat)
    ensures k <= n
    decreases n
  {
    if n == 0 || !emissions(from).Taken? then 0 else 1 + TakenOf(emissions, from + 1, n - 1)
  }

  class Streamed {
    const pageBudget: Option<nat>
    const emissions: nat -> Emission

    var pages: nat
    var attempts: nat
    var stopped: Option<Outcome>
    var records: seq<Record>
    var offered: nat
    ghost var accepted: seq<Page>
    ghost var short: bool

    /** What was emitted is, in order, the records of the pages that were accepted; all of them, unless the
        last page was cut short. */
    ghost predicate Valid()
      reads this
    {
      && pages == |accepted| && attempts <= RETRY_ALLOWANCE
      && records <= Records(accepted, pageBudget)
      && (!short ==> records == Records(accepted, pageBudget))
      && (short ==> stopped.Some? && accepted != [])
      && stopped != Some(Completed)
    }

    constructor (pageBudget: Option<nat>, emissions: nat -> Emission)
      ensures Valid() && !short && accepted == [] && stopped == None && records == []
      ensures attempts == 0 && offered == 0
      ensures this.pageBudget == pageBudget && this.emissions == emissions
    {
      this.pageBudget, this.emissions := pageBudget, emissions;
      pages, attempts, stopped, records, offered, accepted, short := 0, 0, None, [], 0, [], false;
    }

    method TakePage(page: Page) returns (next: Next)
      requires Valid() && !short
      modifies this
      ensures Valid() && accepted == old(accepted) + [page]
      ensures var k := TakenOf(emissions, old(offered), |page.objects|);
        && records == old(records) + Marked(page.objects, LastOfBudget(page, old(pages) + 1, pageBudget))[..k]
        && short == (k < |page.objects|) && next == (if short then Stop else Continue)
        && stopped == (if !short then old(stopped)
                       else Some(if emissions(old(offered) + k).Cancelled? then CancelledOut else Failed))
        && attempts == (if short then old(attempts) else 0) && offered == old(offered) + k
        && (short ==> !emissions(offered).Taken?)
    {
      hide LastOfBudget, TakenOf, Marked, Records;
      ghost var before := accepted;
      RecordsNext(before, page, pageBudget);
      pages := pages + 1;
      accepted := accepted + [page];
      var more := LastOfBudget(page, pages, pageBudget);
      var k := Emit(page.objects, more);
      short := k < |page.objects|;
      if k < |page.objects| { return Stop; }
      assert Marked(page.objects, more)[..k] == Marked(page.objects, more);
      attempts := 0;
      return Continue;
    }

    /** Hands the objects of a page to the host one by one, until it takes no more. */
    method Emit(objects: seq<Item>, more: bool) returns (k: nat)
      modifies this`records, this`offered, this`stopped
      ensures k == TakenOf(emissions, old(offered), |objects|) && offered == old(offered) + k
      ensures k < |objects| ==> !emissions(offered).Taken?
      ensures k <= |objects| && records == old(records) + Marked(objects, more)[..k]
      ensures stopped == if k == |objects| then old(stopped)
                         else Some(if emissions(old(offered) + k).Cancelled? then CancelledOut else Failed)
    {
      hide Marked;
      ghost var marked := Marked(objects, more);
      k := 0;
      while k < |objects|
        invariant 0 <= k <= |objects| && stopped == old(stopped)
        invariant records == old(records) + marked[..k] && offered == old(offered) + k
        invariant TakenOf(emissions, old(offered), |objects|) == k + TakenOf(emissions, offered, |objects| - k)
      {
        var emission := emissions(offered);
        if !emission.Taken? {
          stopped := Some(if emission.Cancelled? then CancelledOut else Failed);
          return;
        }
        offered := offered + 1;
        assert marked[..k + 1] == marked[..k] + [Record(objects[k], more)];
        records := records + [Record(objects[k], more)];
        k := k + 1;
      }
    }

    /** Whether a request that failed is sent again. */
    method OnFailure(failure: Failure, cancelled: bool, cancelledWaiting: bool) returns (next: Next)
      requires Valid()
      modifies this`attempts, this`stopped
      ensures Valid()
      ensures var again := !cancelled && failure.retryable && old(attempts) < RETRY_ALLOWANCE;
        && attempts == old(attempts) + (if again then 1 else 0)
        && next == (if again && !cancelledWaiting then Continue else Stop)
        && stopped == (if cancelled || (again && cancelledWaiting) then Some(CancelledOut) else old(stopped))
    {
      if cancelled {
        stopped := Some(CancelledOut);
        return Stop;
      }
      if !failure.retryable || attempts >= RETRY_ALLOWANCE { return Stop; }
      attempts := attempts + 1;
      if cancelledWaiting {
        stopped := Some(CancelledOut);
        return Stop;
      }
      return Continue;
    }
  }

  // ---- one walk ---------------------------------------------------------------------------------------------

  /** What a walk comes back with: whether a gap was recorded, whether the sequence is one snapshot, what
      error ended it, and whether more was known to remain. */
  datatype Walked = Walked(gap: bool, broken: bool, error: Option<Failure>, more: bool)

  const MALFORMED := Failure(false, false, false, None)

  /** The page an ask handed on, if it did: affordable, and not an answer that repeats the token it was
      asked with. */
  function Accepted(ask: Ask): seq<Page> {
    if ask.turn.Answered? && ask.turn.affordable && !(ask.token.Some? && ask.token == ask.turn.page.token)
    then [ask.turn.page] else []
  }

  function AllAccepted(asks: seq<Ask>): seq<Page>
    decreases |asks|
  {
    if asks == [] then [] else AllAccepted(asks[..|asks| - 1]) + Accepted(asks[|asks| - 1])
  }

  /** The request after a page continues from its token; the one after a failure that may be retried is the
      same again, unless the invocation was cancelled; nothing else is followed by a request. */
  ghost predicate Follows(before: Ask, after: Ask) {
    Leads(before, after.token)
  }

  predicate Leads(before: Ask, token: Option<string>) {
    if before.turn.Broke? then
      && token == before.token && before.turn.failure.retryable
      && !before.turn.cancelled && !before.turn.cancelledWaiting
    else Accepted(before) != [] && before.turn.page.token.Some? && token == before.turn.page.token
  }

  /** One walk: from the first page on, each request following the one before. */
  ghost predicate Chained(asks: seq<Ask>) {
    (asks != [] ==> asks[0].token == None) && forall i :: 0 < i < |asks| ==> Follows(asks[i - 1], asks[i])
  }

  /** How many failures there were since the last page, on top of those the reader came with. */
  function Tries(asks: seq<Ask>, before: nat): nat
    decreases |asks|
  {
    if asks == [] then before
    else if asks[|asks| - 1].turn.Broke? then Tries(asks[..|asks| - 1], before) + 1
    else 0
  }

  /** A failure after which the request is not sent again: it is of no kind to retry, or three retries were
      spent on this page, or the invocation was cancelled. */
  predicate GivenUp(ask: Ask, tries: nat) {
    ask.turn.Broke? ==>
      !ask.turn.failure.retryable || tries >= 3 || ask.turn.cancelled || ask.turn.cancelledWaiting
  }

  /** The invocation was cancelled at a failure, or while it waited to try again. */
  predicate CancelledAt(ask: Ask, tries: nat) {
    && ask.turn.Broke?
    && (ask.turn.cancelled || (ask.turn.failure.retryable && tries < 3 && ask.turn.cancelledWaiting))
  }

  /** The turns of these asks are what the host was going to say, in order; and then the connection breaks. */
  predicate AsScripted(asks: seq<Ask>, turns: seq<Turn>) {
    forall i :: 0 <= i < |asks| ==> asks[i].turn == if i < |turns| then turns[i] else FATAL
  }

  /** The versions the pages carry are all the same. */
  ghost predicate OneSnapshot(pages: seq<Page>) {
    forall i, j :: 0 <= i < j < |pages| && pages[i].version.Some? && pages[j].version.Some? ==>
      pages[i].version == pages[j].version
  }

  /** The first version any of the pages carries. */
  function FirstVersion(pages: seq<Page>): Option<Version>
    decreases |pages|
  {
    if pages == [] then None
    else
      var first := FirstVersion(pages[..|pages| - 1]);
      if first.Some? then first else pages[|pages| - 1].version
  }

  /** An answer that repeats the token it was asked with. */
  predicate Repeats(ask: Ask) {
    ask.turn.Answered? && ask.turn.affordable && ask.token.Some? && ask.token == ask.turn.page.token
  }

  /** A page budget that has been reached. */
  predicate Spent(budget: Option<nat>, pages: nat) {
    budget.Some? && pages >= budget.value
  }

  /** The budget was not reached before the `n`-th page. */
  ghost predicate Unspent(budget: Option<nat>, n: nat) {
    forall j :: 1 <= j < n ==> !Spent(budget, j)
  }

  lemma ChainedNext(asks: seq<Ask>, ask: Ask)
    requires Chained(asks) && (if asks == [] then ask.token == None else Follows(asks[|asks| - 1], ask))
    ensures Chained(asks + [ask]) && AllAccepted(asks + [ask]) == AllAccepted(asks) + Accepted(ask)
  {
    var more := asks + [ask];
    assert more[..|asks|] == asks;
    forall i | 0 < i < |more| ensures Follows(more[i - 1], more[i]) {
      if i < |asks| { assert Follows(asks[i - 1], asks[i]); }
    }
  }

  /** How a finished walk stands to the asks it made and to what the reader made of them. */
  ghost predicate Finished(walk: seq<Ask>, accepted: seq<Page>, budget: Option<nat>, stopped: bool, walked: Walked) {
    && walk != [] && Chained(walk) && accepted == AllAccepted(walk)
    && Unspent(budget, |accepted|)
    && var last := walk[|walk| - 1];
      // anything but an accepted page at the end is a gap, and an accepted page ends a walk only if it has no
      // successor, uses up the budget or was not taken whole
      && (walked.gap <==> Accepted(last) == [])
      && (walked.more <==> Accepted(last) != [] && last.turn.page.token.Some?)
      && (walked.more ==> stopped || Spent(budget, |accepted|))
      && (walked.broken <==>
            !OneSnapshot(accepted) || Repeats(last) || (last.turn.Broke? && last.turn.failure.expired))
      && walked.error ==
        (if last.turn.Broke? then Some(last.turn.failure) else if Repeats(last) then Some(MALFORMED) else None)
  }

  lemma {:induction false} FirstVersionIs(pages: seq<Page>)
    ensures FirstVersion(pages).None? ==> forall i :: 0 <= i < |pages| ==> pages[i].version.None?
    ensures FirstVersion(pages).Some? ==> exists i :: 0 <= i < |pages| && pages[i].version == FirstVersion(pages)
    decreases |pages|
  {
    if pages != [] {
      FirstVersionIs(pages[..|pages| - 1]);
      assert pages[..|pages| - 1] + [pages[|pages| - 1]] == pages;
      assert FirstVersion(pages[..|pages| - 1]).None? ==> FirstVersion(pages) == pages[|pages| - 1].version;
    }
  }

  lemma FirstVersionNext(pages: seq<Page>, page: Page)
    ensures FirstVersion(pages + [page]) == if FirstVersion(pages).Some? then FirstVersion(pages) else page.version
  {
    assert (pages + [page])[..|pages|] == pages;
  }

  lemma SnapshotGoesOn(pages: seq<Page>, page: Page)
    requires OneSnapshot(pages)
    requires FirstVersion(pages).None? || page.version.None? || page.version == FirstVersion(pages)
    ensures OneSnapshot(pages + [page])
  {
    hide FirstVersion;
    FirstVersionIs(pages);
    var more := pages + [page];
    forall i, j | 0 <= i < j < |more| && more[i].version.Some? && more[j].version.Some?
      ensures more[i].version == more[j].version
    {
      assert more[i] == pages[i];
      if j == |pages| {
        var k :| 0 <= k < |pages| && pages[k].version == FirstVersion(pages);
        assert i < k ==> pages[i].version == pages[k].version;
        assert k < i ==> pages[k].version == pages[i].version;
      }
    }
  }

  /** One more page keeps one snapshot exactly when it carries no version or the first one. */
  lemma SnapshotNext(pages: seq<Page>, page: Page)
    requires OneSnapshot(pages)
    ensures FirstVersion(pages + [page]) == if FirstVersion(pages).Some? then FirstVersion(pages) else page.version
    ensures OneSnapshot(pages + [page]) <==>
      FirstVersion(pages).None? || page.version.None? || page.version == FirstVersion(pages)
  {
    hide FirstVersion;
    FirstVersionNext(pages, page);
    FirstVersionIs(pages);
    var more := pages + [page];
    if FirstVersion(pages).None? || page.version.None? || page.version == FirstVersion(pages) {
      SnapshotGoesOn(pages, page);
    } else {
      var k :| 0 <= k < |pages| && pages[k].version == FirstVersion(pages);
      assert more[k] == pages[k] && more[|pages|] == page;
    }
  }

  lemma SnapshotBroken(pages: seq<Page>, page: Page)
    requires !OneSnapshot(pages)
    ensures !OneSnapshot(pages + [page])
  {
    assert forall i :: 0 <= i < |pages| ==> (pages + [page])[i] == pages[i];
  }

  /** What is left of a script after so many turns. */
  function Rest(turns: seq<Turn>, n: nat): seq<Turn> {
    if n <= |turns| then turns[n..] else []
  }

  lemma ScriptNext(asks: seq<Ask>, ask: Ask, turns: seq<Turn>)
    requires AsScripted(asks, turns)
    requires ask.turn == if Rest(turns, |asks|) == [] then FATAL else Rest(turns, |asks|)[0]
    ensures AsScripted(asks + [ask], turns)
    ensures Rest(turns, |asks| + 1) == if Rest(turns, |asks|) == [] then [] else Rest(turns, |asks|)[1..]
  {
  }

  lemma TriesNext(asks: seq<Ask>, ask: Ask, before: nat)
    ensures Tries(asks + [ask], before) == if ask.turn.Broke? then Tries(asks, before) + 1 else 0
    ensures GivenUp(ask, Tries(asks, before)) <==>
      (ask.turn.Broke? ==> !ask.turn.failure.retryable || Tries(asks, before) >= RETRY_ALLOWANCE
                           || ask.turn.cancelled || ask.turn.cancelledWaiting)
    ensures CancelledAt(ask, Tries(asks, before)) <==>
      ask.turn.Broke? && (ask.turn.cancelled
        || (ask.turn.failure.retryable && Tries(asks, before) < RETRY_ALLOWANCE && ask.turn.cancelledWaiting))
  {
    assert (asks + [ask])[..|asks|] == asks;
  }

  /** What a walk leaves the listing stopped by, if by anything: a cancellation, or a record that the host did
      not take. */
  function StoppedBy(last: Ask, tries: nat, short: bool, emission: Emission, before: Option<Outcome>): Option<Outcome> {
    if CancelledAt(last, tries) then Some(CancelledOut)
    else if short then Some(if emission.Cancelled? then CancelledOut else Failed)
    else before
  }

  /** Where a walk leaves the reader. The request that failed last was not sent again for a reason, and never
      more than three times; nothing but a cancellation or a record that was not taken stops the listing. */
  ghost predicate Left(walk: seq<Ask>, before: nat, stopped0: Option<Outcome>, attempts: nat, stopped: Option<Outcome>,
                       short: bool, emission: Emission)
  {
    walk != [] &&
    var last, tries := walk[|walk| - 1], Tries(walk[..|walk| - 1], before);
    && tries <= 3 && GivenUp(last, tries)
    && (last.turn.Broke? && !last.turn.failure.retryable ==> attempts == tries)
    && stopped == StoppedBy(last, tries, short, emission, stopped0)
    && (short ==> !emission.Taken? && Accepted(last) != [])
  }

  method Walk(host: Host, reader: Streamed) returns (walked: Walked, ghost walk: seq<Ask>)
    requires reader.Valid() && !reader.short && reader.accepted == []
    modifies host, reader
    ensures reader.Valid() && host.asks == old(host.asks) + walk
    ensures Finished(walk, reader.accepted, reader.pageBudget, reader.stopped.Some?, walked)
    ensures AsScripted(walk, old(host.turns)) && host.turns == Rest(old(host.turns), |walk|)
    ensures Left(walk, old(reader.attempts), old(reader.stopped), reader.attempts, reader.stopped, reader.short,
                 reader.emissions(reader.offered))
  {
    hide Leads, OneSnapshot, Chained, Accepted, Spent, Unspent, Repeats, Finished, FirstVersion;
    hide GivenUp, CancelledAt, Tries, AsScripted, Left, Rest;
    hide Records, AllAccepted, TakenOf, Marked, LastOfBudget;
    var broken := false;
    var snapshot: Option<Version> := None;
    var pages, token := 0, None;
    ghost var before, already := reader.attempts, reader.stopped;
    walk := [];
    Starts();
    while true
      invariant reader.Valid() && !reader.short && host.asks == old(host.asks) + walk
      invariant Chained(walk) && reader.accepted == AllAccepted(walk) && pages == |reader.accepted|
      invariant walk == [] ==> token == None
      invariant walk != [] ==> Leads(walk[|walk| - 1], token)
      invariant Unspent(reader.pageBudget, |reader.accepted| + 1)
      invariant broken <==> !OneSnapshot(reader.accepted)
      invariant !broken ==> snapshot == FirstVersion(reader.accepted)
      invariant reader.attempts == Tries(walk, before) && reader.stopped == already
      invariant AsScripted(walk, old(host.turns)) && host.turns == Rest(old(host.turns), |walk|)
      decreases |host.turns|
    {
      UnspentBefore(reader.pageBudget, pages);
      var turn := host.Send(token);
      ghost var ask := Ask(token, turn);
      ChainedNext(walk, ask);
      ghost var front := walk;
      walk := walk + [ask];
      assert walk[..|walk| - 1] == front;
      ScriptNext(front, ask, old(host.turns));
      TriesNext(front, ask, before);
      assert host.asks == old(host.asks) + walk;
      AcceptedIs(ask);
      match turn
      case OverBudget =>
        walked := Walked(true, broken, None, false);
        WalkEnds(reader, front, ask, walked, before, already);
        return;
      case Answered(page, affordable) =>
        pages := pages + 1;
        if !affordable {
          walked := Walked(true, broken, None, false);
          WalkEnds(reader, front, ask, walked, before, already);
          return;
        }
        if broken { SnapshotBroken(reader.accepted, page); } else { SnapshotNext(reader.accepted, page); }
        if snapshot.None? {
          snapshot := page.version;
        } else if page.version.Some? && page.version != snapshot {
          broken := true;
        }
        if token.Some? && page.token == token {
          walked := Walked(true, true, Some(MALFORMED), false);
          WalkEnds(reader, front, ask, walked, before, already);
          return;
        }
        var next := reader.TakePage(page);
        if page.token.None? {
          walked := Walked(false, broken, None, false);
          WalkEnds(reader, front, ask, walked, before, already);
          return;
        }
        if next == Stop || (reader.pageBudget.Some? && pages >= reader.pageBudget.value) {
          walked := Walked(false, broken, None, true);
          if next == Continue { IsSpent(reader.pageBudget, pages); }
          WalkEnds(reader, front, ask, walked, before, already);
          return;
        }
        assert reader.accepted == AllAccepted(walk) && pages == |reader.accepted|;
        token := page.token;
        StillUnspent(reader.pageBudget, pages);
        PageFollows(ask, token);
      case Broke(failure, cancelled, cancelledWaiting) =>
        var next := reader.OnFailure(failure, cancelled, cancelledWaiting);
        if next == Continue {
          assert Accepted(ask) == [] && reader.accepted == AllAccepted(walk);
          FailureFollows(ask, token);
          continue;
        }
        walked := Walked(true, broken || failure.expired, Some(failure), false);
        WalkEnds(reader, front, ask, walked, before, already);
        return;
    }
  }

  lemma WalkEnds(reader: Streamed, front: seq<Ask>, ask: Ask, walked: Walked, before: nat, already: Option<Outcome>)
    requires Chained(front + [ask]) && reader.accepted == AllAccepted(front + [ask])
    requires Unspent(reader.pageBudget, |reader.accepted|)
    requires walked.gap <==> Accepted(ask) == []
    requires walked.more <==> Accepted(ask) != [] && ask.turn.page.token.Some?
    requires walked.more ==> reader.stopped.Some? || Spent(reader.pageBudget, |reader.accepted|)
    requires walked.broken <==>
      !OneSnapshot(reader.accepted) || Repeats(ask) || (ask.turn.Broke? && ask.turn.failure.expired)
    requires walked.error ==
      if ask.turn.Broke? then Some(ask.turn.failure) else if Repeats(ask) then Some(MALFORMED) else None
    requires Tries(front, before) <= RETRY_ALLOWANCE && GivenUp(ask, Tries(front, before))
    requires ask.turn.Broke? && !ask.turn.failure.retryable ==> reader.attempts == Tries(front, before)
    requires reader.stopped ==
      StoppedBy(ask, Tries(front, before), reader.short, reader.emissions(reader.offered), already)
    requires reader.short ==> !reader.emissions(reader.offered).Taken? && Accepted(ask) != []
    ensures Finished(front + [ask], reader.accepted, reader.pageBudget, reader.stopped.Some?, walked)
    ensures Left(front + [ask], before, already, reader.attempts, reader.stopped, reader.short,
                 reader.emissions(reader.offered))
  {
    hide Chained, Unspent, OneSnapshot, Tries, GivenUp, StoppedBy, Spent;
    assert (front + [ask])[..|front|] == front;
  }

  lemma StillUnspent(budget: Option<nat>, pages: nat)
    requires Unspent(budget, pages)
    ensures Unspent(budget, pages + 1) <==> pages == 0 || !(budget.Some? && pages >= budget.value)
  {
    assert Spent(budget, pages) <==> budget.Some? && pages >= budget.value;
  }

  lemma UnspentBefore(budget: Option<nat>, pages: nat)
    requires Unspent(budget, pages + 1)
    ensures Unspent(budget, pages)
  {
  }

  lemma Starts()
    ensures OneSnapshot([]) && Chained([]) && AllAccepted([]) == [] && FirstVersion([]) == None
    ensures forall budget :: Unspent(budget, 1)
    ensures forall before :: Tries([], before) == before
    ensures forall turns :: AsScripted([], turns) && Rest(turns, 0) == turns
  {
  }

  lemma AcceptedIs(ask: Ask)
    ensures Accepted(ask) ==
      if ask.turn.Answered? && ask.turn.affordable && !(ask.token.Some? && ask.token == ask.turn.page.token)
      then [ask.turn.page] else []
    ensures Repeats(ask) <==>
      ask.turn.Answered? && ask.turn.affordable && ask.token.Some? && ask.token == ask.turn.page.token
  {
  }

  lemma IsSpent(budget: Option<nat>, pages: nat)
    requires budget.Some? && pages >= budget.value
    ensures Spent(budget, pages)
  {
  }

  lemma PageFollows(ask: Ask, token: Option<string>)
    requires Accepted(ask) != [] && ask.turn.page.token.Some? && token == ask.turn.page.token
    ensures Leads(ask, token)
  {
  }

  lemma FailureFollows(ask: Ask, token: Option<string>)
    requires ask.turn.Broke? && ask.turn.failure.retryable && token == ask.token
    requires !ask.turn.cancelled && !ask.turn.cancelledWaiting
    ensures Leads(ask, token)
  {
  }

  // ---- the whole listing ------------------------------------------------------------------------------------

  /** What re-running the credential helper comes to. */
  datatype Helper = Replaced | NoReplacement

  /** `Streamed::finish`. */
  function Finish(stopped: Option<Outcome>, walked: Walked, unread: bool): Outcome {
    if stopped.Some? then stopped.value
    else if !walked.gap && !walked.broken && !unread then Completed
    else Failed
  }

  /** The first `n` asks handed on no page and ended in a refusal of the credential. */
  ghost predicate Refused(asks: seq<Ask>, n: nat) {
    && 0 < n <= |asks| && AllAccepted(asks[..n]) == []
    && asks[n - 1].turn.Broke? && asks[n - 1].turn.failure.unauthenticated
  }

  lemma RefusedThen(asks: seq<Ask>, more: seq<Ask>)
    requires Refused(asks, |asks|)
    ensures Refused(asks + more, |asks|)
  {
    hide AllAccepted;
    assert (asks + more)[..|asks|] == asks[..|asks|];
  }

  ghost predicate AllTaken(emissions: nat -> Emission) {
    forall i :: emissions(i).Taken?
  }

  /** What `read` goes by once its walks are over: `walk` is the one whose pages were emitted. */
  ghost predicate Ended(walk: seq<Ask>, walked: Walked, reader: Streamed)
    reads reader
  {
    && walk != [] && Chained(walk) && reader.accepted == AllAccepted(walk)
    && var last := walk[|walk| - 1];
      && (!walked.gap && !walked.broken <==> Accepted(last) != [] && OneSnapshot(reader.accepted))
      && (Accepted(last) != [] ==> walked.error == None)
      && (last.turn.Broke? ==> walked.error == Some(last.turn.failure))
      && (last.turn.Broke? && last.turn.cancelled ==> reader.stopped == Some(CancelledOut))
      && (Accepted(last) != [] && reader.stopped.None? ==>
            last.turn.page.token.None? || Spent(reader.pageBudget, |reader.accepted|))
      && (reader.short ==>
            && reader.stopped == Some(if reader.emissions(reader.offered).Cancelled? then CancelledOut else Failed)
            && !reader.emissions(reader.offered).Taken? && Accepted(last) != [])
  }

  /** The walk, and one more where the credential was refused before a page crossed and the helper is run again.
      `refused` is that the refusal stands. */
  method WalkTwice(host: Host, reader: Streamed, canRefresh: bool, helper: Helper)
      returns (walked: Walked, runs: nat, refused: bool, ghost walk: seq<Ask>)
    requires reader.Valid() && !reader.short && reader.accepted == [] && host.asks == []
    modifies host, reader
    ensures reader.Valid() && Unspent(reader.pageBudget, |reader.accepted|)
    ensures runs <= 1
    ensures runs == 1 ==> canRefresh && exists n: nat :: Refused(host.asks, n) && host.asks[n..] == walk
    ensures runs == 0 ==> walk == host.asks && !(canRefresh && Refused(host.asks, |host.asks|))
    ensures if runs == 1 && helper == NoReplacement then refused && walk == [] && reader.accepted == [] && !reader.short
            else Ended(walk, walked, reader)
    ensures walk != [] ==>
      (refused <==> runs == 1 && walk[|walk| - 1].turn.Broke? && walk[|walk| - 1].turn.failure.unauthenticated)
    ensures SteadyServer(old(host.turns), old(reader.attempts))
            || (canRefresh && helper == Replaced && RefusesFirst(old(host.turns), old(reader.attempts))) ==>
      && !refused && walk != [] && Accepted(walk[|walk| - 1]) != [] && OneSnapshot(reader.accepted)
      && (!reader.short ==> reader.stopped == old(reader.stopped))
  {
    hide OneSnapshot, Chained, Accepted, AllAccepted, Spent, Unspent, Finished, Records, Refused;
    hide AsScripted, Left, SteadyServer, RefusesFirst, Ended;
    ghost var turns, tries, already := host.turns, reader.attempts, reader.stopped;
    walked, walk := Walk(host, reader);
    assert host.asks == walk;
    WalkSays(reader, walk, walked, turns, tries, already);
    runs, refused := 0, false;
    if walked.error.Some? && walked.error.value.unauthenticated && reader.pages == 0 && canRefresh {
      runs := 1;
      ghost var n, front := |walk|, walk;
      assert host.asks[n..] == [];
      Starts();
      if helper == NoReplacement { return walked, runs, true, []; }
      turns, tries, already := host.turns, reader.attempts, reader.stopped;
      walked, walk := Walk(host, reader);
      WalkSays(reader, walk, walked, turns, tries, already);
      assert host.asks == front + walk && host.asks[n..] == walk;
      RefusedThen(front, walk);
      refused := walked.error.Some? && walked.error.value.unauthenticated;
    }
  }

  lemma WalkSays(reader: Streamed, walk: seq<Ask>, walked: Walked, turns: seq<Turn>, tries: nat,
                 already: Option<Outcome>)
    requires reader.Valid()
    requires Finished(walk, reader.accepted, reader.pageBudget, reader.stopped.Some?, walked)
    requires Left(walk, tries, already, reader.attempts, reader.stopped, reader.short,
                  reader.emissions(reader.offered))
    requires AsScripted(walk, turns)
    ensures Ended(walk, walked, reader) && walk != [] && Unspent(reader.pageBudget, |reader.accepted|)
    ensures Refused(walk, |walk|) <==>
      reader.pages == 0 && walked.error.Some? && walked.error.value.unauthenticated
    ensures walked.error.Some? && walked.error.value.unauthenticated <==>
      walk[|walk| - 1].turn.Broke? && walk[|walk| - 1].turn.failure.unauthenticated
    ensures SteadyServer(turns, tries) ==>
      && Accepted(walk[|walk| - 1]) != [] && OneSnapshot(reader.accepted) && walked.error == None
      && (!reader.short ==> reader.stopped == already)
    ensures RefusesFirst(turns, tries) ==>
      && reader.pages == 0 && walked.error.Some? && walked.error.value.unauthenticated
      && reader.stopped == already && SteadyServer(Rest(turns, |walk|), reader.attempts)
  {
    hide OneSnapshot, Chained, AllAccepted, Spent, Unspent, Left, AsScripted, SteadyServer, RefusesFirst, Records;
    SoundEnd(walk, reader.accepted, reader.pageBudget, reader.stopped.Some?, walked);
    LeftSays(walk, turns, tries, already, reader.attempts, reader.stopped, reader.short,
             reader.emissions(reader.offered));
  }

  /** The listing part of `read`. `selects` is whether a field selector was pushed to the server. `walk` is
      the walk whose pages were emitted. */
  method Read(host: Host, reader: Streamed, canRefresh: bool, helper: Helper, selects: bool, unread: bool)
      returns (outcome: Outcome, runs: nat, ghost walk: seq<Ask>)
    requires reader.Valid() && !reader.short && reader.accepted == [] && host.asks == []
    modifies host, reader
    ensures reader.Valid()
    // the helper is run at most once, never after a page crossed, and never for anything but a refusal of
    // the credential
    ensures runs <= 1
    ensures runs == 1 ==> canRefresh && exists n: nat :: Refused(host.asks, n) && host.asks[n..] == walk
    ensures runs == 1 && helper == NoReplacement ==> outcome == Failed && walk == []
    ensures runs == 0 ==> walk == host.asks && !(canRefresh && Refused(host.asks, |host.asks|))
    // what was emitted comes from one walk
    ensures Chained(walk) && reader.accepted == AllAccepted(walk)
    // and it is complete exactly when its last page was accepted, nothing stopped it or was left unread, and
    // its pages are one snapshot; it has then read all there is or spent its budget
    ensures Unspent(reader.pageBudget, |reader.accepted|)
    ensures outcome == Completed <==>
      && reader.stopped.None? && !unread && walk != []
      && Accepted(walk[|walk| - 1]) != [] && OneSnapshot(reader.accepted)
    // and over a server that answers for a collection with few enough failures it is complete, and so it is
    // where the first request is refused for its credential and the helper replaces that
    ensures
      (SteadyServer(old(host.turns), old(reader.attempts))
       || (canRefresh && helper == Replaced && RefusesFirst(old(host.turns), old(reader.attempts))))
      && AllTaken(reader.emissions) && old(reader.stopped).None? && !unread ==>
      outcome == Completed
    // a record that was not taken ends it as that has it, and so does a cancellation, but for a refusal of the
    // credential or of the selector that stands
    ensures reader.short ==> outcome == if reader.emissions(reader.offered).Cancelled? then CancelledOut else Failed
    ensures walk != [] && walk[|walk| - 1].turn.Broke? && walk[|walk| - 1].turn.cancelled ==>
      var failure := walk[|walk| - 1].turn.failure;
      var stands := (runs == 1 && failure.unauthenticated) || (selects && failure.code == Some(400));
      outcome == if stands then Failed else CancelledOut
    ensures outcome == CancelledOut ==> reader.stopped == Some(CancelledOut)
    ensures outcome == Completed ==>
      !reader.short && (walk[|walk| - 1].turn.page.token.None? || Spent(reader.pageBudget, |reader.accepted|))
  {
    hide OneSnapshot, Chained, Accepted, AllAccepted, Spent, Unspent, Records, Refused, SteadyServer, RefusesFirst;
    Starts();
    var walked, refused;
    walked, runs, refused, walk := WalkTwice(host, reader, canRefresh, helper);
    if refused { return Failed, runs, walk; }
    if selects && walked.error.Some? && walked.error.value.code == Some(400) { return Failed, runs, walk; }
    outcome := Finish(reader.stopped, walked, unread);
  }

  /** What a walk says of how the listing goes on. */
  lemma LeftSays(walk: seq<Ask>, turns: seq<Turn>, tries: nat, stopped0: Option<Outcome>, attempts: nat,
                 stopped: Option<Outcome>, short: bool, emission: Emission)
    requires Left(walk, tries, stopped0, attempts, stopped, short, emission)
    requires Chained(walk) && AsScripted(walk, turns)
    ensures SteadyServer(turns, tries) ==>
      && Accepted(walk[|walk| - 1]) != [] && OneSnapshot(AllAccepted(walk)) && !walk[|walk| - 1].turn.Broke?
      && (!short ==> stopped == stopped0)
    ensures RefusesFirst(turns, tries) ==>
      && |walk| == 1 && walk[0].turn.Broke? && walk[0].turn.failure.unauthenticated && AllAccepted(walk) == []
      && SteadyServer(Rest(turns, 1), attempts)
      && stopped == stopped0 && !short
    ensures walk[|walk| - 1].turn.Broke? && walk[|walk| - 1].turn.cancelled ==> stopped == Some(CancelledOut)
    ensures short ==>
      && stopped == Some(if emission.Cancelled? then CancelledOut else Failed)
      && !emission.Taken? && Accepted(walk[|walk| - 1]) != [] && !walk[|walk| - 1].turn.Broke?
  {
    hide OneSnapshot, Chained, AllAccepted, Tries, Steady, AsScripted;
    var last := walk[|walk| - 1];
    if SteadyServer(turns, tries) {
      var c: Collection, version :| c.Valid() && Steady(turns, c, version, 0, tries);
      SteadyEnds(walk, turns, c, version, tries);
    }
    if RefusesFirst(turns, tries) {
      RefusedAtOnce(walk, turns, tries);
      assert walk[..0] == [];
    }
  }

  /** What `finish` goes by. */
  lemma SoundEnd(walk: seq<Ask>, accepted: seq<Page>, budget: Option<nat>, stopped: bool, walked: Walked)
    requires Finished(walk, accepted, budget, stopped, walked)
    ensures walk != [] && Chained(walk) && accepted == AllAccepted(walk) && Unspent(budget, |accepted|)
    ensures !walked.gap && !walked.broken <==> Accepted(walk[|walk| - 1]) != [] && OneSnapshot(accepted)
    ensures walked.error.Some? ==> Accepted(walk[|walk| - 1]) == []
    ensures walk[|walk| - 1].turn.Broke? ==> walked.error == Some(walk[|walk| - 1].turn.failure)
    ensures !walk[|walk| - 1].turn.Broke? ==> walked.error in {None, Some(MALFORMED)}
    ensures !walked.gap && !stopped ==> walk[|walk| - 1].turn.page.token.None? || Spent(budget, |accepted|)
    ensures Refused(walk, |walk|) <==> accepted == [] && walked.error.Some? && walked.error.value.unauthenticated
  {
    hide OneSnapshot, Chained, Spent, Unspent;
    assert walk[..|walk|] == walk;
  }

  // ---- against a server that pages one collection ------------------------------------------------------------

  /** A collection as a server cuts it: its chunks, and the token each but the first is asked for by. */
  datatype Collection = Collection(chunks: seq<seq<Item>>, names: seq<string>) {

    ghost predicate Valid() {
      && chunks != [] && |names| == |chunks|
      && forall i, j :: 0 <= i < j < |names| ==> names[i] != names[j]
    }

    function TokenOf(k: nat): Option<string>
      requires k <= |names|
    {
      if k == 0 || k == |names| then None else Some(names[k])
    }

    /** The server answers the token of a chunk, if with a page at all, with that chunk and the token of the
        next one. */
    ghost predicate Serves(ask: Ask)
      requires |names| == |chunks|
    {
      ask.turn.Answered? ==> forall k :: 0 <= k < |chunks| && ask.token == TokenOf(k) ==> ServesChunk(ask.turn.page, k)
    }

    ghost predicate ServesChunk(page: Page, k: nat)
      requires |names| == |chunks| && k < |chunks|
    {
      page.objects == chunks[k] && page.token == TokenOf(k + 1)
    }

    function Items(n: nat): seq<Item>
      requires n <= |chunks|
    {
      if n == 0 then [] else Items(n - 1) + chunks[n - 1]
    }
  }

  /** A server that answers for this collection from chunk `k` on, `tries` failures into it: with the next
      chunk, at one version, after at most three failures of a kind to retry; the ledger can afford all of it
      and nobody cancels. */
  ghost predicate Steady(turns: seq<Turn>, c: Collection, version: Option<Version>, k: nat, tries: nat)
    requires |c.names| == |c.chunks| && k < |c.chunks|
    decreases |turns|
  {
    turns != [] &&
    match turns[0]
    case OverBudget => false
    case Broke(failure, cancelled, waiting) =>
      && failure.retryable && !cancelled && !waiting && tries < 3
      && Steady(turns[1..], c, version, k, tries + 1)
    case Answered(page, affordable) =>
      && affordable && c.ServesChunk(page, k) && (page.version.None? || page.version == version)
      && (k + 1 < |c.chunks| ==> Steady(turns[1..], c, version, k + 1, 0))
  }

  ghost predicate SteadyServer(turns: seq<Turn>, tries: nat) {
    exists c: Collection, version :: c.Valid() && Steady(turns, c, version, 0, tries)
  }

  /** A server that refuses the credential of the first request, and answers after that. */
  ghost predicate RefusesFirst(turns: seq<Turn>, tries: nat) {
    && turns != [] && turns[0].Broke? && !turns[0].cancelled
    && turns[0].failure.unauthenticated && !turns[0].failure.retryable && SteadyServer(turns[1..], tries)
  }

  lemma RefusedAtOnce(walk: seq<Ask>, turns: seq<Turn>, before: nat)
    requires turns != [] && turns[0].Broke? && !turns[0].failure.retryable
    requires walk != [] && Chained(walk) && AsScripted(walk, turns)
    ensures |walk| == 1 && walk[0].turn == turns[0] && Tries(walk[..0], before) == before && AllAccepted(walk) == []
    ensures Rest(turns, 1) == turns[1..]
  {
    assert |walk| > 1 ==> Follows(walk[0], walk[1]);
    assert walk[..0] == [];
  }

  ghost predicate AtVersion(pages: seq<Page>, version: Option<Version>) {
    forall i :: 0 <= i < |pages| ==> pages[i].version.None? || pages[i].version == version
  }

  /** One request to such a server that is followed by another. */
  lemma SteadyStep(turns: seq<Turn>, c: Collection, version: Option<Version>, k: nat, tries: nat, ask: Ask, after: Ask)
    requires c.Valid() && k < |c.chunks| && Steady(turns, c, version, k, tries)
    requires ask.turn == turns[0] && ask.token == c.TokenOf(k) && Follows(ask, after)
    ensures !ask.turn.OverBudget?
    ensures var next := k + |Accepted(ask)|;
      && next < |c.chunks| && after.token == c.TokenOf(next) && AtVersion(Accepted(ask), version)
      && Steady(turns[1..], c, version, next, if ask.turn.Broke? then tries + 1 else 0)
  {
  }

  /** Where a walk over such a server stands before its `i`-th request. */
  lemma {:induction false} SteadyAt(walk: seq<Ask>, turns: seq<Turn>, c: Collection, version: Option<Version>,
                                    before: nat, i: nat)
    requires c.Valid() && Steady(turns, c, version, 0, before) && Chained(walk) && AsScripted(walk, turns) && i < |walk|
    ensures var k := |AllAccepted(walk[..i])|;
      && i < |turns| && k < |c.chunks| && walk[i].token == c.TokenOf(k)
      && Steady(turns[i..], c, version, k, Tries(walk[..i], before)) && AtVersion(AllAccepted(walk[..i]), version)
    decreases i
  {
    hide Leads, Accepted, AllAccepted, Tries, GivenUp, CancelledAt;
    Starts();
    if i == 0 {
      assert turns[0..] == turns && walk[..0] == [];
    } else {
      SteadyAt(walk, turns, c, version, before, i - 1);
      var front, ask := walk[..i - 1], walk[i - 1];
      assert walk[..i] == front + [ask];
      assert Follows(walk[i - 1], walk[i]);
      assert turns[i - 1..][0] == turns[i - 1] == ask.turn && turns[i - 1..][1..] == turns[i..];
      TriesNext(front, ask, before);
      AllAcceptedNext(front, ask);
      SteadyStep(turns[i - 1..], c, version, |AllAccepted(front)|, Tries(front, before), ask, walk[i]);
    }
  }

  lemma AllAcceptedNext(asks: seq<Ask>, ask: Ask)
    ensures AllAccepted(asks + [ask]) == AllAccepted(asks) + Accepted(ask)
  {
    assert (asks + [ask])[..|asks|] == asks;
  }

  /** A walk over such a server that ended has its last page accepted, and all its pages of one version. */
  lemma SteadyEnds(walk: seq<Ask>, turns: seq<Turn>, c: Collection, version: Option<Version>, before: nat)
    requires c.Valid() && Steady(turns, c, version, 0, before) && Chained(walk) && AsScripted(walk, turns) && walk != []
    requires GivenUp(walk[|walk| - 1], Tries(walk[..|walk| - 1], before))
    ensures Accepted(walk[|walk| - 1]) != [] && OneSnapshot(AllAccepted(walk))
    ensures !walk[|walk| - 1].turn.Broke?
  {
    hide AllAccepted, Tries;
    var n := |walk| - 1;
    SteadyAt(walk, turns, c, version, before, n);
    assert walk == walk[..n] + [walk[n]] && turns[n..][0] == turns[n] == walk[n].turn;
    AllAcceptedNext(walk[..n], walk[n]);
    AcceptedIs(walk[n]);
    assert AtVersion(AllAccepted(walk), version);
  }

  /** The pages of one walk are the chunks of the collection, in order, from the first on. */
  lemma {:induction false} WalkReadsChunks(walk: seq<Ask>, c: Collection)
    requires c.Valid() && Chained(walk) && forall i :: 0 <= i < |walk| ==> c.Serves(walk[i])
    ensures var pages := AllAccepted(walk);
      && |pages| <= |c.chunks| && (forall j :: 0 <= j < |pages| ==> c.ServesChunk(pages[j], j))
    ensures walk != [] ==>
      var k := |AllAccepted(walk[..|walk| - 1])|;
      k < |c.chunks| && walk[|walk| - 1].token == c.TokenOf(k)
    decreases |walk|
  {
    if walk != [] {
      var front, last := walk[..|walk| - 1], walk[|walk| - 1];
      assert Chained(front) by {
        forall i | 0 < i < |front| ensures Follows(front[i - 1], front[i]) { assert Follows(walk[i - 1], walk[i]); }
      }
      WalkReadsChunks(front, c);
      var k := |AllAccepted(front)|;
      if front != [] {
        var before := front[|front| - 1];
        assert Follows(walk[|walk| - 2], walk[|walk| - 1]);
        assert AllAccepted(front) == AllAccepted(front[..|front| - 1]) + Accepted(before);
        if before.turn.Broke? {
          assert Accepted(before) == [];
        } else {
          assert AllAccepted(front)[k - 1] == before.turn.page;
        }
      }
      assert c.Serves(last);
      assert Accepted(last) != [] ==> c.ServesChunk(last.turn.page, k);
    }
  }

  lemma {:induction false} RecordsAre(pages: seq<Page>, budget: Option<nat>, c: Collection)
    requires c.Valid() && |pages| <= |c.chunks| && Unspent(budget, |pages|)
    requires forall j :: 0 <= j < |pages| ==> c.ServesChunk(pages[j], j)
    ensures |Records(pages, budget)| == |c.Items(|pages|)|
    ensures forall i :: 0 <= i < |Records(pages, budget)| ==>
      && Records(pages, budget)[i].item == c.Items(|pages|)[i]
      && (Records(pages, budget)[i].more <==>
            |pages| < |c.chunks| && Spent(budget, |pages|) && i >= |c.Items(|pages| - 1)|)
    decreases |pages|
  {
    if pages != [] {
      var front, n := pages[..|pages| - 1], |pages|;
      assert Unspent(budget, n - 1);
      RecordsAre(front, budget, c);
      assert c.ServesChunk(pages[n - 1], n - 1);
      assert n > 1 ==> !Spent(budget, n - 1);
      assert forall i :: 0 <= i < |Records(front, budget)| ==> !Records(front, budget)[i].more;
    }
  }

  /** What a listing of one collection emitted is, in order and each once, a prefix of the collection, also
      across the re-run of the credential helper; and when it completed, it is the whole collection with no
      record marked, or the chunks up to the page budget with exactly the last chunk's records marked. */
  lemma ListingIsPrefix(walk: seq<Ask>, accepted: seq<Page>, records: seq<Record>, budget: Option<nat>, c: Collection)
    requires c.Valid() && Chained(walk) && forall i :: 0 <= i < |walk| ==> c.Serves(walk[i])
    requires accepted == AllAccepted(walk) && Unspent(budget, |accepted|) && records <= Records(accepted, budget)
    ensures |accepted| <= |c.chunks| && |records| <= |c.Items(|accepted|)|
    ensures forall i :: 0 <= i < |records| ==> records[i].item == c.Items(|accepted|)[i]
    ensures records == Records(accepted, budget) && walk != [] && Accepted(walk[|walk| - 1]) != []
            && (walk[|walk| - 1].turn.page.token.None? || Spent(budget, |accepted|)) ==>
      var n := |accepted|;
      && |records| == |c.Items(n)|
      && ((n == |c.chunks| && forall i :: 0 <= i < |records| ==> !records[i].more)
          || (n < |c.chunks| && Spent(budget, n)
              && forall i :: 0 <= i < |records| ==> (records[i].more <==> i >= |c.Items(n - 1)|)))
  {
    hide Spent;
    WalkReadsChunks(walk, c);
    RecordsAre(accepted, budget, c);
    if walk != [] && Accepted(walk[|walk| - 1]) != [] {
      assert accepted == AllAccepted(walk[..|walk| - 1]) + Accepted(walk[|walk| - 1]);
      assert accepted[|accepted| - 1] == walk[|walk| - 1].turn.page;
      assert c.ServesChunk(accepted[|accepted| - 1], |accepted| - 1);
    }
  }
}
