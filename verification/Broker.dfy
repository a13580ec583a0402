/** The brokered byte stream (broker.rs `BrokeredStream`): bytes arrive in hexadecimal chunks, a batch to a
    host call, and are handed out as a reader asks for them. */
module Broker {
  import opened Kube
  import opened Hex

  const POLL_SECONDS: real := 0.25

  const REQUEST_PATIENCE_SECONDS: real := 90.0

  /** `ReadPolicy::request` and `ReadPolicy::watch`, the only two there are. */
  datatype Policy = Request | Watch

  /** After how many windows of silence a read fails. */
  function IdleWindows(policy: Policy): Option<nat> {
    if policy.Request? then Some((REQUEST_PATIENCE_SECONDS / POLL_SECONDS).Floor) else None
  }

  /** After how many windows of silence a read hands control back. */
  function QuietWindows(policy: Policy): Option<nat> {
    if policy.Watch? then Some(1) else None
  }

  /** What the host answers one `streams.next` with: a refusal, or the values of a batch. */
  datatype Answer = Refused | Batch(values: seq<seq<Byte>>, complete: bool, failed: bool)

  /** One host call over the connection. `cancelled` is whether the host had cancelled the invocation by
      the time it answered. */
  datatype Call = Pulled(answer: Answer, cancelled: bool) | Emitted(text: seq<Byte>, accepted: bool)

  datatype Fault = HostRefused | NotHexadecimal | ConnectionFailed | Cancelled | Quiet | SilentPeer | Closed

  datatype Result<T> = Ok(value: T) | Err(fault: Fault)

  // ---- what the calls made so far say ----------------------------------------------------------------------

  /** Whether every value of a batch is hexadecimal. */
  predicate Sound(values: seq<seq<Byte>>) {
    forall i :: 0 <= i < |values| ==> Decoded(values[i]).Some?
  }

  /** The bytes of a batch, up to the first value that is not hexadecimal. */
  function Bytes(values: seq<seq<Byte>>): seq<Byte>
    decreases |values|
  {
    if values == [] then []
    else
      var front, last := values[..|values| - 1], Decoded(values[|values| - 1]);
      Bytes(front) + if Sound(front) && last.Some? then last.value else []
  }

  function ArrivedIn(call: Call): seq<Byte> {
    if call.Pulled? && call.answer.Batch? then Bytes(call.answer.values) else []
  }

  /** Everything the host delivered, in order. */
  function Arrived(calls: seq<Call>): seq<Byte>
    decreases |calls|
  {
    if calls == [] then [] else Arrived(calls[..|calls| - 1]) + ArrivedIn(calls[|calls| - 1])
  }

  /** The host said it has let go of the connection. */
  predicate Completes(call: Call) {
    call.Pulled? && call.answer.Batch? && call.answer.complete
  }

  /** The stream takes the connection for ended. */
  predicate Ends(call: Call) {
    Completes(call) && Sound(call.answer.values)
  }

  /** A window that brought nothing at all. */
  predicate Silent(call: Call) {
    call.Pulled? && call.answer.Batch? && Sound(call.answer.values)
    && !call.answer.complete && Bytes(call.answer.values) == []
  }

  /** What the last call of a read has the read return, if that is an error. */
  function Verdict(policy: Policy, call: Call): Option<Fault> {
    if call.Emitted? then None
    else if call.answer.Refused? then Some(HostRefused)
    else if !Sound(call.answer.values) then Some(NotHexadecimal)
    else if call.answer.complete then if call.answer.failed then Some(ConnectionFailed) else None
    else if Bytes(call.answer.values) != [] then None
    else if call.cancelled then Some(Cancelled)
    else if policy.Watch? then Some(Quiet)
    else Some(SilentPeer)
  }

  /** What one call has the pull that made it return. */
  function Outcome(call: Call): Result<nat>
    requires call.Pulled?
  {
    if call.answer.Refused? then Err(HostRefused)
    else if !Sound(call.answer.values) then Err(NotHexadecimal)
    else if call.answer.complete && call.answer.failed then Err(ConnectionFailed)
    else Ok(|ArrivedIn(call)|)
  }

  lemma WindowSays(policy: Policy, call: Call)
    requires call.Pulled?
    ensures Outcome(call).Err? ==>
      Verdict(policy, call) == Some(Outcome(call).fault) && Outcome(call).fault != SilentPeer
    ensures Outcome(call).Ok? ==> Outcome(call).value == |ArrivedIn(call)|
    ensures Outcome(call).Ok? && (Ends(call) || ArrivedIn(call) != []) ==> Verdict(policy, call) == None
    ensures Outcome(call).Ok? && !Ends(call) && ArrivedIn(call) == [] ==>
      && Silent(call)
      && Verdict(policy, call) ==
           Some(if call.cancelled then Cancelled else if policy.Watch? then Quiet else SilentPeer)
  {
    hide Sound, Bytes;
  }

  // ---- waiting ----------------------------------------------------------------------------------------------

  /** How many windows a read may see. */
  function Limit(policy: Policy): nat {
    if policy.Request? then 360 else 1
  }

  /** A window that brought nothing, not even the word that the invocation is cancelled. */
  predicate Uneventful(call: Call) {
    Silent(call) && !call.cancelled
  }

  /** `idle` silent windows have passed since `calls`, and `now` is where that leads. */
  ghost predicate Waiting(before: seq<Byte>, over: bool, calls: seq<Call>, now: seq<Call>, idle: nat) {
    && |now| == |calls| + idle && now[..|calls|] == calls
    && (before == [] && !over)
    && forall i :: |calls| <= i < |now| ==> Uneventful(now[i])
  }

  /** The host is asked exactly when there is nothing to hand out and more may come, and at most 360 times
      for a request, once for a watch; every window before the last was silent; the last window alone
      decides whether and how the wait fails. */
  ghost predicate Waited(policy: Policy, before: seq<Byte>, over: bool, calls: seq<Call>, now: seq<Call>,
                         fault: Option<Fault>) {
    && |calls| <= |now| <= |calls| + Limit(policy) && now[..|calls|] == calls
    && (|now| > |calls| <==> before == [] && !over)
    && (|now| > |calls| ==> now[|now| - 1].Pulled?)
    && (forall i :: |calls| <= i < |now| - 1 ==> Uneventful(now[i]))
    && fault == (if |now| > |calls| then Verdict(policy, now[|now| - 1]) else None)
    && (fault == Some(SilentPeer) ==> |now| == |calls| + 360)
  }

  lemma WaitStarts(policy: Policy, before: seq<Byte>, over: bool, calls: seq<Call>)
    ensures before == [] && !over ==> Waiting(before, over, calls, calls, 0)
    ensures before != [] || over ==> Waited(policy, before, over, calls, calls, None)
  {
  }

  /** A silent window prolongs the wait. */
  lemma SilentWindow(before: seq<Byte>, over: bool, calls: seq<Call>, now: seq<Call>, idle: nat, call: Call)
    requires Waiting(before, over, calls, now, idle) && Uneventful(call)
    ensures Waiting(before, over, calls, now + [call], idle + 1)
  {
    hide Uneventful;
    var more := now + [call];
    assert more[..|calls|] == now[..|calls|];
    forall i | |calls| <= i < |more| ensures Uneventful(more[i]) {
      if i < |now| { assert more[i] == now[i]; }
    }
  }

  /** Any window may be the last; it decides. */
  lemma LastWindow(policy: Policy, before: seq<Byte>, over: bool, calls: seq<Call>, now: seq<Call>,
                   idle: nat, call: Call)
    requires Waiting(before, over, calls, now, idle) && idle < Limit(policy) && call.Pulled?
    requires Verdict(policy, call) == Some(SilentPeer) ==> idle + 1 == 360
    ensures Waited(policy, before, over, calls, now + [call], Verdict(policy, call))
  {
    hide Uneventful, Verdict;
    var more := now + [call];
    assert more[..|calls|] == now[..|calls|];
    forall i | |calls| <= i < |more| - 1 ensures Uneventful(more[i]) { assert more[i] == now[i]; }
  }

  lemma ArrivedNext(calls: seq<Call>, call: Call)
    ensures Arrived(calls + [call]) == Arrived(calls) + ArrivedIn(call)
  {
    assert (calls + [call])[..|calls|] == calls;
  }

  lemma BytesNext(values: seq<seq<Byte>>, i: nat)
    requires i < |values| && Sound(values[..i])
    ensures Bytes(values[..i + 1]) ==
      Bytes(values[..i]) + if Decoded(values[i]).Some? then Decoded(values[i]).value else []
  {
    assert values[..i + 1][..i] == values[..i];
  }

  /** Values after one that is not hexadecimal contribute nothing. */
  lemma {:induction false} BytesStop(values: seq<seq<Byte>>, i: nat)
    requires i < |values| && Decoded(values[i]).None?
    ensures Bytes(values) == Bytes(values[..i])
    decreases |values|
  {
    if i < |values| - 1 {
      var front := values[..|values| - 1];
      assert front[i] == values[i] && front[..i] == values[..i];
      BytesStop(front, i);
    }
  }

  // ---- the host and the stream -----------------------------------------------------------------------------

  ghost predicate Scripted(answers: nat -> Answer, calls: seq<Call>) {
    forall i :: 0 <= i < |calls| && calls[i].Pulled? ==> calls[i].answer == answers(i)
  }

  /** The host at the other end. What it answers is its own affair. */
  class Host {
    const answers: nat -> Answer
    const accepts: nat -> bool
    const cancels: nat -> bool

    var cancelled: bool
    var calls: seq<Call>

    constructor (answers: nat -> Answer, accepts: nat -> bool, cancels: nat -> bool)
      ensures calls == [] && this.answers == answers && this.cancels == cancels && this.accepts == accepts
    {
      this.answers, this.accepts, this.cancels := answers, accepts, cancels;
      calls, cancelled := [], false;
    }

    method StreamsNext() returns (answer: Answer)
      modifies this
      ensures answer == answers(|old(calls)|)
      ensures calls == old(calls) + [Pulled(answer, cancelled)]
      ensures cancelled == cancels(|old(calls)|)
    {
      answer, cancelled := answers(|calls|), cancels(|calls|);
      calls := calls + [Pulled(answer, cancelled)];
    }

    method StreamsEmit(text: seq<Byte>) returns (accepted: bool)
      modifies this
      ensures calls == old(calls) + [Emitted(text, accepted)]
      ensures cancelled == cancels(|old(calls)|)
    {
      accepted, cancelled := accepts(|calls|), cancels(|calls|);
      calls := calls + [Emitted(text, accepted)];
    }
  }

  /** Nothing that arrived is lost, doubled or out of order; the stream has ended when its last call says
      so; and the host is called again after it has completed only where that answer carried a value that
      is not hexadecimal. */
  ghost predicate Consistent(returned: seq<Byte>, pending: seq<Byte>, ended: bool, calls: seq<Call>) {
    && returned + pending == Arrived(calls)
    && ended == (calls != [] && Ends(calls[|calls| - 1]))
    && forall i :: 0 <= i < |calls| - 1 && Completes(calls[i]) ==> !Sound(calls[i].answer.values)
  }

  lemma CallKeeps(returned: seq<Byte>, pending: seq<Byte>, calls: seq<Call>, call: Call)
    requires Consistent(returned, pending, false, calls)
    ensures Consistent(returned, pending + ArrivedIn(call), Ends(call), calls + [call])
  {
    hide Sound, ArrivedIn, Arrived;
    ArrivedNext(calls, call);
    assert returned + (pending + ArrivedIn(call)) == (returned + pending) + ArrivedIn(call);
    var more := calls + [call];
    forall i | 0 <= i < |more| - 1 && Completes(more[i]) ensures !Sound(more[i].answer.values) {
      assert more[i] == calls[i];
    }
  }

  lemma HandingOutKeeps(returned: seq<Byte>, pending: seq<Byte>, ended: bool, calls: seq<Call>, n: nat)
    requires Consistent(returned, pending, ended, calls) && n <= |pending|
    ensures Consistent(returned + pending[..n], pending[n..], ended, calls)
  {
    hide Ends, Completes, Sound;
    assert (returned + pending[..n]) + pending[n..] == returned + pending;
  }

  class BrokeredStream {
    const host: Host
    const policy: Policy

    var pending: seq<Byte>
    var ended: bool
    ghost var returned: seq<Byte>

    ghost predicate Valid()
      reads this, host
    {
      Consistent(returned, pending, ended, host.calls) && Scripted(host.answers, host.calls)
    }

    constructor (host: Host, policy: Policy)
      requires host.calls == []
      ensures Valid() && this.host == host && this.policy == policy
      ensures pending == [] && returned == [] && !ended
    {
      this.host, this.policy := host, policy;
      pending, ended, returned := [], false, [];
    }

    /** The values of one batch, up to the first that is not hexadecimal. */
    method TakeIn(values: seq<seq<Byte>>) returns (count: Option<nat>)
      modifies this`pending
      ensures pending == old(pending) + Bytes(values)
      ensures count == if Sound(values) then Some(|Bytes(values)|) else None
    {
      hide Decoded;
      var arrived, i := 0, 0;
      while i < |values|
        invariant 0 <= i <= |values|
        invariant Sound(values[..i]) && arrived == |Bytes(values[..i])|
        invariant pending == old(pending) + Bytes(values[..i])
      {
        var chunk := DecodeHex(values[i]);
        BytesNext(values, i);
        if chunk.None? {
          BytesStop(values, i);
          return None;
        }
        arrived, pending := arrived + |chunk.value|, pending + chunk.value;
        i := i + 1;
      }
      assert values[..|values|] == values;
      return Some(arrived);
    }

    /** Pulls one batch. A value that is not hexadecimal hides both the rest of the batch and the host's
        word that the stream is complete. */
    method Pull() returns (arrived: Result<nat>)
      requires Valid() && !ended
      modifies this, host
      ensures Valid() && returned == old(returned)
      ensures exists call :: PulledWith(old(pending), old(host.calls), call, arrived)
    {
      hide Consistent, Sound, Bytes;
      var answer := host.StreamsNext();
      ghost var call := Pulled(answer, host.cancelled);
      CallKeeps(returned, pending, old(host.calls), call);
      if answer.Refused? {
        assert pending + ArrivedIn(call) == pending;
        assert PulledWith(old(pending), old(host.calls), call, Err(HostRefused));
        return Err(HostRefused);
      }
      var count := TakeIn(answer.values);
      if count.None? {
        assert PulledWith(old(pending), old(host.calls), call, Err(NotHexadecimal));
        return Err(NotHexadecimal);
      }
      if answer.complete {
        ended := true;
        if answer.failed {
          assert PulledWith(old(pending), old(host.calls), call, Err(ConnectionFailed));
          return Err(ConnectionFailed);
        }
      }
      assert PulledWith(old(pending), old(host.calls), call, Ok(count.value));
      return Ok(count.value);
    }

    /** What one pull that ended in `arrived` has done to the stream. */
    ghost predicate PulledWith(before: seq<Byte>, calls: seq<Call>, call: Call, arrived: Result<nat>)
      reads this, host
    {
      && host.calls == calls + [call] && call.Pulled?
      && call.cancelled == host.cancelled
      && pending == before + ArrivedIn(call) && ended == Ends(call)
      && arrived == Outcome(call)
    }

    method WriteAll(bytes: seq<Byte>) returns (written: Result<()>)
      requires Valid()
      modifies this, host
      ensures Valid() && pending == old(pending) && returned == old(returned) && ended == old(ended)
      ensures old(ended) ==> written == Err(Closed) && host.calls == old(host.calls)
      ensures !old(ended) ==>
        && |host.calls| == |old(host.calls)| + 1 && host.calls[..|old(host.calls)|] == old(host.calls)
        && host.calls[|old(host.calls)|].Emitted?
        && Decoded(host.calls[|old(host.calls)|].text) == Some(bytes)
        && written == if host.calls[|old(host.calls)|].accepted then Ok(()) else Err(HostRefused)
    {
      hide Consistent, Decoded, Encoded;
      if ended { return Err(Closed); }
      var text := EncodeHex(bytes);
      var accepted := host.StreamsEmit(text);
      CallKeeps(returned, pending, old(host.calls), Emitted(text, accepted));
      assert pending + [] == pending;
      if accepted { return Ok(()); }
      return Err(HostRefused);
    }

    /** Waits until there is something to hand out or nothing more will come, or a window decides
        otherwise. */
    method Await() returns (fault: Option<Fault>)
      requires Valid()
      modifies this, host
      ensures Valid() && returned == old(returned)
      ensures Waited(policy, old(pending), old(ended), old(host.calls), host.calls, fault)
      ensures fault.None? ==> pending != [] || ended
    {
      hide Consistent, Scripted, QuietWindows, IdleWindows, Waiting, Waited, Verdict, Silent, Ends, Outcome, ArrivedIn;
      Windows(policy);
      WaitStarts(policy, pending, ended, host.calls);
      var idle := 0;
      while pending == []
        invariant Valid() && returned == old(returned)
        invariant if pending == [] && !ended
                  then Waiting(old(pending), old(ended), old(host.calls), host.calls, idle)
                  else Waited(policy, old(pending), old(ended), old(host.calls), host.calls, None)
        invariant idle < Limit(policy)
        decreases !ended && pending == [], 360 - idle
      {
        if ended { return None; }
        ghost var calls := host.calls;
        var arrived := Pull();
        ghost var call :| PulledWith([], calls, call, arrived);
        assert [] + ArrivedIn(call) == ArrivedIn(call);
        WindowSays(policy, call);
        if arrived.Err? {
          LastWindow(policy, old(pending), old(ended), old(host.calls), calls, idle, call);
          return Some(arrived.fault);
        }
        if arrived.value == 0 && pending == [] && !ended {
          if host.cancelled {
            LastWindow(policy, old(pending), old(ended), old(host.calls), calls, idle, call);
            return Some(Cancelled);
          }
          idle := idle + 1;
          if QuietWindows(policy).Some? && idle >= QuietWindows(policy).value {
            LastWindow(policy, old(pending), old(ended), old(host.calls), calls, idle - 1, call);
            return Some(Quiet);
          }
          if IdleWindows(policy).Some? && idle >= IdleWindows(policy).value {
            LastWindow(policy, old(pending), old(ended), old(host.calls), calls, idle - 1, call);
            return Some(SilentPeer);
          }
          SilentWindow(old(pending), old(ended), old(host.calls), calls, idle - 1, call);
        } else {
          LastWindow(policy, old(pending), old(ended), old(host.calls), calls, idle, call);
        }
      }
      return None;
    }

    method Read(buf: array<Byte>) returns (read: Result<nat>)
      requires Valid()
      modifies this, host, buf
      ensures Valid()
      ensures Waited(policy, old(pending), old(ended), old(host.calls), host.calls,
                     if read.Err? then Some(read.fault) else None)
      // what is handed out is the next bytes in order, as many as there are and as fit
      ensures read.Ok? ==>
        && read.value <= buf.Length && returned == old(returned) + buf[..read.value]
        && buf[read.value..] == old(buf[read.value..])
        && (read.value == buf.Length || pending == [])
      ensures read.Ok? && read.value == 0 && buf.Length > 0 ==> ended && returned == Arrived(host.calls)
      ensures read.Err? ==> buf[..] == old(buf[..]) && returned == old(returned)
    {
      hide Waited, Sound, Bytes, Scripted;
      var fault := Await();
      if fault.Some? { return Err(fault.value); }
      if pending == [] { return Ok(0); }
      var wanted := if buf.Length < |pending| then buf.Length else |pending|;
      ghost var bytes, given := pending, returned;
      HandingOutKeeps(returned, pending, ended, host.calls, wanted);
      HandOut(buf, wanted);
      return Ok(wanted);
    }

    /** Moves the next `wanted` bytes from the queue to the buffer. */
    method HandOut(buf: array<Byte>, wanted: nat)
      requires wanted <= |pending| && wanted <= buf.Length
      modifies this`pending, this`returned, buf
      ensures pending == old(pending)[wanted..] && returned == old(returned) + old(pending)[..wanted]
      ensures buf[..wanted] == old(pending)[..wanted] && buf[wanted..] == old(buf[wanted..])
    {
      var i := 0;
      while i < wanted
        invariant 0 <= i <= wanted
        invariant pending == old(pending)[i..] && returned == old(returned) + old(pending)[..i]
        invariant forall k :: 0 <= k < i ==> buf[k] == old(pending)[k]
        invariant forall k :: i <= k < buf.Length ==> buf[k] == old(buf[k])
      {
        assert old(pending)[..i + 1] == old(pending)[..i] + [old(pending)[i]];
        buf[i], pending, returned := pending[0], pending[1..], returned + [pending[0]];
        i := i + 1;
      }
    }
  }

  /** 90 seconds of patience at four looks a second. */
  lemma Windows(policy: Policy)
    ensures QuietWindows(policy) == if policy.Watch? then Some(1) else None
    ensures IdleWindows(policy) == if policy.Request? then Some(360) else None
  {
    assert REQUEST_PATIENCE_SECONDS / POLL_SECONDS == 360.0;
  }

  // ---- after completion -------------------------------------------------------------------------------------

  /** The host has completed and nothing is left to hand out. */
  ghost predicate Spent(stream: BrokeredStream)
    reads stream, stream.host
  {
    && stream.Valid() && stream.pending == []
    && stream.host.calls != [] && Completes(stream.host.calls[|stream.host.calls| - 1])
  }

  /** A host that has completed is asked again by the next read exactly when the answer that said so carried
      a value that is not hexadecimal; otherwise that read is the end of the stream. */
  method ReadOn(stream: BrokeredStream, buf: array<Byte>) returns (read: Result<nat>)
    requires Spent(stream)
    modifies stream, stream.host, buf
    ensures stream.Valid()
    ensures var calls := old(stream.host.calls);
      if Sound(calls[|calls| - 1].answer.values) then stream.host.calls == calls && read == Ok(0)
      else |stream.host.calls| > |calls| && stream.host.calls[|calls|].Pulled?
  {
    hide Sound, Bytes, Scripted, Verdict;
    read := stream.Read(buf);
  }

  /** And by the next write under the same condition; otherwise that write is refused. */
  method WriteOn(stream: BrokeredStream, bytes: seq<Byte>) returns (written: Result<()>)
    requires Spent(stream)
    modifies stream, stream.host
    ensures stream.Valid()
    ensures var calls := old(stream.host.calls);
      if Sound(calls[|calls| - 1].answer.values) then stream.host.calls == calls && written == Err(Closed)
      else |stream.host.calls| == |calls| + 1 && stream.host.calls[|calls|].Emitted?
  {
    hide Sound, Bytes, Scripted, Decoded;
    written := stream.WriteAll(bytes);
  }

  /** The one way past the rule that nothing is asked of a host that has completed: an answer that says
      complete and carries a value that is not hexadecimal leaves the stream open. */
  method AsksAgain() returns (calls: seq<Call>)
    ensures |calls| > 1 && Completes(calls[0]) && calls[1].Pulled?
  {
    var host := new Host(n => if n == 0 then Batch([[48]], true, false) else Answer.Refused, n => true, n => false);
    var stream := new BrokeredStream(host, Request);
    var buf := new Byte[1];
    var first := stream.Read(buf);
    assert host.calls[0].answer == Batch([[48]], true, false) && host.calls == [host.calls[0]];
    assert Decoded([48]) == None && host.calls[0].answer.values[0] == [48];
    BytesStop([[48]], 0);
    ghost var before := host.calls;
    var second := stream.Read(buf);
    assert host.calls[0] == before[0];
    return host.calls;
  }
}
