/** The discovery documents a session remembers (query.rs `root_document`, `document`, `group_document`;
    session.rs `discovery_document`, `cache_discovery_document`), over a cluster whose documents do not
    change. */
module Documents {
  import opened Kube

  /** What each path answers with: every path with a legacy document, some with an aggregated one too. */
  datatype Server = Server(legacy: map<string, string>, aggregated: map<string, string>)

  /** What one request comes to: a text, in the aggregated form or not; another status; bytes that are not
      text; or a broken connection or spent budget. */
  datatype Reply = Text(text: string, aggregated: bool) | Status(code: nat) | NotText | Broken

  datatype Root = Aggregated(text: string) | Legacy(text: string)

  datatype Result<T> = Ok(value: T) | Err(reply: Reply)

  /** A group's list, or what became of it. */
  datatype GroupRead = Document(text: string) | Unread(reply: Reply)

  const AGGREGATED_KEY := "#aggregated"

  function KeyOfAggregated(path: string): string {
    path + AGGREGATED_KEY
  }

  /** Whether a key is one an aggregated document is kept under. No path of the API is: a `#` cannot occur
      in the names of groups and versions. */
  predicate IsAggregatedKey(key: string) {
    |key| >= |AGGREGATED_KEY| && key[|key| - |AGGREGATED_KEY|..] == AGGREGATED_KEY
  }

  lemma AggregatedKeys(path: string)
    ensures IsAggregatedKey(KeyOfAggregated(path))
    ensures KeyOfAggregated(path)[..|path|] == path && |KeyOfAggregated(path)| == |path| + |AGGREGATED_KEY|
  {
    assert KeyOfAggregated(path)[|path|..] == AGGREGATED_KEY;
  }

  /** What belongs under a key, on this server. */
  function Belongs(server: Server, key: string): Option<string> {
    if IsAggregatedKey(key) then
      var path := key[..|key| - |AGGREGATED_KEY|];
      if path in server.aggregated then Some(server.aggregated[path]) else None
    else if key in server.legacy then Some(server.legacy[key])
    else None
  }

  /** What the server answers a request with when nothing goes wrong. */
  function Answer(server: Server, path: string, wantsAggregated: bool): Reply {
    if wantsAggregated && path in server.aggregated then Text(server.aggregated[path], true)
    else if path in server.legacy then Text(server.legacy[path], false)
    else Status(404)
  }

  /** The answer of a root read with nothing remembered. */
  function Uncached(server: Server, path: string): Result<Root> {
    match Answer(server, path, true)
    case Text(text, aggregated) => Ok(if aggregated then Aggregated(text) else Legacy(text))
    case reply => Err(reply)
  }

  datatype Held = Held(text: string, vouched: bool)

  function CountOf(counts: map<string, nat>, key: string): nat {
    if key in counts then counts[key] else 0
  }

  class Session {
    const server: Server
    /** What goes wrong with the n-th request, if anything does. */
    const faults: nat -> Option<Reply>

    var requests: nat
    var documents: map<string, Held>
    ghost var fills: map<string, nat>
    ghost var lapses: map<string, nat>

    /** Every document is kept under the key it belongs to, and a key has been filled once more than its
        document has lapsed exactly while the document answers. */
    ghost predicate Valid()
      reads this
    {
      && (forall key :: key in documents ==> Belongs(server, key) == Some(documents[key].text))
      && (forall key ::
            CountOf(fills, key) == CountOf(lapses, key) + if key in documents && documents[key].vouched then 1 else 0)
    }

    constructor (server: Server, faults: nat -> Option<Reply>)
      ensures Valid() && this.server == server && this.faults == faults && requests == 0 && documents == map[]
      ensures fills == map[] && lapses == map[]
    {
      this.server, this.faults := server, faults;
      requests, documents, fills, lapses := 0, map[], map[], map[];
    }

    /** A remembered document that still answers. */
    function Remembered(key: string): Option<string>
      reads this
    {
      if key in documents && documents[key].vouched then Some(documents[key].text) else None
    }

    /** Time or drift: a document stops answering. */
    method Lapse(key: string)
      requires Valid()
      modifies this`documents, this`lapses
      ensures Valid()
      ensures forall k :: Remembered(k) == if k == key then None else old(Remembered(k))
      ensures forall k :: CountOf(lapses, k) <= CountOf(old(lapses), k) + if k == key then 1 else 0
    {
      if key in documents && documents[key].vouched {
        documents := documents[key := Held(documents[key].text, false)];
        lapses := lapses[key := CountOf(lapses, key) + 1];
      }
    }

    /** What the `n`-th request comes to. */
    function What(n: nat, path: string, wantsAggregated: bool): Reply {
      match faults(n)
      case None => Answer(server, path, wantsAggregated)
      case Some(Text(_, _)) => Answer(server, path, wantsAggregated)
      case Some(fault) => fault
    }

    method Send(path: string, wantsAggregated: bool) returns (reply: Reply)
      modifies this`requests
      ensures requests == old(requests) + 1 && reply == What(old(requests), path, wantsAggregated)
    {
      reply := What(requests, path, wantsAggregated);
      requests := requests + 1;
    }

    method Cache(key: string, text: string)
      requires Valid() && Belongs(server, key) == Some(text) && Remembered(key) == None
      modifies this`documents, this`fills
      ensures Valid()
      ensures forall k :: Remembered(k) == if k == key then Some(text) else old(Remembered(k))
      ensures CountOf(fills, key) == CountOf(lapses, key) + 1
    {
      documents := documents[key := Held(text, true)];
      fills := fills[key := CountOf(fills, key) + 1];
    }

    /** A root document: the aggregated form where one is remembered, else the legacy one, else whatever
        the server answers. Each form is the server's own text for the path in that form; and the answer is
        the one an uncached read would give, but where a legacy reader got there first. */
    method RootDocument(path: string) returns (root: Result<Root>)
      requires Valid() && !IsAggregatedKey(path)
      modifies this`requests, this`documents, this`fills
      ensures Valid()
      ensures root.Ok? ==>
        match root.value
        case Aggregated(text) => path in server.aggregated && text == server.aggregated[path]
        case Legacy(text) => path in server.legacy && text == server.legacy[path]
      ensures root.Ok? ==>
        (root == Uncached(server, path) <==>
           old(Remembered(KeyOfAggregated(path))).Some? || old(Remembered(path)).None? || path !in server.aggregated)
      ensures requests == old(requests) +
        if old(Remembered(KeyOfAggregated(path))).Some? || old(Remembered(path)).Some? then 0 else 1
      ensures root.Err? <==>
        && old(Remembered(KeyOfAggregated(path))).None? && old(Remembered(path)).None?
        && !What(old(requests), path, true).Text?
      ensures root.Err? ==> root.reply == What(old(requests), path, true) && documents == old(documents)
      ensures root.Ok? ==>
        Remembered(if root.value.Aggregated? then KeyOfAggregated(path) else path) == Some(root.value.text)
      ensures forall k :: k != path && k != KeyOfAggregated(path) ==> Remembered(k) == old(Remembered(k))
    {
      AggregatedKeys(path);
      var key := KeyOfAggregated(path);
      if key in documents && documents[key].vouched { return Ok(Aggregated(documents[key].text)); }
      if path in documents && documents[path].vouched { return Ok(Legacy(documents[path].text)); }
      var reply := Send(path, true);
      if !reply.Text? { return Err(reply); }
      if reply.aggregated {
        Cache(key, reply.text);
        return Ok(Aggregated(reply.text));
      }
      Cache(path, reply.text);
      return Ok(Legacy(reply.text));
    }

    /** A legacy document: always the server's legacy text, never an aggregated one, whatever was read
        before. */
    method LegacyDocument(path: string) returns (read: Result<string>)
      requires Valid() && !IsAggregatedKey(path)
      modifies this`requests, this`documents, this`fills
      ensures Valid()
      ensures read.Ok? ==> Answer(server, path, false) == Text(read.value, false)
      ensures requests == old(requests) + if old(Remembered(path)).Some? then 0 else 1
      ensures read.Err? <==> old(Remembered(path)).None? && !What(old(requests), path, false).Text?
      ensures read.Err? ==> read.reply == What(old(requests), path, false) && documents == old(documents)
      ensures read.Ok? ==> Remembered(path) == Some(read.value)
      ensures forall k :: k != path ==> Remembered(k) == old(Remembered(k))
    {
      if path in documents && documents[path].vouched { return Ok(documents[path].text); }
      var reply := Send(path, false);
      if !reply.Text? { return Err(reply); }
      Cache(path, reply.text);
      return Ok(reply.text);
    }

    /** A group's list: as above, with every answer but a broken connection kept to the group. */
    method GroupDocument(path: string) returns (read: Result<GroupRead>)
      requires Valid() && !IsAggregatedKey(path)
      modifies this`requests, this`documents, this`fills
      ensures Valid()
      ensures read.Ok? && read.value.Document? ==> Answer(server, path, false) == Text(read.value.text, false)
      ensures requests == old(requests) + if old(Remembered(path)).Some? then 0 else 1
      ensures read.Err? || read.value.Unread? ==> documents == old(documents)
      ensures read.Err? <==> old(Remembered(path)).None? && What(old(requests), path, false).Broken?
      ensures read.Ok? && read.value.Document? ==> Remembered(path) == Some(read.value.text)
      ensures read.Ok? && read.value.Document? <==>
        old(Remembered(path)).Some? || What(old(requests), path, false).Text?
      ensures read.Ok? && read.value.Unread? ==> read.value.reply == What(old(requests), path, false)
      ensures read.Err? ==> read.reply == What(old(requests), path, false)
      ensures forall k :: k != path ==> Remembered(k) == old(Remembered(k))
    {
      if path in documents && documents[path].vouched { return Ok(Document(documents[path].text)); }
      var reply := Send(path, false);
      match reply
      case Broken => return Err(reply);
      case Text(text, _) =>
        Cache(path, text);
        return Ok(Document(text));
      case _ => return Ok(Unread(reply));
    }
  }

  // ---- a sequence of calls ----------------------------------------------------------------------------------

  datatype Call = ForRoot(path: string) | ForLegacy(path: string) | ForGroup(path: string) | Lapsing(key: string)

  datatype Given =
    | RootGiven(root: Result<Root>) | TextGiven(text: Result<string>) | GroupGiven(read: Result<GroupRead>) | Nothing

  predicate OfTheApi(call: Call) {
    call.Lapsing? || !IsAggregatedKey(call.path)
  }

  /** What a call was given is the text of the server for its path, in the form the call is for. */
  predicate Truly(server: Server, call: Call, given: Given) {
    match call
    case ForRoot(path) =>
      given.RootGiven? && (given.root.Ok? ==>
        match given.root.value
        case Aggregated(text) => path in server.aggregated && text == server.aggregated[path]
        case Legacy(text) => path in server.legacy && text == server.legacy[path])
    case ForLegacy(path) =>
      given.TextGiven? && (given.text.Ok? ==> path in server.legacy && given.text.value == server.legacy[path])
    case ForGroup(path) =>
      given.GroupGiven? && (given.read.Ok? && given.read.value.Document? ==>
        path in server.legacy && given.read.value.text == server.legacy[path])
    case Lapsing(_) => given.Nothing?
  }

  /** How often the document under a key is made to lapse. */
  function LapsesOf(calls: seq<Call>, key: string): nat
    decreases |calls|
  {
    if calls == [] then 0
    else LapsesOf(calls[..|calls| - 1], key) + if calls[|calls| - 1] == Lapsing(key) then 1 else 0
  }

  /** Any sequence of calls on one session, lapses in between included: each call is given the text of the
      server in its own form, and no key is filled by a request more often than its document lapsed, and once
      more: at most once where nothing lapses. */
  method ServeAll(server: Server, faults: nat -> Option<Reply>, calls: seq<Call>)
      returns (given: seq<Given>, ghost filled: map<string, nat>)
    requires forall i :: 0 <= i < |calls| ==> OfTheApi(calls[i])
    ensures |given| == |calls| && forall i :: 0 <= i < |calls| ==> Truly(server, calls[i], given[i])
    ensures forall key :: CountOf(filled, key) <= LapsesOf(calls, key) + 1
  {
    hide IsAggregatedKey;
    var session := new Session(server, faults);
    given := [];
    for i := 0 to |calls|
      invariant session.Valid() && session.server == server && |given| == i
      invariant forall j :: 0 <= j < i ==> Truly(server, calls[j], given[j])
      invariant forall key :: CountOf(session.lapses, key) <= LapsesOf(calls[..i], key)
    {
      var one := Serve(session, calls[i]);
      assert calls[..i + 1][..i] == calls[..i];
      given := given + [one];
    }
    assert calls[..|calls|] == calls;
    filled := session.fills;
  }

  method Serve(session: Session, call: Call) returns (given: Given)
    requires session.Valid() && OfTheApi(call)
    modifies session
    ensures session.Valid() && Truly(session.server, call, given)
    ensures forall key ::
      CountOf(session.lapses, key) <= CountOf(old(session.lapses), key) + if call == Lapsing(key) then 1 else 0
  {
    hide IsAggregatedKey;
    match call
    case ForRoot(path) =>
      var root := session.RootDocument(path);
      return RootGiven(root);
    case ForLegacy(path) =>
      var text := session.LegacyDocument(path);
      return TextGiven(text);
    case ForGroup(path) =>
      var read := session.GroupDocument(path);
      return GroupGiven(read);
    case Lapsing(key) =>
      session.Lapse(key);
      return Nothing;
  }

  /** The order of the calls shows: after a legacy reader, a root read of a server that offers the
      aggregated form is given the legacy text. */
  method OrderShows() returns (root: Result<Root>)
    ensures root == Ok(Legacy("versions"))
  {
    var server := Server(map["/api" := "versions"], map["/api" := "everything"]);
    var session := new Session(server, n => None);
    assert !IsAggregatedKey("/api");
    assert "/api" != KeyOfAggregated("/api");
    var first := session.LegacyDocument("/api");
    assert first == Ok("versions");
    root := session.RootDocument("/api");
  }
}
