/** Reading a configuration file through the host, a chunk at a time (query.rs `host_read_all`). */
module FileReader {
  import opened Kube
  import opened Hex

  const READ_CHUNK: nat := 64 * 1024

  const MAX_KUBECONFIG: nat := 4 * 1024 * 1024

  datatype Fault = Denied | NotHexadecimal | TooLarge

  datatype Result<T> = Ok(value: T) | Err(fault: Fault)

  function Min(a: nat, b: nat): nat {
    if a <= b then a else b
  }

  /** What a file holds from `offset` on, up to `length` bytes of it. */
  function Window(content: seq<Byte>, offset: nat, length: nat): seq<Byte> {
    content[Min(offset, |content|)..Min(offset + length, |content|)]
  }

  /** The host's side of `filesystem.read` for one path: it may refuse any call, and answers the others with
      the window asked for, in hexadecimal. */
  class Files {
    const content: seq<Byte>
    const refuses: nat -> bool
    var calls: nat

    constructor (content: seq<Byte>, refuses: nat -> bool)
      ensures this.content == content && this.refuses == refuses && calls == 0
    {
      this.content, this.refuses, calls := content, refuses, 0;
    }

    method Read(offset: nat, length: nat) returns (answer: Option<seq<Byte>>)
      modifies this
      ensures calls == old(calls) + 1
      ensures answer == if refuses(old(calls)) then None else Some(Encoded(Window(content, offset, length)))
    {
      if refuses(calls) {
        answer := None;
      } else {
        var text := EncodeHex(Window(content, offset, length));
        answer := Some(text);
      }
      calls := calls + 1;
    }
  }

  /** How many calls reading a file of this length takes. */
  function CallsFor(length: nat): nat {
    Min(length / READ_CHUNK + 1, MAX_KUBECONFIG / READ_CHUNK + 1)
  }

  /** A window that falls short reaches the end of the file, and one that does not goes on with it. */
  lemma WindowNext(content: seq<Byte>, bytes: seq<Byte>, length: nat)
    requires bytes <= content
    ensures bytes + Window(content, |bytes|, length) <= content
    ensures |Window(content, |bytes|, length)| <= length
    ensures |Window(content, |bytes|, length)| < length ==> bytes + Window(content, |bytes|, length) == content
  {
  }

  /** The file is returned to the byte, in one call for every full chunk and one more, never over 65; it is
      refused as too large exactly from 65 chunks on, 4259840 bytes, which is a chunk past the bound; and a
      refusal of the host ends the read. */
  method HostReadAll(files: Files) returns (read: Result<seq<Byte>>)
    requires files.calls == 0
    modifies files
    ensures read.Ok? ==> read.value == files.content
    ensures files.calls <= CallsFor(|files.content|) <= 65
    ensures read == Err(Denied) <==> exists n: nat :: n < files.calls && files.refuses(n)
    ensures read != Err(Denied) ==>
      && files.calls == CallsFor(|files.content|)
      && (read.Ok? <==> |files.content| < 4_259_840)
      && (read == Err(TooLarge) <==> |files.content| >= 4_259_840)
  {
    hide Decoded, Encoded, Window;
    var bytes: seq<Byte> := [];
    while true
      invariant |bytes| == files.calls * READ_CHUNK && files.calls <= 64
      invariant bytes <= files.content
      invariant forall n: nat :: n < files.calls ==> !files.refuses(n)
      decreases 65 - files.calls
    {
      var answer := files.Read(|bytes|, READ_CHUNK);
      if answer.None? {
        assert files.refuses(files.calls - 1);
        return Err(Denied);
      }
      ghost var window := Window(files.content, |bytes|, READ_CHUNK);
      DecodeEncode(window);
      var chunk := DecodeHex(answer.value);
      if chunk.None? { return Err(NotHexadecimal); }
      assert chunk.value == window;
      WindowNext(files.content, bytes, READ_CHUNK);
      var complete := |chunk.value| < READ_CHUNK;
      bytes := bytes + chunk.value;
      if complete { return Ok(bytes); }
      if |bytes| > MAX_KUBECONFIG { return Err(TooLarge); }
    }
  }
}
