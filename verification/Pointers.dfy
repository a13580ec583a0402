/** JSON pointers (RFC 6901) as the package writes and reads them: dynamic.rs and planning.rs `escape`,
    planning.rs `check_pointer`, mutation.rs `unescape`. */
module Pointers {
  import opened Kube

  /** `text.replace(c, with)`. */
  function Replaced(text: string, c: char, with: string): string {
    if text == "" then "" else (if text[0] == c then with else [text[0]]) + Replaced(text[1..], c, with)
  }

  /** `text.replace("ab", "c")`, from left to right. */
  function PairReplaced(text: string, a: char, b: char, c: char): string {
    if |text| < 2 then text
    else if text[0] == a && text[1] == b then [c] + PairReplaced(text[2..], a, b, c)
    else [text[0]] + PairReplaced(text[1..], a, b, c)
  }

  function Escape(token: string): string {
    Replaced(Replaced(token, '~', "~0"), '/', "~1")
  }

  function Unescape(segment: string): string {
    PairReplaced(PairReplaced(segment, '~', '1', '/'), '~', '0', '~')
  }

  /** A pointer through these tokens. */
  function Join(tokens: seq<string>): string {
    if tokens == [] then "" else "/" + Escape(tokens[0]) + Join(tokens[1..])
  }

  function UntilSlash(text: string): (n: nat)
    ensures n <= |text| && '/' !in text[..n] && (n < |text| ==> text[n] == '/')
  {
    if text == "" || text[0] == '/' then 0
    else
      var n := UntilSlash(text[1..]);
      assert text[..n + 1] == [text[0]] + text[1..][..n];
      n + 1
  }

  /** The tokens of a pointer: section 4 of RFC 6901. */
  function Split(text: string): Option<seq<string>>
    decreases |text|
  {
    if text == "" then Some([])
    else if text[0] != '/' then None
    else
      var n := UntilSlash(text[1..]);
      var rest := Split(text[n + 1..]);
      if rest.None? then None else Some([Unescape(text[1..n + 1])] + rest.value)
  }

  lemma {:induction false} ReplacedJoin(a: string, b: string, c: char, with: string)
    ensures Replaced(a + b, c, with) == Replaced(a, c, with) + Replaced(b, c, with)
    decreases |a|
  {
    if a == "" {
      assert a + b == b;
    } else {
      ReplacedJoin(a[1..], b, c, with);
      assert (a + b)[0] == a[0] && (a + b)[1..] == a[1..] + b;
      var head := if a[0] == c then with else [a[0]];
      assert head + (Replaced(a[1..], c, with) + Replaced(b, c, with)) ==
        head + Replaced(a[1..], c, with) + Replaced(b, c, with);
    }
  }

  /** Escaping a token writes each character on its own. */
  lemma EscapeStep(token: string)
    requires token != ""
    ensures Escape(token) ==
      (if token[0] == '~' then "~0" else if token[0] == '/' then "~1" else [token[0]]) + Escape(token[1..])
  {
    var head := if token[0] == '~' then "~0" else [token[0]];
    ReplacedJoin(head, Replaced(token[1..], '~', "~0"), '/', "~1");
    if token[0] == '~' {
      assert head[1..][1..] == "" && head[1..] == "0";
    } else {
      assert head[1..] == "";
    }
  }

  lemma PairSkips(text: string, a: char, b: char, c: char)
    requires text != "" && (text[0] != a || |text| < 2 || text[1] != b)
    ensures PairReplaced(text, a, b, c) == [text[0]] + PairReplaced(text[1..], a, b, c)
  {
    if |text| == 1 { assert text[1..] == "" && text == [text[0]]; }
  }

  lemma {:induction false} FirstPass(token: string)
    ensures PairReplaced(Escape(token), '~', '1', '/') == Replaced(token, '~', "~0")
  {
    hide Escape;
    if token != "" {
      FirstPass(token[1..]);
      EscapeStep(token);
      var rest := Escape(token[1..]);
      if token[0] == '~' {
        PairSkips("~0" + rest, '~', '1', '/');
        assert ("~0" + rest)[1..] == "0" + rest;
        PairSkips("0" + rest, '~', '1', '/');
        assert ("0" + rest)[1..] == rest;
      } else if token[0] == '/' {
        assert ("~1" + rest)[2..] == rest;
      } else {
        PairSkips([token[0]] + rest, '~', '1', '/');
        assert ([token[0]] + rest)[1..] == rest;
      }
    } else {
      assert Escape("") == "" by { EscapeEmpty(); }
    }
  }

  lemma EscapeEmpty()
    ensures Escape("") == ""
  {
  }

  lemma {:induction false} SecondPass(token: string)
    ensures PairReplaced(Replaced(token, '~', "~0"), '~', '0', '~') == token
  {
    if token != "" {
      SecondPass(token[1..]);
      var rest := Replaced(token[1..], '~', "~0");
      if token[0] == '~' {
        assert ("~0" + rest)[2..] == rest;
      } else {
        PairSkips([token[0]] + rest, '~', '0', '~');
        assert ([token[0]] + rest)[1..] == rest;
      }
    }
  }

  /** Unescaping undoes escaping. */
  lemma UnescapeEscape(token: string)
    ensures Unescape(Escape(token)) == token
  {
    FirstPass(token);
    SecondPass(token);
  }

  lemma {:induction false} EscapeHasNoSlash(token: string)
    ensures '/' !in Escape(token)
    ensures Escape(token) == token <==> '~' !in token && '/' !in token
    ensures |Escape(token)| >= |token|
  {
    if token != "" {
      EscapeHasNoSlash(token[1..]);
      EscapeStep(token);
      assert token == [token[0]] + token[1..];
    }
  }

  lemma SplitStep(head: string, rest: string)
    requires '/' !in head && (rest == "" || rest[0] == '/') && Split(rest).Some?
    ensures Split("/" + head + rest) == Some([Unescape(head)] + Split(rest).value)
  {
    hide Unescape;
    var text := "/" + head + rest;
    assert text[1..] == head + rest;
    SegmentIs(head, rest);
    assert text[1..|head| + 1] == head && text[|head| + 1..] == rest;
  }

  /** Reading the pointer that was written gives the tokens back, so distinct token lists have distinct
      pointers. */
  lemma {:induction false} SplitJoin(tokens: seq<string>)
    ensures Split(Join(tokens)) == Some(tokens)
  {
    hide Escape, Unescape, Split;
    if tokens != [] {
      SplitJoin(tokens[1..]);
      EscapeHasNoSlash(tokens[0]);
      UnescapeEscape(tokens[0]);
      SplitStep(Escape(tokens[0]), Join(tokens[1..]));
      assert [tokens[0]] + tokens[1..] == tokens;
    } else {
      SplitEmpty();
    }
  }

  lemma SplitEmpty()
    ensures Split("") == Some([])
  {
  }

  lemma {:induction false} SegmentIs(head: string, rest: string)
    requires '/' !in head && (rest == "" || rest[0] == '/')
    ensures UntilSlash(head + rest) == |head|
    decreases |head|
  {
    if head == "" {
      assert head + rest == rest;
    } else {
      assert head[0] in head && (head + rest)[1..] == head[1..] + rest;
      SegmentIs(head[1..], rest);
    }
  }

  lemma {:induction false} JoinAppend(tokens: seq<string>, token: string)
    ensures Join(tokens + [token]) == Join(tokens) + "/" + Escape(token)
  {
    hide Escape;
    if tokens == [] {
      assert [token][1..] == [] && "/" + Escape(token) + "" == "/" + Escape(token);
    } else {
      JoinAppend(tokens[1..], token);
      assert (tokens + [token])[1..] == tokens[1..] + [token];
    }
  }

  /** The top-level names that are a pointer as they stand. */
  lemma PlainName(name: string)
    ensures "/" + name == Join([name]) <==> '~' !in name && '/' !in name
  {
    hide Escape;
    EscapeHasNoSlash(name);
    assert Join([name]) == "/" + Escape(name) by { assert [name][1..] == []; }
    assert ("/" + name)[1..] == name && ("/" + Escape(name))[1..] == Escape(name);
  }

  // ---- which pointers may be written ------------------------------------------------------------------------

  datatype Pointer = Writable | ObservedState | NotAPath

  function CheckPointer(path: string): Pointer {
    if path == "/status" || "/status/" <= path then ObservedState
    else if "/" <= path && |path| > 1 then Writable
    else NotAPath
  }

  lemma {:induction false} UntouchedPairs(text: string, a: char, b: char, c: char)
    requires c !in PairReplaced(text, a, b, c)
    ensures PairReplaced(text, a, b, c) == text
    decreases |text|
  {
    if |text| >= 2 {
      assert PairReplaced(text, a, b, c)[0] in PairReplaced(text, a, b, c);
      if text[0] != a || text[1] != b {
        var rest := PairReplaced(text[1..], a, b, c);
        assert forall x :: x in rest ==> x in [text[0]] + rest;
        UntouchedPairs(text[1..], a, b, c);
        assert text == [text[0]] + text[1..];
      }
    }
  }

  lemma Unescaped(segment: string)
    requires '~' !in Unescape(segment) && '/' !in Unescape(segment)
    ensures Unescape(segment) == segment
  {
    UntouchedPairs(PairReplaced(segment, '~', '1', '/'), '~', '0', '~');
    UntouchedPairs(segment, '~', '1', '/');
  }

  lemma FirstSegment(path: string, word: string)
    requires path != "" && path[0] == '/' && '/' !in word
    ensures path == "/" + word || "/" + word + "/" <= path <==> path[1..UntilSlash(path[1..]) + 1] == word
  {
    hide UntilSlash;
    var n := UntilSlash(path[1..]);
    assert path == "/" + path[1..n + 1] + path[n + 1..];
    if path == "/" + word {
      SegmentIs(word, "");
      assert path[1..] == word + "";
    }
    if "/" + word + "/" <= path {
      var rest := path[|word| + 1..];
      assert path[1..] == word + rest && rest[0] == path[|word| + 1] == ("/" + word + "/")[|word| + 1];
      SegmentIs(word, rest);
    }
    if path[1..n + 1] == word && n + 1 < |path| {
      assert path[1..][n] == path[n + 1];
      assert path == "/" + word + "/" + path[n + 2..];
    }
  }

  /** Refused as observed state is exactly what denotes `status` or something in it, however the pointer
      spells it; accepted is every other pointer but the empty one and the one to the empty name. */
  lemma StatusIsOutOfReach(path: string)
    ensures CheckPointer(path).ObservedState? <==>
      Split(path).Some? && Split(path).value != [] && Split(path).value[0] == "status"
    ensures CheckPointer(path).NotAPath? <==>
      Split(path).None? || Split(path).value == [] || Split(path).value == [""]
  {
    hide Unescape, UntilSlash;
    if path != "" && path[0] == '/' {
      var n := UntilSlash(path[1..]);
      SplitTotal(path[n + 1..]);
      FirstSegment(path, "status");
      assert "/" + "status" == "/status" && "/" + "status" + "/" == "/status/";
      var segment := path[1..n + 1];
      Samples();
      if Unescape(segment) in {"status", ""} { Unescaped(segment); }
      assert Split(path).value == [Unescape(segment)] + Split(path[n + 1..]).value;
      assert |path| > 1 && segment == "" ==> |Split(path).value| > 1;
    }
  }

  lemma {:induction false} SplitTotal(text: string)
    requires text == "" || text[0] == '/'
    ensures Split(text).Some? && (Split(text).value == [] <==> text == "")
    decreases |text|
  {
    if text != "" { SplitTotal(text[UntilSlash(text[1..]) + 1..]); }
  }

  lemma Samples()
    ensures Unescape("status") == "status" && Unescape("") == ""
  {
    EscapeHasNoSlash("status");
    UnescapeEscape("status");
  }
}
