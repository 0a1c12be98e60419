/** How the worker turns what a backend sent back into a reply string:
    the Claude messages API, the DeepSeek chat-completions API and the
    Tavily search API. The requests themselves are not modelled; what one
    outbound `fetch` yields is an `Http` value. */
module Backends {

  import opened Js

  /** Why an exception escapes to the worker's top-level handler. */
  datatype Fault =
    | NetworkFailure(message: string)  // `fetch` rejected, or the body could not be read
    | JsonSyntax(message: string)      // `response.json()` rejected
    | NullProperty                     // a property read on `null`
    | NotAFunction                     // `.map` called on something that is not an array
    | NoPrimitive                      // a value that is not `Printable` inserted into a template literal

  /** A call that either returns a value or throws. */
  datatype Outcome<T> = Done(value: T) | Threw(fault: Fault)

  /** A response body: text that is not JSON (with the parser's message), or
      a parsed value together with its `JSON.stringify` text. */
  datatype Body = Unparseable(error: string) | Parsed(data: Json, stringified: string)

  /** What one outbound `fetch` yields: a rejection (with the error's text) or
      a status code and a body. */
  datatype Http = Unreachable(error: string) | Received(status: int, body: Body)

  /** `response.ok`. */
  predicate IsOk(status: int)
  {
    200 <= status <= 299
  }

  /** `a || fallback` inserted into a template literal. */
  function OrElse(a: Option<Json>, fallback: string): (r: string)
    ensures !Truthy(a) ==> r == fallback
    ensures Truthy(a) ==> r == Render(a)
  {
    if Truthy(a) then Render(a) else fallback
  }

  // ---------------------------------------------------------------------------
  // Claude
  // ---------------------------------------------------------------------------

  const NoClaudeResponse := "No response from Claude"

  /** `callClaude` after its request: no key check and no `try`, so a network
      failure, a body that is not JSON, a `null` body, and an error message
      that cannot be printed all throw. */
  function ClaudeReply(h: Http): Outcome<string>
  {
    match h
    case Unreachable(e) => Threw(NetworkFailure(e))
    case Received(_, Unparseable(e)) => Threw(JsonSyntax(e))
    case Received(status, Parsed(data, dump)) =>
      if data.JNull? then Threw(NullProperty)
      else if !IsOk(status) then
        var m := Chain(Get(data, "error"), "message");
        if Truthy(m) && !Renders(m) then Threw(NoPrimitive)
        else Done("Claude API error " + NumberText(status) + ": " + OrElse(m, dump))
      else
        var content := Get(data, "content");
        if content.None? || !content.value.JArr? || content.value.elems == [] then
          Done(NoClaudeResponse)
        else
          var found := FindTextBlock(content.value.elems);
          if found.Threw? then Threw(found.fault)
          else if found.value.Some? then Done(found.value.value)
          else Done(NoClaudeResponse)
  }

  /** The text of a content block whose `type` is `"text"` and whose `text`
      is a string. */
  function TextOf(block: Json): Option<string>
    requires !block.JNull?
  {
    match (Get(block, "type"), Get(block, "text"))
    case (Some(JStr("text")), Some(JStr(t))) => Some(t)
    case _ => None
  }

  /** A block that `find` looks at and passes over. */
  predicate Skipped(block: Json)
  {
    !block.JNull? && TextOf(block).None?
  }

  /** `blocks.find(...)`: the text of the first text block; reading the
      `type` of a `null` block before one is found throws. */
  function FindTextBlock(blocks: seq<Json>): Outcome<Option<string>>
  {
    if blocks == [] then Done(None)
    else if blocks[0].JNull? then Threw(NullProperty)
    else if TextOf(blocks[0]).Some? then Done(TextOf(blocks[0]))
    else FindTextBlock(blocks[1..])
  }

  /** The search over the blocks stops at the first block that is a text
      block (its text is the answer) or is `null` (it throws); when there is
      neither, nothing is found. */
  lemma FindTextBlockFirst(blocks: seq<Json>)
    ensures forall t :: FindTextBlock(blocks) == Done(Some(t)) <==>
      exists i :: 0 <= i < |blocks| && (forall j :: 0 <= j < i ==> Skipped(blocks[j]))
        && !blocks[i].JNull? && TextOf(blocks[i]) == Some(t)
    ensures FindTextBlock(blocks) == Done(None) <==>
      forall j :: 0 <= j < |blocks| ==> Skipped(blocks[j])
    ensures FindTextBlock(blocks).Threw? <==>
      exists i :: 0 <= i < |blocks| && (forall j :: 0 <= j < i ==> Skipped(blocks[j]))
        && blocks[i].JNull?
    ensures FindTextBlock(blocks).Threw? ==> FindTextBlock(blocks).fault == NullProperty
  {
    forall t ensures FindTextBlock(blocks) == Done(Some(t)) <==>
      exists i :: 0 <= i < |blocks| && (forall j :: 0 <= j < i ==> Skipped(blocks[j]))
        && !blocks[i].JNull? && TextOf(blocks[i]) == Some(t)
    {
      FindTextBlockFound(blocks, t);
    }
    FindTextBlockNone(blocks);
    FindTextBlockThrows(blocks);
  }

  /** Every block before index `i` is passed over. */
  predicate SkippedBefore(blocks: seq<Json>, i: int)
    requires 0 <= i <= |blocks|
  {
    forall j :: 0 <= j < i ==> Skipped(blocks[j])
  }

  /** Passing over the first block shifts every skipped prefix by one. */
  lemma SkippedBeforeShift(blocks: seq<Json>, i: int)
    requires blocks != [] && Skipped(blocks[0]) && 0 <= i < |blocks|
    ensures SkippedBefore(blocks, i + 1) <==> SkippedBefore(blocks[1..], i)
  {
    if SkippedBefore(blocks[1..], i) {
      forall j | 0 <= j < i + 1 ensures Skipped(blocks[j]) {
        if j > 0 { assert blocks[j] == blocks[1..][j - 1]; }
      }
    }
    if SkippedBefore(blocks, i + 1) {
      forall j | 0 <= j < i ensures Skipped(blocks[1..][j]) {
        assert blocks[1..][j] == blocks[j + 1];
      }
    }
  }

  lemma {:induction false} FindTextBlockFound(blocks: seq<Json>, t: string)
    ensures FindTextBlock(blocks) == Done(Some(t)) <==>
      exists i :: 0 <= i < |blocks| && SkippedBefore(blocks, i)
        && !blocks[i].JNull? && TextOf(blocks[i]) == Some(t)
  {
    if blocks != [] && Skipped(blocks[0]) {
      var rest := blocks[1..];
      FindTextBlockFound(rest, t);
      if FindTextBlock(blocks) == Done(Some(t)) {
        var i :| 0 <= i < |rest| && SkippedBefore(rest, i) && !rest[i].JNull? && TextOf(rest[i]) == Some(t);
        SkippedBeforeShift(blocks, i);
        assert blocks[i + 1] == rest[i];
      }
      if exists i :: 0 <= i < |blocks| && SkippedBefore(blocks, i)
                      && !blocks[i].JNull? && TextOf(blocks[i]) == Some(t) {
        var i :| 0 <= i < |blocks| && SkippedBefore(blocks, i) && !blocks[i].JNull? && TextOf(blocks[i]) == Some(t);
        assert i != 0;
        SkippedBeforeShift(blocks, i - 1);
        assert rest[i - 1] == blocks[i];
      }
    } else if blocks != [] {
      forall i | 0 < i < |blocks| ensures !SkippedBefore(blocks, i) {
        assert !Skipped(blocks[0]);
      }
    }
  }

  lemma {:induction false} FindTextBlockNone(blocks: seq<Json>)
    ensures FindTextBlock(blocks) == Done(None) <==> SkippedBefore(blocks, |blocks|)
  {
    if blocks != [] && Skipped(blocks[0]) {
      FindTextBlockNone(blocks[1..]);
      SkippedBeforeShift(blocks, |blocks| - 1);
    }
  }

  lemma {:induction false} FindTextBlockThrows(blocks: seq<Json>)
    ensures FindTextBlock(blocks).Threw? <==>
      exists i :: 0 <= i < |blocks| && SkippedBefore(blocks, i) && blocks[i].JNull?
    ensures FindTextBlock(blocks).Threw? ==> FindTextBlock(blocks).fault == NullProperty
  {
    if blocks != [] && Skipped(blocks[0]) {
      var rest := blocks[1..];
      FindTextBlockThrows(rest);
      if FindTextBlock(blocks).Threw? {
        var i :| 0 <= i < |rest| && SkippedBefore(rest, i) && rest[i].JNull?;
        SkippedBeforeShift(blocks, i);
        assert blocks[i + 1] == rest[i];
      }
      if exists i :: 0 <= i < |blocks| && SkippedBefore(blocks, i) && blocks[i].JNull? {
        var i :| 0 <= i < |blocks| && SkippedBefore(blocks, i) && blocks[i].JNull?;
        assert i != 0;
        SkippedBeforeShift(blocks, i - 1);
        assert rest[i - 1] == blocks[i];
      }
    } else if blocks != [] {
      forall i | 0 < i < |blocks| ensures !SkippedBefore(blocks, i) {
        assert !Skipped(blocks[0]);
      }
    }
  }

  /** The content blocks of a parsed Claude body, when it has an array of them. */
  function Blocks(data: Json): Option<seq<Json>>
    requires !data.JNull?
  {
    var content := Get(data, "content");
    if content.Some? && content.value.JArr? then Some(content.value.elems) else None
  }

  /** An error status yields a message that names the status and the
      backend's error message when it has one, and the whole body otherwise;
      an error message that cannot be printed throws. */
  lemma ClaudeErrorStatus(status: int, data: Json, dump: string)
    requires !data.JNull? && !IsOk(status)
    ensures var r := ClaudeReply(Received(status, Parsed(data, dump)));
      var m := Chain(Get(data, "error"), "message");
      var prefix := "Claude API error " + NumberText(status) + ": ";
      && (Truthy(m) && Renders(m) ==> r == Done(prefix + Render(m)))
      && (Truthy(m) && !Renders(m) ==> r == Threw(NoPrimitive))
      && (!Truthy(m) ==> r == Done(prefix + dump))
  {
  }

  /** An error body whose message is an object with its own `toString` key:
      `callClaude` throws, and `callDeepSeek` answers with the exception. */
  lemma UnprintableErrorMessage(dump: string)
    ensures var data := JObj(map["error" := JObj(map["message" := JObj(map["toString" := JNum(1)])])]);
      && ClaudeReply(Received(500, Parsed(data, dump))) == Threw(NoPrimitive)
      && DeepSeekReply(Some("key"), Received(500, Parsed(data, dump)))
           == "DeepSeek call exception: " + ConversionError
  {
    var message := JObj(map["toString" := JNum(1)]);
    assert !Printable(message);
  }

  /** A successful Claude response yields the text of its first text block,
      and `No response from Claude` when the content is missing, not an array,
      or every block in it is passed over. */
  lemma ClaudeFirstText(status: int, data: Json, dump: string)
    requires !data.JNull? && IsOk(status)
    ensures Blocks(data).None? ==>
      ClaudeReply(Received(status, Parsed(data, dump))) == Done(NoClaudeResponse)
    ensures Blocks(data).Some? && (forall j :: 0 <= j < |Blocks(data).value| ==> Skipped(Blocks(data).value[j])) ==>
      ClaudeReply(Received(status, Parsed(data, dump))) == Done(NoClaudeResponse)
    ensures forall i, t ::
      (&& Blocks(data).Some? && 0 <= i < |Blocks(data).value|
       && (forall j :: 0 <= j < i ==> Skipped(Blocks(data).value[j]))
       && !Blocks(data).value[i].JNull? && TextOf(Blocks(data).value[i]) == Some(t))
      ==> ClaudeReply(Received(status, Parsed(data, dump))) == Done(t)
  {
    if Blocks(data).Some? {
      FindTextBlockFirst(Blocks(data).value);
    }
  }

  // ---------------------------------------------------------------------------
  // DeepSeek
  // ---------------------------------------------------------------------------

  const DeepSeekKeyMissing := "DeepSeek API key missing or undefined"
  const NoDeepSeekResponse := "No response from DeepSeek"
  const DeepSeekMissingMessage := "Unexpected DeepSeek response format (missing message)"
  const DeepSeekInvalidContent := "Unexpected DeepSeek response format (invalid content)"

  /** What V8's `TypeError` prints when a value has no primitive form. */
  const ConversionError := "TypeError: Cannot convert object to primitive value"

  /** `!apiKey` is false: the key is defined and not empty. */
  predicate HasKey(apiKey: Option<string>)
  {
    apiKey.Some? && apiKey.value != ""
  }

  /** `callDeepSeek` after its request: every failure becomes a diagnostic
      string, so it never throws. Without a key it returns before any request. */
  function DeepSeekReply(apiKey: Option<string>, h: Http): string
  {
    if !HasKey(apiKey) then DeepSeekKeyMissing
    else
      match h
      case Unreachable(e) => "DeepSeek call exception: " + e
      case Received(_, Unparseable(e)) => "DeepSeek response JSON parse error: " + e
      case Received(status, Parsed(data, dump)) =>
        if !IsOk(status) then
          var m1 := Chain(Chain(Some(data), "error"), "message");
          var m2 := Chain(Some(data), "message");
          var errMsg := if Truthy(m1) then m1 else m2;
          if Truthy(errMsg) && !Renders(errMsg) then "DeepSeek call exception: " + ConversionError
          else "DeepSeek API error " + NumberText(status) + ": " + OrElse(m1, OrElse(m2, dump))
        else DeepSeekContent(data)
  }

  /** The checks on a successful DeepSeek body, in the worker's order. */
  function DeepSeekContent(data: Json): string
  {
    if !Truthy(Some(data)) then NoDeepSeekResponse
    else
      var choices := Get(data, "choices");
      if choices.None? || !choices.value.JArr? || choices.value.elems == [] then NoDeepSeekResponse
      else
        var first := choices.value.elems[0];
        if !Truthy(Some(first)) then DeepSeekMissingMessage
        else
          var message := Get(first, "message");
          if !Truthy(message) then DeepSeekMissingMessage
          else
            var content := Get(message.value, "content");
            if content.Some? && content.value.JStr? then content.value.s
            else DeepSeekInvalidContent
  }

  /** `x?.[0]` on an array: its first element, if any. */
  function First(v: Option<Json>): Option<Json>
  {
    match v
    case Some(JArr(es)) => if es == [] then None else Some(es[0])
    case _ => None
  }

  /** `data.choices[0].message.content` when it is a string, read with
      optional chaining at every step: the reference for the success path. */
  function ContentPath(data: Json): Option<string>
  {
    match Chain(Chain(First(Chain(Some(data), "choices")), "message"), "content")
    case Some(JStr(s)) => Some(s)
    case _ => None
  }

  /** With a key and a successful, parsed response, the reply is the string at
      `choices[0].message.content` when there is one; otherwise the diagnostic
      names the first check that failed: no usable `choices`, then no
      `message`, then `content` that is not a string. */
  lemma DeepSeekReturnsContent(apiKey: Option<string>, status: int, data: Json, dump: string)
    requires HasKey(apiKey) && IsOk(status)
    ensures var r := DeepSeekReply(apiKey, Received(status, Parsed(data, dump)));
      var first := First(Chain(Some(data), "choices"));
      var message := Chain(first, "message");
      && (ContentPath(data).Some? ==> r == ContentPath(data).value)
      && (!Truthy(Some(data)) || first.None? ==> r == NoDeepSeekResponse)
      && (Truthy(Some(data)) && first.Some? && !Truthy(message) ==> r == DeepSeekMissingMessage)
      && (Truthy(Some(data)) && Truthy(message) && ContentPath(data).None? ==> r == DeepSeekInvalidContent)
  {
  }

  /** With a key, every failure becomes a diagnostic naming its cause: the
      exception's text; the parser's message, whatever the status, since the
      body is parsed first; or, for an error status, the status followed by
      `error.message`, else `message`, else the whole body. A message that
      cannot be printed throws inside the `try` and yields the exception's
      text instead. */
  lemma DeepSeekFailureTexts(apiKey: Option<string>, status: int, e: string, data: Json, dump: string)
    requires HasKey(apiKey)
    ensures DeepSeekReply(apiKey, Unreachable(e)) == "DeepSeek call exception: " + e
    ensures DeepSeekReply(apiKey, Received(status, Unparseable(e))) == "DeepSeek response JSON parse error: " + e
    ensures !IsOk(status) ==>
      var r := DeepSeekReply(apiKey, Received(status, Parsed(data, dump)));
      var m1 := Chain(Chain(Some(data), "error"), "message");
      var m2 := Chain(Some(data), "message");
      var prefix := "DeepSeek API error " + NumberText(status) + ": ";
      var thrown := "DeepSeek call exception: " + ConversionError;
      && (Truthy(m1) && Renders(m1) ==> r == prefix + Render(m1))
      && (Truthy(m1) && !Renders(m1) ==> r == thrown)
      && (!Truthy(m1) && Truthy(m2) && Renders(m2) ==> r == prefix + Render(m2))
      && (!Truthy(m1) && Truthy(m2) && !Renders(m2) ==> r == thrown)
      && (!Truthy(m1) && !Truthy(m2) ==> r == prefix + dump)
  {
  }

  // ---------------------------------------------------------------------------
  // Search
  // ---------------------------------------------------------------------------

  const NoSearchResults := "No search results"

  /** `performSearch` after its request: no `try`, no status check. */
  function SearchDigest(h: Http): Outcome<string>
  {
    match h
    case Unreachable(e) => Threw(NetworkFailure(e))
    case Received(_, Unparseable(e)) => Threw(JsonSyntax(e))
    case Received(_, Parsed(data, _)) =>
      if data.JNull? then Threw(NullProperty)
      else
        var results := Get(data, "results");
        if !Truthy(results) || !Positive(Get(results.value, "length")) then Done(NoSearchResults)
        else
          match results.value
          case JArr(rs) =>
            (match ResultLines(rs)
             case Done(lines) => Done(JoinLines(lines))
             case Threw(f) => Threw(f))
          case _ => Threw(NotAFunction)
  }

  /** `${r.title}: ${r.content}` for one result. */
  function Line(r: Json): string
    requires !r.JNull?
  {
    Render(Get(r, "title")) + ": " + Render(Get(r, "content"))
  }

  /** The callback of `results.map` returns for result `r`: `r` is not
      `null`, and its `title` and `content` can be printed. */
  predicate Mappable(r: Json)
  {
    !r.JNull? && Renders(Get(r, "title")) && Renders(Get(r, "content"))
  }

  /** `results.map(...)`: one line per result, in order; a `null` result, or
      one whose `title` or `content` cannot be printed, throws. */
  function ResultLines(rs: seq<Json>): Outcome<seq<string>>
  {
    if rs == [] then Done([])
    else if rs[0].JNull? then Threw(NullProperty)
    else if !Mappable(rs[0]) then Threw(NoPrimitive)
    else
      match ResultLines(rs[1..])
      case Done(rest) => Done([Line(rs[0])] + rest)
      case Threw(f) => Threw(f)
  }

  /** `lines.join('\n')`. */
  function JoinLines(lines: seq<string>): string
  {
    if lines == [] then ""
    else if |lines| == 1 then lines[0]
    else lines[0] + "\n" + JoinLines(lines[1..])
  }

  /** Every result before index `i` is mapped to its line. */
  predicate MappableBefore(rs: seq<Json>, i: int)
    requires 0 <= i <= |rs|
  {
    forall j :: 0 <= j < i ==> Mappable(rs[j])
  }

  /** Mapping the results keeps every one of them, in backend order. It fails
      exactly when some result is not `Mappable`, and then with the fault of
      the first such result: a property read on `null`, or a value with no
      primitive form. */
  lemma ResultLinesKeepAll(rs: seq<Json>)
    ensures ResultLines(rs).Done? <==> MappableBefore(rs, |rs|)
    ensures ResultLines(rs).Threw? ==>
      exists i :: 0 <= i < |rs| && MappableBefore(rs, i) && !Mappable(rs[i])
        && ResultLines(rs).fault == (if rs[i].JNull? then NullProperty else NoPrimitive)
    ensures ResultLines(rs).Done? ==>
      && |ResultLines(rs).value| == |rs|
      && forall i :: 0 <= i < |rs| ==> ResultLines(rs).value[i] == Line(rs[i])
  {
    ResultLinesDone(rs);
    ResultLinesFault(rs);
  }

  lemma {:induction false} ResultLinesDone(rs: seq<Json>)
    ensures ResultLines(rs).Done? <==> MappableBefore(rs, |rs|)
    ensures ResultLines(rs).Done? ==>
      && |ResultLines(rs).value| == |rs|
      && forall i :: 0 <= i < |rs| ==> ResultLines(rs).value[i] == Line(rs[i])
  {
    if rs != [] && Mappable(rs[0]) {
      var tail := rs[1..];
      ResultLinesDone(tail);
      if ResultLines(tail).Done? {
        forall i | 0 <= i < |rs| ensures ResultLines(rs).value[i] == Line(rs[i]) && Mappable(rs[i]) {
          if i > 0 { assert rs[i] == tail[i - 1]; }
        }
      } else {
        var j :| 0 <= j < |tail| && !Mappable(tail[j]);
        assert rs[j + 1] == tail[j];
      }
    }
  }

  lemma {:induction false} ResultLinesFault(rs: seq<Json>)
    ensures ResultLines(rs).Threw? ==>
      exists i :: 0 <= i < |rs| && MappableBefore(rs, i) && !Mappable(rs[i])
        && ResultLines(rs).fault == (if rs[i].JNull? then NullProperty else NoPrimitive)
  {
    if rs != [] && Mappable(rs[0]) && ResultLines(rs).Threw? {
      var tail := rs[1..];
      ResultLinesFault(tail);
      var i :| 0 <= i < |tail| && MappableBefore(tail, i) && !Mappable(tail[i])
        && ResultLines(tail).fault == (if tail[i].JNull? then NullProperty else NoPrimitive);
      assert rs[i + 1] == tail[i];
      forall j | 0 <= j < i + 1 ensures Mappable(rs[j]) {
        if j > 0 { assert rs[j] == tail[j - 1]; }
      }
    } else if rs != [] {
      assert MappableBefore(rs, 0);
    }
  }

  /** Joining appends each further line after a newline: the digest lists the
      lines in order. */
  lemma {:induction false} JoinLinesSnoc(lines: seq<string>, last: string)
    requires lines != []
    ensures JoinLines(lines + [last]) == JoinLines(lines) + "\n" + last
  {
    if |lines| == 1 {
      assert (lines + [last])[1..] == [last];
    } else {
      assert (lines + [last])[1..] == lines[1..] + [last];
      JoinLinesSnoc(lines[1..], last);
    }
  }

  /** The digest is `No search results` when the results are missing, falsy
      or an empty array; for a non-empty array whose entries all map it is
      every result's line, in order, joined by newlines, with none dropped. */
  lemma SearchDigestShape(status: int, data: Json, dump: string)
    requires !data.JNull?
    ensures var d := SearchDigest(Received(status, Parsed(data, dump)));
      var results := Get(data, "results");
      && (!Truthy(results) ==> d == Done(NoSearchResults))
      && (results == Some(JArr([])) ==> d == Done(NoSearchResults))
      && (results.Some? && results.value.JArr? && results.value.elems != [] ==>
            var rs := results.value.elems;
            ((forall i :: 0 <= i < |rs| ==> Mappable(rs[i])) <==> d.Done?)
            && (d.Done? ==> d.value == JoinLines(seq(|rs|, i requires 0 <= i < |rs| => Line(rs[i])))))
  {
    var results := Get(data, "results");
    if results.Some? && results.value.JArr? && results.value.elems != [] {
      var rs := results.value.elems;
      ResultLinesKeepAll(rs);
      if ResultLines(rs).Done? {
        assert ResultLines(rs).value == seq(|rs|, i requires 0 <= i < |rs| => Line(rs[i]));
      }
    }
  }
}
