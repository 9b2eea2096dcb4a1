/** The chat response models of models/response/chat.py: the validator of
    a single message, which gathers chart URLs from its tool metadata, and
    the validator of a thread, which drops tool messages and hands the URLs
    they carried to the next assistant message. Both validators run after
    construction and replace fields of the record; they are modelled on
    values, returning the record with the new fields. `json.loads` is the
    parameter `parse` (None when it raises). */
module ChatResponse {
  import opened Wrappers

  /** A JSON value, as `json.loads` returns it. */
  datatype Json =
    | JNull
    | JBool(b: bool)
    | JNum(n: int)
    | JStr(s: string)
    | JArr(items: seq<Json>)
    | JObj(fields: seq<(string, Json)>)

  /** Python truthiness: None, False, 0, "", [] and {} are false. */
  predicate Truthy(j: Json) {
    match j
    case JNull => false
    case JBool(b) => b
    case JNum(n) => n != 0
    case JStr(s) => s != []
    case JArr(items) => items != []
    case JObj(fields) => fields != []
  }

  /** `d.get(k)`: the value under `k`, or None. */
  function Get(fields: seq<(string, Json)>, k: string): (r: Json)
    ensures r != JNull ==> exists i :: 0 <= i < |fields| && fields[i] == (k, r)
  {
    if fields == [] then JNull
    else if fields[0].0 == k then fields[0].1
    else
      var r := Get(fields[1..], k);
      assert forall i :: 1 <= i < |fields| ==> fields[i] == fields[1..][i - 1];
      r
  }

  type Parser = string -> Option<Json>

  /** What one tool result contributes: a non-empty string is parsed first
      and contributes nothing when parsing fails; the (parsed) value
      contributes its `iframe_url` when it is a dict whose `iframe_url` is
      truthy. */
  function ToolUrl(content: Json, parse: Parser): (u: Option<Json>)
    ensures u.Some? ==> Truthy(u.value)
  {
    var parsed := if Truthy(content) && content.JStr? then parse(content.s) else Some(content);
    if parsed.Some? && parsed.value.JObj? && Truthy(Get(parsed.value.fields, "iframe_url"))
    then Some(Get(parsed.value.fields, "iframe_url"))
    else None
  }

  function AsList(u: Option<Json>): seq<Json> {
    if u.Some? then [u.value] else []
  }

  // ---------------------------------------------------------------------
  // MessageResponse.set_iframe_url

  /** A tool call record of the message metadata (a dict). */
  type ToolRecord = seq<(string, Json)>

  datatype Metadata = Metadata(tools: Option<seq<ToolRecord>>)

  datatype Sender = User | Assistant | Tool

  datatype Message = Message(
    id: Option<string>,
    content: Option<string>,
    sender: Sender,
    iframeUrl: Option<seq<Json>>,
    timestamp: int,
    userId: Option<string>,
    metadata: Option<Metadata>)

  /** The URLs of the tool records, in tool order. */
  function ToolsUrls(tools: seq<ToolRecord>, parse: Parser): seq<Json>
    decreases |tools|
  {
    if tools == [] then []
    else ToolsUrls(tools[..|tools| - 1], parse) + AsList(ToolUrl(Get(tools[|tools| - 1], "result"), parse))
  }

  /** The tools the validator walks: `metadata.tools` when the metadata
      and its tool list are both present and non-empty. */
  function MetadataTools(metadata: Option<Metadata>): seq<ToolRecord> {
    if metadata.Some? && metadata.value.tools.Some? then metadata.value.tools.value else []
  }

  /** The message as its validator leaves it: `iframe_url` is the list of
      URLs of the tool results, or None when there are none. */
  function WithToolUrls(m: Message, parse: Parser): Message {
    var urls := ToolsUrls(MetadataTools(m.metadata), parse);
    m.(iframeUrl := if urls == [] then None else Some(urls))
  }

  /** `MessageResponse.set_iframe_url` */
  method SetMessageIframeUrl(m: Message, parse: Parser) returns (r: Message)
    ensures r == WithToolUrls(m, parse)
  {
    var resultIframe: seq<Json> := [];
    if m.metadata.Some? && m.metadata.value.tools.Some? && m.metadata.value.tools.value != [] {
      var tools := m.metadata.value.tools.value;
      var i := 0;
      while i < |tools|
        invariant 0 <= i <= |tools|
        invariant resultIframe == ToolsUrls(tools[..i], parse)
      {
        assert tools[..i + 1][..i] == tools[..i];
        var content := Get(tools[i], "result");
        if Truthy(content) && content.JStr? {
          var parsed := parse(content.s);
          if parsed.None? {
            i := i + 1;
            continue;
          }
          content := parsed.value;
        }
        if content.JObj? && Truthy(Get(content.fields, "iframe_url")) {
          resultIframe := resultIframe + [Get(content.fields, "iframe_url")];
        }
        i := i + 1;
      }
      assert tools[..|tools|] == tools;
    }
    r := m.(iframeUrl := if resultIframe == [] then None else Some(resultIframe));
  }

  lemma {:induction false} ToolsUrlsAppend(a: seq<ToolRecord>, b: seq<ToolRecord>, parse: Parser)
    ensures ToolsUrls(a + b, parse) == ToolsUrls(a, parse) + ToolsUrls(b, parse)
    decreases |b|
  {
    if b == [] {
      assert a + b == a;
    } else {
      var b' := b[..|b| - 1];
      assert (a + b)[..|a + b| - 1] == a + b';
      assert (a + b)[|a + b| - 1] == b[|b| - 1];
      ToolsUrlsAppend(a, b', parse);
    }
  }

  /** Every collected URL is truthy and comes from one tool record; there
      are at most as many URLs as tools. */
  lemma {:induction false} ToolsUrlsSound(tools: seq<ToolRecord>, parse: Parser)
    ensures |ToolsUrls(tools, parse)| <= |tools|
    ensures forall u :: u in ToolsUrls(tools, parse) ==>
      Truthy(u) && exists i :: 0 <= i < |tools| && ToolUrl(Get(tools[i], "result"), parse) == Some(u)
    decreases |tools|
  {
    if tools != [] {
      var init := tools[..|tools| - 1];
      ToolsUrlsSound(init, parse);
      assert forall i :: 0 <= i < |init| ==> init[i] == tools[i];
    }
  }

  /** A tool result that is a string `json.loads` rejects is skipped
      without error: the URLs are those of the other tools. */
  lemma SkipUnparseable(before: seq<ToolRecord>, t: ToolRecord, after: seq<ToolRecord>, parse: Parser)
    requires Get(t, "result").JStr? && Get(t, "result").s != [] && parse(Get(t, "result").s).None?
    ensures ToolsUrls(before + [t] + after, parse) == ToolsUrls(before, parse) + ToolsUrls(after, parse)
  {
    ToolsUrlsAppend(before + [t], after, parse);
    assert (before + [t])[..|before + [t]| - 1] == before;
    assert ToolUrl(Get(t, "result"), parse) == None;
    assert ToolsUrls(before + [t], parse) == ToolsUrls(before, parse);
  }

  // ---------------------------------------------------------------------
  // ChatThreadWithMessages.set_iframe_url

  /** The content field as the validator sees it. */
  function ContentJson(content: Option<string>): Json {
    if content.Some? then JStr(content.value) else JNull
  }

  /** The URLs a message contributes: only tool messages contribute. */
  function Contribution(m: Message, parse: Parser): seq<Json> {
    if m.sender == Tool then AsList(ToolUrl(ContentJson(m.content), parse)) else []
  }

  /** The URLs of all tool messages, in order. */
  function AllToolUrls(msgs: seq<Message>, parse: Parser): seq<Json>
    decreases |msgs|
  {
    if msgs == [] then [] else AllToolUrls(msgs[..|msgs| - 1], parse) + Contribution(msgs[|msgs| - 1], parse)
  }

  /** The URLs pending after `msgs`: those of the tool messages since the
      last assistant message (an assistant either takes the pending URLs or
      finds none). */
  function Pending(msgs: seq<Message>, parse: Parser): seq<Json>
    decreases |msgs|
  {
    if msgs == [] then []
    else if msgs[|msgs| - 1].sender == Assistant then []
    else Pending(msgs[..|msgs| - 1], parse) + Contribution(msgs[|msgs| - 1], parse)
  }

  /** The thread's messages after the validator. */
  function Attached(msgs: seq<Message>, parse: Parser): seq<Message>
    decreases |msgs|
  {
    if msgs == [] then []
    else
      var init := msgs[..|msgs| - 1];
      var m := msgs[|msgs| - 1];
      var pending := Pending(init, parse);
      if m.sender == Tool then Attached(init, parse)
      else if pending != [] && m.sender == Assistant then Attached(init, parse) + [m.(iframeUrl := Some(pending))]
      else Attached(init, parse) + [m]
  }

  /** The messages that are not tool messages, in order. */
  function NonTool(msgs: seq<Message>): seq<Message>
    decreases |msgs|
  {
    if msgs == [] then []
    else if msgs[|msgs| - 1].sender == Tool then NonTool(msgs[..|msgs| - 1])
    else NonTool(msgs[..|msgs| - 1]) + [msgs[|msgs| - 1]]
  }

  function CountTools(msgs: seq<Message>): nat
    decreases |msgs|
  {
    if msgs == [] then 0
    else CountTools(msgs[..|msgs| - 1]) + (if msgs[|msgs| - 1].sender == Tool then 1 else 0)
  }

  datatype Thread = Thread(
    id: Option<string>,
    title: Option<string>,
    createdAt: Option<int>,
    updatedAt: Option<int>,
    createdBy: Option<string>,
    messages: Option<seq<Message>>)

  /** Iterating over `self.messages` when it is None raises. */
  datatype TypeError = NotIterable

  /** `ChatThreadWithMessages.set_iframe_url` */
  method SetThreadIframeUrl(t: Thread, parse: Parser) returns (r: Result<Thread, TypeError>)
    ensures t.messages.None? <==> r.Err?
    ensures t.messages.Some? ==> r == Ok(t.(messages := Some(Attached(t.messages.value, parse))))
  {
    if t.messages.None? {
      return Err(NotIterable);
    }
    var msgs := t.messages.value;
    var resultIframe: seq<Json> := [];
    var filtered: seq<Message> := [];
    var i := 0;
    while i < |msgs|
      invariant 0 <= i <= |msgs|
      invariant resultIframe == Pending(msgs[..i], parse)
      invariant filtered == Attached(msgs[..i], parse)
    {
      assert msgs[..i + 1][..i] == msgs[..i];
      var message := msgs[i];
      if message.sender == Tool {
        var url := ToolMessageUrl(message, parse);
        if url.Some? {
          resultIframe := resultIframe + [url.value];
        }
      } else {
        if resultIframe != [] && message.sender == Assistant {
          message := message.(iframeUrl := Some(resultIframe));
          resultIframe := [];
        }
        filtered := filtered + [message];
      }
      i := i + 1;
    }
    assert msgs[..|msgs|] == msgs;
    return Ok(t.(messages := Some(filtered)));
  }

  /** The tool-message branch of the loop: the content is decoded when it
      is a non-empty string (a message that does not decode is skipped), and
      a dict's truthy `iframe_url` is what the message contributes. */
  method ToolMessageUrl(message: Message, parse: Parser) returns (url: Option<Json>)
    ensures url == ToolUrl(ContentJson(message.content), parse)
  {
    var content := ContentJson(message.content);
    if Truthy(content) && content.JStr? {
      var parsed := parse(content.s);
      if parsed.None? {
        return None;
      }
      content := parsed.value;
    }
    if content.JObj? && Truthy(Get(content.fields, "iframe_url")) {
      return Some(Get(content.fields, "iframe_url"));
    }
    return None;
  }

  /** The validator keeps the non-tool messages in order and changes
      nothing but the `iframe_url` of assistant messages: no tool message
      remains, and there are as many messages as non-tool inputs. */
  lemma {:induction false} AttachedShape(msgs: seq<Message>, parse: Parser)
    ensures var a, n := Attached(msgs, parse), NonTool(msgs);
      |a| == |n| == |msgs| - CountTools(msgs)
      && (forall i :: 0 <= i < |a| ==> a[i].sender != Tool)
      && (forall i :: 0 <= i < |a| ==> a[i] == n[i].(iframeUrl := a[i].iframeUrl))
      && (forall i :: 0 <= i < |a| && n[i].sender != Assistant ==> a[i] == n[i])
    decreases |msgs|
  {
    if msgs != [] {
      AttachedShape(msgs[..|msgs| - 1], parse);
    }
  }

  /** Right after an assistant message nothing is pending; afterwards the
      pending URLs are those of the tool messages that followed it. */
  lemma {:induction false} PendingSinceAssistant(before: seq<Message>, x: Message, after: seq<Message>, parse: Parser)
    requires x.sender == Assistant
    requires forall i :: 0 <= i < |after| ==> after[i].sender != Assistant
    ensures Pending(before + [x] + after, parse) == AllToolUrls(after, parse)
    decreases |after|
  {
    if after != [] {
      var after' := after[..|after| - 1];
      assert (before + [x] + after)[..|before + [x] + after| - 1] == before + [x] + after';
      PendingSinceAssistant(before, x, after', parse);
    } else {
      assert before + [x] + after == before + [x];
    }
  }

  /** An assistant message takes, as its `iframe_url`, a copy of the URLs
      of the tool messages since the previous assistant message when there
      are any, and otherwise keeps its own. */
  lemma AssistantTakesPending(before: seq<Message>, x: Message, tools: seq<Message>, m: Message, parse: Parser)
    requires x.sender == Assistant && m.sender == Assistant
    requires forall i :: 0 <= i < |tools| ==> tools[i].sender != Assistant
    ensures var urls := AllToolUrls(tools, parse);
      var out := Attached(before + [x] + tools + [m], parse);
      out[|out| - 1] == if urls != [] then m.(iframeUrl := Some(urls)) else m
  {
    PendingSinceAssistant(before, x, tools, parse);
    assert (before + [x] + tools + [m])[..|before + [x] + tools + [m]| - 1] == before + [x] + tools;
  }

  /** URLs still pending after the last assistant message are dropped:
      trailing tool messages leave the result unchanged. */
  lemma {:induction false} TrailingToolsDropped(msgs: seq<Message>, tools: seq<Message>, parse: Parser)
    requires forall i :: 0 <= i < |tools| ==> tools[i].sender == Tool
    ensures Attached(msgs + tools, parse) == Attached(msgs, parse)
    decreases |tools|
  {
    if tools != [] {
      var tools' := tools[..|tools| - 1];
      assert (msgs + tools)[..|msgs + tools| - 1] == msgs + tools';
      TrailingToolsDropped(msgs, tools', parse);
    } else {
      assert msgs + tools == msgs;
    }
  }
}
