/** The stream reader of `submitWithStream` in
    frontend/src/providers/ChatProvider.tsx: decoded chunks are appended to
    a buffer, every complete line is cut off and handled, and the lines of
    the form `data: <payload>` (a simplified reader of the `data:` field of
    Server-Sent Events, section 9.2 of the WHATWG HTML Living Standard) feed
    the placeholder message of the reply. `JSON.parse` is the parameter
    `parse` (None when it throws); chunks arrive already decoded. */
module ChatStream {
  import opened Wrappers
  import opened Text
  import opened ChatResponse
  import opened ChatProvider

  /** `obj[k]` on a parsed object: None when the key is absent (`undefined`),
      as distinct from a JSON null. */
  function Field(fields: seq<(string, Json)>, k: string): Option<Json> {
    if fields == [] then None else if fields[0].0 == k then Some(fields[0].1) else Field(fields[1..], k)
  }

  /** JavaScript truthiness: null, false, 0 and "" are falsy; arrays and
      objects, even empty ones, are truthy. */
  predicate JsTruthy(j: Json) {
    match j
    case JNull => false
    case JBool(b) => b
    case JNum(n) => n != 0
    case JStr(s) => s != ""
    case JArr(_) => true
    case JObj(_) => true
  }

  /** `String(v)`, which `+=` applies to a non-string: arrays join their
      elements with "," (null elements as ""), objects print as
      "[object Object]". */
  function JsString(j: Json): string
    decreases j, if j.JArr? then |j.items| + 1 else 0
  {
    match j
    case JNull => "null"
    case JBool(b) => if b then "true" else "false"
    case JNum(n) => IntToString(n)
    case JStr(s) => s
    case JObj(_) => "[object Object]"
    case JArr(items) => JsElements(j, 0)
  }

  /** The elements of an array from index `i` on, joined with ",". */
  function JsElements(j: Json, i: nat): string
    requires j.JArr?
    decreases j, |j.items| - i
  {
    if i >= |j.items| then ""
    else
      (if j.items[i] == JNull then "" else JsString(j.items[i]))
      + (if i + 1 < |j.items| then "," + JsElements(j, i + 1) else "")
  }

  /** The text a payload appends to `streamedContent`, or None when the
      payload is ignored: it does not parse, it parses to null (reading
      `.content` of null throws, and the catch swallows it), or its
      `content` is null. A missing `content` appends "undefined". */
  function ChunkText(parsed: Option<Json>): (r: Option<string>)
    ensures parsed.None? || parsed == Some(JNull) ==> r.None?
  {
    match parsed
    case None => None
    case Some(JNull) => None
    case Some(JObj(fields)) =>
      (match Field(fields, "content")
       case None => Some("undefined")
       case Some(JNull) => None
       case Some(v) => Some(JsString(v)))
    case Some(_) => Some("undefined")
  }

  /** The `iframe_url` a payload carries over to the placeholder, when truthy. */
  function ChunkIframe(parsed: Option<Json>): Option<Json> {
    if parsed.Some? && parsed.value.JObj? then
      var f := Field(parsed.value.fields, "iframe_url");
      if f.Some? && JsTruthy(f.value) then f else None
    else None
  }

  /** `prev.map(msg => msg.id === placeholderId ? {...msg, content, iframe_url?} : msg)` */
  function UpdatePlaceholder(messages: seq<UiMessage>, placeholderId: string, content: string, iframe: Option<Json>): (r: seq<UiMessage>)
    ensures |r| == |messages|
    ensures forall i :: 0 <= i < |messages| ==> r[i].id == messages[i].id && r[i].kind == messages[i].kind
    ensures forall i :: 0 <= i < |messages| && messages[i].id != placeholderId ==> r[i] == messages[i]
    ensures forall i :: 0 <= i < |messages| && messages[i].id == placeholderId ==>
      r[i].content == content && r[i].iframeUrl == (if iframe.Some? then iframe else messages[i].iframeUrl)
  {
    seq(|messages|, i requires 0 <= i < |messages| =>
      if messages[i].id == placeholderId
      then messages[i].(content := content, iframeUrl := if iframe.Some? then iframe else messages[i].iframeUrl)
      else messages[i])
  }

  /** How a complete line of the stream is read. */
  datatype LineKind = Blank | Other | Done | Data(payload: string)

  /** The prefix of a server-sent data line, and the payload that ends
      the stream. */
  const DataPrefix: string := "data: "
  const DoneMarker: string := "[DONE]"

  /** The line is trimmed; blank lines are skipped, lines not starting with
      "data: " are ignored, and the payload is what follows those 6
      characters. */
  function Classify(line: string): (k: LineKind)
    ensures k.Data? ==> Trim(line) == DataPrefix + k.payload && k.payload != DoneMarker
    ensures k == Done <==> Trim(line) == DataPrefix + DoneMarker
    ensures k == Blank <==> Trim(line) == ""
  {
    var t := Trim(line);
    PrefixSplit(t, DataPrefix, DoneMarker);
    if t == "" then Blank
    else if !StartsWith(t, DataPrefix) then Other
    else
      var payload := t[|DataPrefix|..];
      PrefixSplit(t, DataPrefix, payload);
      if payload == DoneMarker then Done else Data(payload)
  }

  /** `t` is `prefix` followed by `p` exactly when it starts with `prefix`
      and `p` is what follows. */
  lemma PrefixSplit(t: string, prefix: string, p: string)
    ensures t == prefix + p <==> StartsWith(t, prefix) && t[|prefix|..] == p
  {
    if StartsWith(t, prefix) {
      assert t == t[..|prefix|] + t[|prefix|..];
    }
  }

  /** What the reader reads and writes: its two locals and the provider's
      loading flag, thread list and messages. */
  datatype Snapshot = Snapshot(buffer: string, streamed: string, loading: bool, threads: seq<UiThread>, messages: seq<UiMessage>)

  /** The fixed inputs of one streamed reply. */
  datatype StreamContext = StreamContext(threadId: string, placeholderId: string, nowIso: string, parse: Parser)

  /** A `data:` payload other than `[DONE]`. */
  function ApplyPayload(v: Snapshot, payload: string, ctx: StreamContext): Snapshot {
    var parsed := ctx.parse(payload);
    match ChunkText(parsed)
    case None => v
    case Some(text) =>
      v.(streamed := v.streamed + text,
         messages := UpdatePlaceholder(v.messages, ctx.placeholderId, v.streamed + text, ChunkIframe(parsed)))
  }

  /** `[DONE]`: loading ends and the thread records the exchange. */
  function Finish(v: Snapshot, ctx: StreamContext): Snapshot {
    v.(loading := false, threads := RecordExchange(v.threads, ctx.threadId, v.streamed, ctx.nowIso))
  }

  /** `buffer.indexOf('\n')` and the two slices around it: the line before
      the first `\n` and the rest after it. */
  function NextLine(buffer: string): (r: Option<(string, string)>)
    ensures r.None? <==> '\n' !in buffer
    ensures r.Some? ==> '\n' !in r.value.0 && buffer == r.value.0 + "\n" + r.value.1
  {
    var idx := IndexOf(buffer, '\n');
    if idx == -1 then None
    else
      SplitAround(buffer, idx);
      Some((buffer[..idx], buffer[idx + 1..]))
  }

  /** A text is what precedes position `i`, the character there and what follows. */
  lemma SplitAround(s: string, i: nat)
    requires i < |s|
    ensures s == s[..i] + [s[i]] + s[i + 1..]
  {
  }

  /** From `v` to `w` the streamed text only grew, the messages kept their
      number, ids and kinds, and only the placeholder's may differ. */
  predicate OnlyPlaceholder(v: Snapshot, w: Snapshot, placeholderId: string) {
    StartsWith(w.streamed, v.streamed) && |w.messages| == |v.messages|
    && (forall i :: 0 <= i < |v.messages| ==> w.messages[i].id == v.messages[i].id && w.messages[i].kind == v.messages[i].kind)
    && (forall i :: 0 <= i < |v.messages| && v.messages[i].id != placeholderId ==> w.messages[i] == v.messages[i])
  }

  lemma OnlyPlaceholderTrans(a: Snapshot, b: Snapshot, c: Snapshot, placeholderId: string)
    requires OnlyPlaceholder(a, b, placeholderId) && OnlyPlaceholder(b, c, placeholderId)
    ensures OnlyPlaceholder(a, c, placeholderId)
  {
    assert c.streamed[..|a.streamed|] == b.streamed[..|a.streamed|];
  }

  /** One complete line, handled against the state after it was cut off:
      the new state and whether it was `[DONE]`. */
  function HandleLine(w: Snapshot, line: string, ctx: StreamContext): (Snapshot, bool)
  {
    Step(w, Classify(line), ctx)
  }

  /** What a line of kind `k` does: `[DONE]` finishes, a payload is
      applied, anything else is skipped. */
  function Step(w: Snapshot, k: LineKind, ctx: StreamContext): (r: (Snapshot, bool))
    ensures r.0.buffer == w.buffer
    ensures r.1 <==> k == Done
    ensures r.1 ==> !r.0.loading
    ensures OnlyPlaceholder(w, r.0, ctx.placeholderId)
  {
    match k
    case Done => (Finish(w, ctx), true)
    case Data(p) =>
      var u := ApplyPayload(w, p, ctx);
      assert u.streamed == w.streamed || u.streamed[..|w.streamed|] == w.streamed;
      (u, false)
    case _ => (w, false)
  }

  /** The inner line loop over the buffer: the new state and whether it
      stopped at `[DONE]`. */
  function DrainLines(v: Snapshot, ctx: StreamContext): (Snapshot, bool)
    decreases |v.buffer|
  {
    match NextLine(v.buffer)
    case None => (v, false)
    case Some((line, rest)) =>
      var (u, stop) := HandleLine(v.(buffer := rest), line, ctx);
      if stop then (u, true) else DrainLines(u, ctx)
  }

  /** Where the line loop goes from state `v`: nowhere once it stopped,
      otherwise on through the buffer. */
  function Resume(v: Snapshot, stopped: bool, ctx: StreamContext): (Snapshot, bool) {
    if stopped then (v, true) else DrainLines(v, ctx)
  }

  /** One turn of the line loop, in terms of the position of the first `\n`. */
  lemma DrainStep(v: Snapshot, ctx: StreamContext)
    requires IndexOf(v.buffer, '\n') != -1
    ensures var i := IndexOf(v.buffer, '\n');
      0 <= i < |v.buffer|
      && DrainLines(v, ctx) == (var r := Step(v.(buffer := v.buffer[i + 1..]), Classify(v.buffer[..i]), ctx);
                                Resume(r.0, r.1, ctx))
  {
    var i := IndexOf(v.buffer, '\n');
    assert NextLine(v.buffer) == Some((v.buffer[..i], v.buffer[i + 1..]));
  }

  /** Without a `\n` the line loop stops at once. */
  lemma DrainStop(v: Snapshot, ctx: StreamContext)
    requires IndexOf(v.buffer, '\n') == -1
    ensures DrainLines(v, ctx) == (v, false)
  {
  }

  /** The outer loop: each chunk is appended and drained; when the reader
      is done, loading ends. A trailing line without `\n` is never handled. */
  function ReadAll(v: Snapshot, chunks: seq<string>, ctx: StreamContext): Snapshot
    decreases |chunks|
  {
    if chunks == [] then v.(loading := false)
    else ReadAll(DrainLines(v.(buffer := v.buffer + chunks[0]), ctx).0, chunks[1..], ctx)
  }

  /** `tail` is what is left of `buffer` once some complete lines are cut
      off its front: a suffix that, if shorter, follows a `\n`. */
  predicate LineTail(buffer: string, tail: string) {
    |tail| <= |buffer| && tail == buffer[|buffer| - |tail|..]
    && (|tail| < |buffer| ==> buffer[|buffer| - |tail| - 1] == '\n')
  }

  lemma LineTailTrans(a: string, b: string, c: string)
    requires LineTail(a, b) && LineTail(b, c)
    ensures LineTail(a, c)
  {
    if |c| < |b| {
      assert a[|a| - |c| - 1] == b[|b| - |c| - 1];
    }
  }

  /** The buffer left by the line loop is a suffix of what it started with,
      cut just after a `\n`; unless the loop stopped at `[DONE]`, no `\n`
      is left in it, and when it stopped, loading has ended. */
  lemma {:induction false} DrainLeavesTail(v: Snapshot, ctx: StreamContext)
    ensures LineTail(v.buffer, DrainLines(v, ctx).0.buffer)
    ensures !DrainLines(v, ctx).1 ==> '\n' !in DrainLines(v, ctx).0.buffer
    ensures DrainLines(v, ctx).1 ==> !DrainLines(v, ctx).0.loading
    decreases |v.buffer|
  {
    match NextLine(v.buffer)
    case None =>
    case Some((line, rest)) =>
      var (u, stop) := HandleLine(v.(buffer := rest), line, ctx);
      assert LineTail(v.buffer, rest) by {
        assert v.buffer[|line|] == '\n';
        assert rest == v.buffer[|line| + 1..];
      }
      if !stop {
        DrainLeavesTail(u, ctx);
        LineTailTrans(v.buffer, rest, DrainLines(u, ctx).0.buffer);
      }
  }

  /** The streamed text only grows, the messages keep their number, ids and
      kinds, and only the placeholder's content and iframe can change. */
  lemma {:induction false} DrainTouchesOnlyPlaceholder(v: Snapshot, ctx: StreamContext)
    ensures OnlyPlaceholder(v, DrainLines(v, ctx).0, ctx.placeholderId)
    decreases |v.buffer|
  {
    match NextLine(v.buffer)
    case None =>
    case Some((line, rest)) =>
      var (u, stop) := Step(v.(buffer := rest), Classify(line), ctx);
      if !stop {
        DrainTouchesOnlyPlaceholder(u, ctx);
        OnlyPlaceholderTrans(v, u, DrainLines(u, ctx).0, ctx.placeholderId);
      }
  }

  /** The first line of `line + "\n" + rest` is `line`. */
  lemma NextLineOf(line: string, rest: string)
    requires '\n' !in line
    ensures NextLine(line + "\n" + rest) == Some((line, rest))
  {
    var b := line + "\n" + rest;
    var i := IndexOf(b, '\n');
    assert b[|line|] == '\n';
    assert b[..|line|] == line;
    assert forall j :: 0 <= j < |line| ==> b[j] == line[j];
    assert i == |line|;
    assert b[i + 1..] == rest;
  }

  /** A complete line that is blank or not a `data:` line is consumed and
      changes nothing else. */
  lemma SkippedLine(v: Snapshot, line: string, rest: string, ctx: StreamContext)
    requires '\n' !in line
    requires Classify(line) == Blank || Classify(line) == Other
    ensures DrainLines(v.(buffer := line + "\n" + rest), ctx) == DrainLines(v.(buffer := rest), ctx)
  {
    NextLineOf(line, rest);
  }

  /** A `data: [DONE]` line stops the line loop at once: the lines after
      it stay in the buffer for the next chunk, and the preview is taken
      from the text streamed so far (`ClassifyDone` shows the marker itself
      meets the requirements). */
  lemma DoneKeepsRest(v: Snapshot, line: string, rest: string, ctx: StreamContext)
    requires '\n' !in line && Classify(line) == Done
    ensures DrainLines(v.(buffer := line + "\n" + rest), ctx)
         == (v.(buffer := rest, loading := false, threads := RecordExchange(v.threads, ctx.threadId, v.streamed, ctx.nowIso)), true)
  {
    NextLineOf(line, rest);
  }

  /** The `data: [DONE]` line holds no line break and is the end marker. */
  lemma ClassifyDone(line: string)
    requires line == "data: [DONE]"
    ensures '\n' !in line
    ensures Classify(line) == Done
  {
    assert !IsSpace(line[0]) && !IsSpace(line[|line| - 1]);
    TrimUnchanged(line);
    assert line == DataPrefix + DoneMarker;
  }

  /** A payload whose `content` is a string appends exactly that string. */
  lemma StringContentAppends(fields: seq<(string, Json)>, s: string)
    requires Field(fields, "content") == Some(JStr(s))
    ensures ChunkText(Some(JObj(fields))) == Some(s)
  {
  }

  /** The reader's state while a reply streams in. */
  class StreamReader {
    const provider: Provider
    const ctx: StreamContext
    var buffer: string
    var streamed: string

    constructor(provider: Provider, ctx: StreamContext)
      ensures this.provider == provider && this.ctx == ctx && buffer == "" && streamed == ""
    {
      this.provider := provider;
      this.ctx := ctx;
      buffer := "";
      streamed := "";
    }

    function Snap(): Snapshot
      reads this, provider
    {
      Snapshot(buffer, streamed, provider.isLoading, provider.threads, provider.messages)
    }

    /** One pass of the outer loop: append the chunk, then cut off and
        handle complete lines until none is left or `[DONE]` is seen. */
    method ProcessChunk(chunk: string) returns (sawDone: bool)
      modifies this, provider`isLoading, provider`threads, provider`messages
      ensures (Snap(), sawDone) == DrainLines(old(Snap()).(buffer := old(buffer) + chunk), ctx)
    {
      buffer := buffer + chunk;
      ghost var target := DrainLines(Snap(), ctx);
      sawDone := false;
      var lineIndex := IndexOf(buffer, '\n');
      while lineIndex != -1 && !sawDone
        invariant lineIndex == IndexOf(buffer, '\n')
        invariant Resume(Snap(), sawDone, ctx) == target
        decreases |buffer|, !sawDone
      {
        sawDone := TakeLine(lineIndex);
        lineIndex := IndexOf(buffer, '\n');
      }
      if !sawDone {
        DrainStop(Snap(), ctx);
      }
    }

    /** One turn of the line loop: the line before the first `\n` is cut
        off the buffer and handled. */
    method TakeLine(lineIndex: int) returns (sawDone: bool)
      requires lineIndex == IndexOf(buffer, '\n') && lineIndex != -1
      modifies this`buffer, this`streamed, provider`isLoading, provider`threads, provider`messages
      ensures |buffer| < old(|buffer|)
      ensures Resume(Snap(), sawDone, ctx) == DrainLines(old(Snap()), ctx)
    {
      DrainStep(Snap(), ctx);
      var line := buffer[..lineIndex];
      buffer := buffer[lineIndex + 1..];
      sawDone := HandleOne(Classify(line));
    }

    /** The body of the line loop for one line already cut off the buffer
        and classified. */
    method HandleOne(kind: LineKind) returns (isDone: bool)
      modifies this`streamed, provider`isLoading, provider`threads, provider`messages
      ensures (Snap(), isDone) == Step(old(Snap()), kind, ctx)
    {
      ghost var w := Snap();
      isDone := false;
      match kind {
        case Done =>
          provider.isLoading := false;
          provider.threads := RecordExchange(provider.threads, ctx.threadId, streamed, ctx.nowIso);
          isDone := true;
          assert Snap() == Finish(w, ctx);
        case Data(data) =>
          var parsed := ctx.parse(data);
          var text := ChunkText(parsed);
          if text.Some? {
            streamed := streamed + text.value;
            provider.messages := UpdatePlaceholder(provider.messages, ctx.placeholderId, streamed, ChunkIframe(parsed));
          }
          assert Snap() == ApplyPayload(w, data, ctx);
        case _ =>
      }
    }

    /** The outer `while (true)` over the chunks the reader yields, ending
        with loading cleared when the reader is done. */
    method ReadStream(chunks: seq<string>)
      modifies this, provider`isLoading, provider`threads, provider`messages
      ensures Snap() == ReadAll(old(Snap()), chunks, ctx)
    {
      var i := 0;
      while i < |chunks|
        invariant 0 <= i <= |chunks|
        invariant ReadAll(Snap(), chunks[i..], ctx) == ReadAll(old(Snap()), chunks, ctx)
      {
        assert chunks[i..][1..] == chunks[i + 1..];
        var _ := ProcessChunk(chunks[i]);
        i := i + 1;
      }
      provider.isLoading := false;
    }
  }
}
