/** The chat state kept by the front end's ChatProvider
    (frontend/src/providers/ChatProvider.tsx): the thread list, the messages
    of the current thread, and the refs `switchThread` uses to avoid
    redundant loads. React state updates are applied in order, as one
    sequential caller would see them. Server replies, the clock
    (`Date.now()` in milliseconds, `new Date().toISOString()` as a string)
    and `uuidv4()` are parameters. */
module ChatProvider {
  import opened Wrappers
  import opened Text
  import opened ChatResponse
  import opened ApiClient

  /** The preview shown under a thread in the list. */
  datatype LastMessage = LastMessage(content: string, sender: string, timestamp: string)

  /** `Thread` */
  datatype UiThread = UiThread(
    id: string, title: string, createdAt: string, updatedAt: string,
    messageCount: int, lastMessage: Option<LastMessage>, createdBy: Option<string>)

  datatype MessageType = Human | Ai | ToolMessage

  /** `Message`, with the fields the provider sets. */
  datatype UiMessage = UiMessage(id: string, kind: MessageType, content: string, timestamp: string, iframeUrl: Option<Json>)

  /** `s.substring(0, n)`: at most the first `n` characters. */
  function Prefix(s: string, n: nat): (r: string)
    ensures |r| <= n && StartsWith(s, r)
    ensures |s| <= n ==> r == s
    ensures |s| > n ==> |r| == n
  {
    if |s| <= n then s else s[..n]
  }

  /** The `lastMessage` preview: the first 50 characters, with "..." when
      there were more. */
  function Preview(s: string): string {
    Prefix(s, 50) + (if |s| > 50 then "..." else "")
  }

  /** A text of at most 50 characters is its own preview; a longer one is
      cut to its first 50 characters and "..." is added, and only then. */
  lemma PreviewShape(s: string)
    ensures |s| <= 50 ==> Preview(s) == s
    ensures |s| > 50 ==> Preview(s) == s[..50] + "..."
    ensures Preview(s) == Prefix(s, 50) + "..." <==> |s| > 50
    ensures |Preview(s)| <= 53
  {
    if |s| <= 50 {
      assert Preview(s) == s + "";
      assert |Prefix(s, 50) + "..."| == |s| + 3;
    }
  }

  /** `threads.map(t => t.id === id ? f(t) : t)` */
  function UpdateThread(threads: seq<UiThread>, id: string, f: UiThread -> UiThread): (r: seq<UiThread>)
    ensures |r| == |threads|
    ensures forall i :: 0 <= i < |threads| ==> r[i] == if threads[i].id == id then f(threads[i]) else threads[i]
  {
    seq(|threads|, i requires 0 <= i < |threads| => if threads[i].id == id then f(threads[i]) else threads[i])
  }

  /** The update after a reply: two more messages (the user's and the
      assistant's), the time, and the preview of the reply. */
  function AfterExchange(t: UiThread, reply: string, nowIso: string): UiThread {
    t.(messageCount := t.messageCount + 2, updatedAt := nowIso,
       lastMessage := Some(LastMessage(Preview(reply), "assistant", nowIso)))
  }

  /** The thread-list update after `submit` or a finished stream. */
  function RecordExchange(threads: seq<UiThread>, threadId: string, reply: string, nowIso: string): seq<UiThread> {
    UpdateThread(threads, threadId, (t: UiThread) => AfterExchange(t, reply, nowIso))
  }

  /** Recording a reply keeps the list's order and ids, adds 2 to the
      count of the thread it belongs to, and touches no other thread. */
  lemma RecordExchangeEffect(threads: seq<UiThread>, threadId: string, reply: string, nowIso: string)
    ensures var r := RecordExchange(threads, threadId, reply, nowIso);
      |r| == |threads|
      && (forall i :: 0 <= i < |threads| ==> r[i].id == threads[i].id)
      && (forall i :: 0 <= i < |threads| && threads[i].id == threadId ==>
            r[i].messageCount == threads[i].messageCount + 2 && r[i].lastMessage.Some?
            && r[i].lastMessage.value.content == Preview(reply) && r[i].title == threads[i].title)
      && (forall i :: 0 <= i < |threads| && threads[i].id != threadId ==> r[i] == threads[i])
  {
  }

  /** `threads.filter(t => t.id !== id)` */
  function Without(threads: seq<UiThread>, id: string): (r: seq<UiThread>)
    ensures |r| <= |threads|
    ensures forall t :: t in r <==> t in threads && t.id != id
  {
    if threads == [] then []
    else if threads[0].id == id then Without(threads[1..], id)
    else [threads[0]] + Without(threads[1..], id)
  }

  /** Filtering by a thread's id that is not in the list changes nothing. */
  lemma {:induction false} WithoutAbsent(threads: seq<UiThread>, id: string)
    requires forall i :: 0 <= i < |threads| ==> threads[i].id != id
    ensures Without(threads, id) == threads
  {
    if threads != [] {
      WithoutAbsent(threads[1..], id);
    }
  }

  /** Filtering twice is filtering once. */
  lemma WithoutIdempotent(threads: seq<UiThread>, id: string)
    ensures Without(Without(threads, id), id) == Without(threads, id)
  {
    var r := Without(threads, id);
    assert forall i :: 0 <= i < |r| ==> r[i] in r;
    WithoutAbsent(r, id);
  }

  /** `id.substring(0, 8)`, the default title of a thread. */
  function ShortId(id: string): string {
    Prefix(id, 8)
  }

  /** The thread shown right after `createNewThread` succeeds. */
  function NewThread(id: string, nowIso: string): UiThread {
    UiThread(id, ShortId(id), nowIso, nowIso, 0, None, None)
  }

  /** Creating a thread and then deleting it gives the old list back. */
  lemma CreateThenDelete(threads: seq<UiThread>, id: string, nowIso: string)
    requires forall i :: 0 <= i < |threads| ==> threads[i].id != id
    ensures Without([NewThread(id, nowIso)] + threads, id) == threads
  {
    assert ([NewThread(id, nowIso)] + threads)[1..] == threads;
    WithoutAbsent(threads, id);
  }

  // ---------------------------------------------------------------------
  // Loading a thread

  /** A message as the thread endpoint returns it. */
  datatype ApiMessage = ApiMessage(id: Option<string>, sender: string, content: Option<string>, timestamp: Option<string>, iframeUrl: Option<Json>)

  /** A thread as the thread endpoint returns it. */
  datatype ApiThread = ApiThread(id: string, createdAt: Option<string>, updatedAt: Option<string>,
                                 createdBy: Option<string>, messages: Option<seq<ApiMessage>>)

  /** What the awaited `apiClient.get` of the thread gave: the thread, or
      what it threw. */
  type FetchResult = Outcome<ApiThread>

  /** `a || b` on optional strings: None and "" are falsy. */
  function OrElse(a: Option<string>, b: string): (r: string)
    ensures a.Some? && a.value != "" ==> r == a.value
    ensures (a.None? || a.value == "") ==> r == b
  {
    if a.Some? && a.value != "" then a.value else b
  }

  /** `Error loading thread: ${err.message || 'Unknown error'}`: a value
      that is not an `Error` has no message. */
  function LoadErrorText(err: Thrown): (r: string)
    ensures err.JsError? && err.message != "" ==> r == "Error loading thread: " + err.message
    ensures (err.NonError? || err.message == "") ==> r == "Error loading thread: Unknown error"
  {
    "Error loading thread: " + OrElse(if err.JsError? then Some(err.message) else None, "Unknown error")
  }

  /** A thread the server does not have: `apiClient.get` throws a plain
      error for the 404, so `switchThread` never takes its 404 branch and
      shows an error instead: "Error loading thread: API error: 404 - "
      and the body when the body is JSON, the second body read's error
      when it is not. */
  lemma NotFoundShowsError(body: Result<ApiThread, string>, errorBody: ErrorBody)
    ensures var fetch: FetchResult := ApiClient.Get(Answered(404, body, errorBody));
      fetch.Threw? && !StatusNotFound(fetch)
      && (errorBody.JsonBody? ==>
            fetch.err == JsError("API error: 404 - " + errorBody.json, None)
            && LoadErrorText(fetch.err) == "Error loading thread: " + fetch.err.message)
      && (errorBody.PlainBody? ==> fetch.err == JsError(errorBody.rereadError, None))
  {
    if errorBody.JsonBody? {
      GetNotFound(body, errorBody.json);
      var m := "API error: 404 - " + errorBody.json;
      assert |m| == 17 + |errorBody.json|;
    }
  }

  /** The message type for an API sender. */
  function KindOf(sender: string): MessageType {
    if sender == "user" then Human else if sender == "assistant" then Ai else ToolMessage
  }

  /** `apiMessages.map(...)`: ids default to a fresh uuid (`genId(i)` for
      the i-th message), content to "", timestamps to now. */
  function FormatMessages(api: seq<ApiMessage>, genId: nat -> string, nowIso: string): (r: seq<UiMessage>)
    ensures |r| == |api|
    ensures forall i :: 0 <= i < |api| ==>
      r[i].kind == KindOf(api[i].sender) && r[i].iframeUrl == api[i].iframeUrl
      && r[i].id == OrElse(api[i].id, genId(i)) && r[i].content == OrElse(api[i].content, "")
      && r[i].timestamp == OrElse(api[i].timestamp, nowIso)
  {
    seq(|api|, i requires 0 <= i < |api| =>
      UiMessage(OrElse(api[i].id, genId(i)), KindOf(api[i].sender), OrElse(api[i].content, ""),
                OrElse(api[i].timestamp, nowIso), api[i].iframeUrl))
  }

  /** Users' messages become human ones, the assistant's AI ones, and every
      other sender a tool message. */
  lemma SenderKinds(sender: string)
    ensures KindOf(sender) == Human <==> sender == "user"
    ensures KindOf(sender) == Ai <==> sender == "assistant"
  {
  }

  /** The loaded thread's fields over the listed one's: server values win
      when truthy; the count is the number of loaded messages. */
  function Refreshed(t: UiThread, data: ApiThread, count: nat): UiThread {
    t.(title := OrElse(Some(ShortId(data.id)), t.title),
       createdAt := OrElse(data.createdAt, t.createdAt),
       updatedAt := OrElse(data.updatedAt, t.updatedAt),
       messageCount := count,
       createdBy := if data.createdBy.Some? && data.createdBy.value != "" then data.createdBy else t.createdBy)
  }

  /** `THREAD_LOAD_DEBOUNCE_MS` */
  const DebounceMs := 1000

  /** `lastLoadTimeRef.current[threadId] || 0` */
  function LastLoad(lastLoadTime: map<string, int>, threadId: string): int {
    if threadId in lastLoadTime then lastLoadTime[threadId] else 0
  }

  /** Whether `switchThread(threadId)` gets past its three guards. */
  predicate SwitchAdmitted(currentThreadId: Option<string>, lastLoaded: Option<string>, loadingThread: bool,
                           lastLoadTime: map<string, int>, threadId: string, now: int) {
    !(currentThreadId == Some(threadId) && lastLoaded == Some(threadId))
    && !loadingThread
    && now - LastLoad(lastLoadTime, threadId) >= DebounceMs
  }

  /** A load records its time, so the same thread is not loaded again
      within the next 1000 ms, whatever else happens. */
  lemma DebounceWindow(current: Option<string>, lastLoaded: Option<string>, loading: bool,
                       lastLoadTime: map<string, int>, threadId: string, t: int, later: int)
    requires t <= later < t + DebounceMs
    ensures !SwitchAdmitted(current, lastLoaded, loading, lastLoadTime[threadId := t], threadId, later)
  {
  }

  /** Each of the three guards on its own turns the call away. */
  lemma SwitchGuards(current: Option<string>, lastLoaded: Option<string>, loading: bool,
                     lastLoadTime: map<string, int>, threadId: string, now: int)
    ensures current == Some(threadId) && lastLoaded == Some(threadId) ==> !SwitchAdmitted(current, lastLoaded, loading, lastLoadTime, threadId, now)
    ensures loading ==> !SwitchAdmitted(current, lastLoaded, loading, lastLoadTime, threadId, now)
    ensures now - LastLoad(lastLoadTime, threadId) < DebounceMs ==> !SwitchAdmitted(current, lastLoaded, loading, lastLoadTime, threadId, now)
    ensures threadId !in lastLoadTime && now >= DebounceMs && !loading && lastLoaded != Some(threadId) ==>
      SwitchAdmitted(current, lastLoaded, loading, lastLoadTime, threadId, now)
  {
  }

  /** The provider's state: React state plus the refs `switchThread` keeps. */
  class Provider {
    var threads: seq<UiThread>
    var messages: seq<UiMessage>
    var currentThreadId: Option<string>
    var isLoading: bool
    var error: Option<string>
    var lastLoadedThread: Option<string>
    var isLoadingThread: bool
    var lastLoadTime: map<string, int>

    constructor()
      ensures threads == [] && messages == [] && currentThreadId.None? && !isLoading && error.None?
      ensures lastLoadedThread.None? && !isLoadingThread && lastLoadTime == map[]
    {
      threads := [];
      messages := [];
      currentThreadId := None;
      isLoading := false;
      error := None;
      lastLoadedThread := None;
      isLoadingThread := false;
      lastLoadTime := map[];
    }

    /** `createNewThread`: `response` is the awaited `apiClient.post`: the
        reply's `thread_id` (None when it has none), or what the request
        threw. A new thread goes to the front of the list and becomes
        current with no messages. A missing or empty id is thrown as
        "Failed to create thread - no ID returned"; the error is then the
        thrown `Error`'s message (a thrown value that is not an `Error`
        becomes "Failed to create new thread"). */
    method CreateNewThread(response: Outcome<Option<string>>, nowIso: string) returns (r: Option<string>)
      modifies this
      ensures !isLoading
      ensures r.Some? <==> response.Returned? && response.value.Some? && response.value.value != ""
      ensures r.Some? ==> (r == response.value && threads == [NewThread(r.value, nowIso)] + old(threads)
        && currentThreadId == r && messages == [] && error == old(error))
      ensures r.None? ==> (threads == old(threads) && currentThreadId == old(currentThreadId) && messages == old(messages))
      ensures r.None? && response.Returned? ==> error == Some("Failed to create thread - no ID returned")
      ensures response.Threw? && response.err.JsError? ==> error == Some(response.err.message)
      ensures response.Threw? && response.err.NonError? ==> error == Some("Failed to create new thread")
      ensures lastLoadedThread == old(lastLoadedThread) && isLoadingThread == old(isLoadingThread) && lastLoadTime == old(lastLoadTime)
    {
      isLoading := true;
      match response {
        case Threw(err) =>
          error := Some(if err.JsError? then err.message else "Failed to create new thread");
          r := None;
        case Returned(newThreadId) =>
          if newThreadId.None? || newThreadId.value == "" {
            error := Some("Failed to create thread - no ID returned");
            r := None;
          } else {
            var id := newThreadId.value;
            threads := [NewThread(id, nowIso)] + threads;
            currentThreadId := Some(id);
            messages := [];
            r := Some(id);
          }
      }
      isLoading := false;
    }

    /** `deleteThread`: removes the thread from the list at once and clears
        the current thread if it was that one. `response` is the awaited
        `apiClient.delete`: the server's `success`, or what it threw. The
        list is restored only when the server answers `success: false`;
        after an exception the thread stays removed and the error is the
        thrown `Error`'s message (a thrown value that is not an `Error`
        becomes "Failed to delete thread"). */
    method DeleteThread(threadId: string, response: Outcome<bool>) returns (ok: bool)
      modifies this
      ensures ok <==> response == Returned(true)
      ensures threads == if response == Returned(false) then old(threads) else Without(old(threads), threadId)
      ensures old(currentThreadId) == Some(threadId) ==> currentThreadId.None? && messages == []
      ensures old(currentThreadId) != Some(threadId) ==> currentThreadId == old(currentThreadId) && messages == old(messages)
      ensures response.Threw? && response.err.JsError? ==> error == Some(response.err.message)
      ensures response.Threw? && response.err.NonError? ==> error == Some("Failed to delete thread")
      ensures response.Returned? ==> error == old(error)
      ensures isLoading == old(isLoading) && lastLoadedThread == old(lastLoadedThread)
      ensures isLoadingThread == old(isLoadingThread) && lastLoadTime == old(lastLoadTime)
    {
      var currentThreads := threads;
      threads := Without(threads, threadId);
      if currentThreadId == Some(threadId) {
        currentThreadId := None;
        messages := [];
      }
      match response {
        case Threw(err) =>
          error := Some(if err.JsError? then err.message else "Failed to delete thread");
          ok := false;
        case Returned(success) =>
          if success {
            ok := true;
          } else {
            threads := currentThreads;
            ok := false;
          }
      }
    }

    /** `switchThread`: turned away by the three guards; otherwise records
        the load time, makes the thread current, and installs what the
        server returned. The loading flag and ref are cleared on every path
        (the `finally`). The 404 branch is kept as written, though no value
        `apiClient.get` throws carries a status (`NotFoundShowsError`). */
    method SwitchThread(threadId: string, now: int, fetch: FetchResult, genId: nat -> string, nowIso: string)
      modifies this
      ensures !SwitchAdmitted(old(currentThreadId), old(lastLoadedThread), old(isLoadingThread), old(lastLoadTime), threadId, now) ==>
        threads == old(threads) && messages == old(messages) && currentThreadId == old(currentThreadId)
        && isLoading == old(isLoading) && error == old(error) && lastLoadedThread == old(lastLoadedThread)
        && isLoadingThread == old(isLoadingThread) && lastLoadTime == old(lastLoadTime)
      ensures SwitchAdmitted(old(currentThreadId), old(lastLoadedThread), old(isLoadingThread), old(lastLoadTime), threadId, now) ==>
        lastLoadTime == old(lastLoadTime)[threadId := now] && !isLoading && !isLoadingThread
        && currentThreadId == Some(threadId)
        && match fetch
           case Threw(err) =>
             if StatusNotFound(fetch) then
               messages == [] && lastLoadedThread == Some(threadId) && threads == old(threads) && error.None?
             else
               error == Some(LoadErrorText(err))
               && lastLoadedThread == old(lastLoadedThread) && threads == old(threads)
               && messages == (if old(currentThreadId) == Some(threadId) then old(messages) else [])
           case Returned(data) =>
             var loaded := FormatMessages(if data.messages.Some? then data.messages.value else [], genId, nowIso);
             messages == loaded && lastLoadedThread == Some(threadId) && error.None?
             && threads == UpdateThread(old(threads), threadId, (t: UiThread) => Refreshed(t, data, |loaded|))
    {
      if currentThreadId == Some(threadId) && lastLoadedThread == Some(threadId) {
        return;
      }
      if isLoadingThread {
        return;
      }
      var lastLoad := LastLoad(lastLoadTime, threadId);
      if now - lastLoad < DebounceMs {
        return;
      }
      LoadThread(threadId, now, fetch, genId, nowIso);
    }

    /** The body of `switchThread` once past its guards. */
    method LoadThread(threadId: string, now: int, fetch: FetchResult, genId: nat -> string, nowIso: string)
      modifies this
      ensures lastLoadTime == old(lastLoadTime)[threadId := now] && !isLoading && !isLoadingThread
        && currentThreadId == Some(threadId)
        && match fetch
           case Threw(err) =>
             if StatusNotFound(fetch) then
               messages == [] && lastLoadedThread == Some(threadId) && threads == old(threads) && error.None?
             else
               error == Some(LoadErrorText(err))
               && lastLoadedThread == old(lastLoadedThread) && threads == old(threads)
               && messages == (if old(currentThreadId) == Some(threadId) then old(messages) else [])
           case Returned(data) =>
             var loaded := FormatMessages(if data.messages.Some? then data.messages.value else [], genId, nowIso);
             messages == loaded && lastLoadedThread == Some(threadId) && error.None?
             && threads == UpdateThread(old(threads), threadId, (t: UiThread) => Refreshed(t, data, |loaded|))
    {
      isLoadingThread := true;
      lastLoadTime := lastLoadTime[threadId := now];
      isLoading := true;
      error := None;
      if currentThreadId != Some(threadId) {
        currentThreadId := Some(threadId);
        messages := [];
      }
      InstallFetched(threadId, fetch, genId, nowIso);
      isLoading := false;
      isLoadingThread := false;
    }

    /** What the thread request's answer installs: nothing but an empty
        thread when the thrown value carries status 404, the error message
        for any other failure, and for a reply the formatted messages and
        the refreshed entry in the list. */
    method InstallFetched(threadId: string, fetch: FetchResult, genId: nat -> string, nowIso: string)
      modifies this`messages, this`lastLoadedThread, this`error, this`threads
      ensures match fetch
        case Threw(err) =>
          if StatusNotFound(fetch) then
            messages == [] && lastLoadedThread == Some(threadId) && threads == old(threads) && error == old(error)
          else
            error == Some(LoadErrorText(err))
            && lastLoadedThread == old(lastLoadedThread) && threads == old(threads) && messages == old(messages)
        case Returned(data) =>
          var loaded := FormatMessages(if data.messages.Some? then data.messages.value else [], genId, nowIso);
          messages == loaded && lastLoadedThread == Some(threadId) && error == old(error)
          && threads == UpdateThread(old(threads), threadId, (t: UiThread) => Refreshed(t, data, |loaded|))
    {
      match fetch {
        case Threw(err) =>
          if err.JsError? && err.status == Some(404) {
            messages := [];
            lastLoadedThread := Some(threadId);
          } else {
            error := Some(LoadErrorText(err));
          }
        case Returned(data) =>
          var api := if data.messages.Some? then data.messages.value else [];
          var loaded := FormatMessages(api, genId, nowIso);
          threads := UpdateThread(threads, threadId, (t: UiThread) => Refreshed(t, data, |loaded|));
          messages := loaded;
          lastLoadedThread := Some(threadId);
      }
    }
  }
}
