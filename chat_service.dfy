/** The thread listing and formatting of services/chat.py: stored agent
    sessions become threads and thread summaries, and `get_threads` sorts
    and pages them. The document store is a sequence of stored sessions;
    the clock is the parameter `now`. */
module ChatService {
  import opened Wrappers
  import opened Text
  import opened ChatResponse

  /** A message of a stored session's memory. A `created_at` of None
      stands for a missing key. */
  datatype RawMessage = RawMessage(role: Option<string>, content: Option<string>, createdAt: Option<int>, metadata: Option<Metadata>)

  /** A stored agent session. `memory.messages` is the empty list when
      `memory` or its `messages` key is missing. */
  datatype RawThread = RawThread(
    sessionId: string,
    userId: Option<string>,
    createdAt: Option<int>,
    updatedAt: Option<int>,
    memoryMessages: seq<RawMessage>)

  datatype FormatError =
    | RoleNotString        // `None in "system"` raises TypeError
    | InvalidSender(role: string)
    | MissingTimestamp

  /** Python's `a in b` for strings: `a` is a substring of `b`. */
  predicate SubstringOf(a: string, b: string)
    decreases |b|
  {
    StartsWith(b, a) || (b != [] && SubstringOf(a, b[1..]))
  }

  /** `m.get("role") not in ("system") and m.get("content")`: the
      parenthesised `("system")` is a string, so the test is substring
      containment. */
  predicate Kept(m: RawMessage)
    requires m.role.Some?
  {
    !SubstringOf(m.role.value, "system") && m.content.Some? && m.content.value != []
  }

  function FilterKept(runs: seq<RawMessage>): (r: seq<RawMessage>)
    requires forall i :: 0 <= i < |runs| ==> runs[i].role.Some?
    ensures forall i :: 0 <= i < |r| ==> r[i].role.Some? && Kept(r[i])
    decreases |runs|
  {
    if runs == [] then []
    else
      var init := FilterKept(runs[..|runs| - 1]);
      if Kept(runs[|runs| - 1]) then init + [runs[|runs| - 1]] else init
  }

  /** The kept messages, or the TypeError a message without a role raises. */
  function KeptMessages(runs: seq<RawMessage>): Result<seq<RawMessage>, FormatError> {
    if exists i :: 0 <= i < |runs| && runs[i].role.None? then Err(RoleNotString)
    else Ok(FilterKept(runs))
  }

  /** The kept messages are the messages of the session, in order, whose
      role is not part of "system" and whose content is non-empty. */
  lemma {:induction false} FilterKeptMembers(runs: seq<RawMessage>)
    requires forall i :: 0 <= i < |runs| ==> runs[i].role.Some?
    ensures forall m :: m in FilterKept(runs) <==> m in runs && Kept(m)
    ensures |FilterKept(runs)| <= |runs|
    decreases |runs|
  {
    if runs != [] {
      var init := runs[..|runs| - 1];
      FilterKeptMembers(init);
      assert runs == init + [runs[|runs| - 1]];
    }
  }

  /** A text holding a character that `b` lacks is no substring of `b`. */
  lemma {:induction false} MissingCharNotSubstring(a: string, b: string, k: nat)
    requires k < |a| && a[k] !in b
    ensures !SubstringOf(a, b)
    decreases |b|
  {
    assert !StartsWith(b, a) by {
      if |a| <= |b| {
        assert b[..|a|][k] == b[k] != a[k];
      }
    }
    if b != [] {
      MissingCharNotSubstring(a, b[1..], k);
    }
  }

  /** What `b` holds from position `i` on is a substring of `b`. */
  lemma {:induction false} SuffixSubstring(a: string, b: string, i: nat)
    requires i <= |b| && StartsWith(b[i..], a)
    ensures SubstringOf(a, b)
    decreases i
  {
    if i > 0 {
      assert b[1..][i - 1..] == b[i..];
      SuffixSubstring(a, b[1..], i - 1);
    }
  }

  /** The roles of real messages pass; "system" and every part of it,
      including the empty role, are dropped. */
  lemma RoleFilter()
    ensures !SubstringOf("user", "system") && !SubstringOf("assistant", "system") && !SubstringOf("tool", "system")
    ensures SubstringOf("system", "system") && SubstringOf("", "system") && SubstringOf("tem", "system")
  {
    var system := "system";
    assert forall c :: c in system <==> c in {'s', 'y', 't', 'e', 'm'};
    MissingCharNotSubstring("user", system, 0);
    MissingCharNotSubstring("assistant", system, 0);
    MissingCharNotSubstring("tool", system, 1);
    SuffixSubstring("system", system, 0);
    SuffixSubstring("", system, 0);
    assert system[3..] == "tem";
    SuffixSubstring("tem", system, 3);
  }

  /** `sender=m["role"]` against `Literal["user", "assistant", "tool"]`. */
  function ParseSender(role: string): (r: Result<Sender, FormatError>)
    ensures r.Ok? <==> role in {"user", "assistant", "tool"}
  {
    if role == "user" then Ok(User)
    else if role == "assistant" then Ok(Assistant)
    else if role == "tool" then Ok(Tool)
    else Err(InvalidSender(role))
  }

  /** One kept message as a `MessageResponse`, after its validator. */
  function ToMessage(m: RawMessage, userId: Option<string>, parse: Parser): Result<Message, FormatError>
    requires m.role.Some?
  {
    var sender := ParseSender(m.role.value);
    if sender.Err? then Err(sender.error)
    else if m.createdAt.None? then Err(MissingTimestamp)
    else Ok(WithToolUrls(Message(None, m.content, sender.value, None, m.createdAt.value, userId, m.metadata), parse))
  }

  /** The list comprehension: every message, or the first error. */
  function ToMessages(ms: seq<RawMessage>, userId: Option<string>, parse: Parser): (r: Result<seq<Message>, FormatError>)
    requires forall i :: 0 <= i < |ms| ==> ms[i].role.Some?
    ensures r.Ok? ==> |r.value| == |ms|
    ensures r.Ok? <==> forall i :: 0 <= i < |ms| ==> ToMessage(ms[i], userId, parse).Ok?
    ensures r.Ok? ==> forall i :: 0 <= i < |ms| ==> r.value[i] == ToMessage(ms[i], userId, parse).value
    decreases |ms|
  {
    if ms == [] then Ok([])
    else
      var first := ToMessage(ms[0], userId, parse);
      var rest := ToMessages(ms[1..], userId, parse);
      if first.Err? then Err(first.error)
      else if rest.Err? then
        assert exists i :: 0 <= i < |ms| && !ToMessage(ms[i], userId, parse).Ok? by {
          var j :| 0 <= j < |ms[1..]| && !ToMessage(ms[1..][j], userId, parse).Ok?;
          assert ms[1..][j] == ms[j + 1];
        }
        Err(rest.error)
      else
        assert forall i :: 1 <= i < |ms| ==> ms[i] == ms[1..][i - 1];
        Ok([first.value] + rest.value)
  }

  /** `_format_thread`: a thread with the session's id, update time and
      user, and the kept messages, after both validators; `created_at` is
      not copied. */
  function FormatThread(t: RawThread, parse: Parser): (r: Result<Thread, FormatError>)
  {
    var kept := KeptMessages(t.memoryMessages);
    if kept.Err? then Err(kept.error)
    else
      var ms := ToMessages(kept.value, t.userId, parse);
      if ms.Err? then Err(ms.error)
      else Ok(Thread(Some(t.sessionId), None, None, t.updatedAt, t.userId, Some(Attached(ms.value, parse))))
  }

  /** `LastMessage`: its sender may only be a user or the assistant. */
  datatype LastMessage = LastMessage(content: string, sender: Sender, timestamp: int, userId: Option<string>)

  datatype ThreadSummary = ThreadSummary(
    id: string,
    createdAt: Option<int>,
    updatedAt: Option<int>,
    createdBy: Option<string>,
    lastMessage: Option<LastMessage>,
    messageCount: nat)

  /** `_format_thread_summary`: the count of kept messages and the last one,
      stamped `now` when it has no time. */
  function FormatThreadSummary(t: RawThread, now: int): (r: Result<ThreadSummary, FormatError>)
  {
    var kept := KeptMessages(t.memoryMessages);
    if kept.Err? then Err(kept.error)
    else
      var ms := kept.value;
      if ms == [] then Ok(ThreadSummary(t.sessionId, t.createdAt, t.updatedAt, t.userId, None, 0))
      else
        var last := ms[|ms| - 1];
        var role := last.role.value;
        if role != "user" && role != "assistant" then Err(InvalidSender(role))
        else
          var lm := LastMessage(last.content.value, if role == "user" then User else Assistant,
                                last.createdAt.GetOr(now), t.userId);
          Ok(ThreadSummary(t.sessionId, t.createdAt, t.updatedAt, t.userId, Some(lm), |ms|))
  }

  /** A summary counts the kept messages and shows the last kept one, or
      nothing when none was kept; both forms of a thread see the same
      messages. */
  lemma SummaryMatchesThread(t: RawThread, now: int, parse: Parser)
    requires FormatThreadSummary(t, now).Ok?
    ensures var s := FormatThreadSummary(t, now).value;
      var kept := KeptMessages(t.memoryMessages).value;
      s.id == t.sessionId && s.messageCount == |kept|
      && (s.lastMessage.None? <==> kept == [])
      && (kept != [] ==> (s.lastMessage.value.content == kept[|kept| - 1].content.value
                          && s.lastMessage.value.content != []))
  {
  }

  /** A thread without a role on some message cannot be formatted at all. */
  lemma RoleRequired(t: RawThread, now: int, parse: Parser, i: nat)
    requires i < |t.memoryMessages| && t.memoryMessages[i].role.None?
    ensures FormatThreadSummary(t, now) == Err(RoleNotString)
    ensures FormatThread(t, parse) == Err(RoleNotString)
  {
  }

  // ---------------------------------------------------------------------
  // get_threads

  /** `sort_by if sort_by in ["created_at", "updated_at"] else "updated_at"` */
  datatype SortField = CreatedAt | UpdatedAt

  function SortFieldOf(sortBy: string): (f: SortField)
    ensures f == CreatedAt <==> sortBy == "created_at"
  {
    if sortBy == "created_at" then CreatedAt else UpdatedAt
  }

  /** `datetime.min`, below every stored time. */
  const DatetimeMin: int := -62135596800 * 1000000

  /** `t.get(sort_field, datetime.min)`; a field stored as None reads as
      missing here, where Python's `sorted` would raise on comparing it. */
  function SortKey(t: RawThread, f: SortField): int {
    var v := if f == CreatedAt then t.createdAt else t.updatedAt;
    v.GetOr(DatetimeMin)
  }

  /** `key(a)` strictly before `key(b)` in the requested direction. */
  predicate Before(a: RawThread, b: RawThread, f: SortField, desc: bool) {
    if desc then SortKey(a, f) > SortKey(b, f) else SortKey(a, f) < SortKey(b, f)
  }

  predicate SortedBy(ts: seq<RawThread>, f: SortField, desc: bool) {
    forall i, j :: 0 <= i < j < |ts| ==> !Before(ts[j], ts[i], f, desc)
  }

  /** Insert `x` after every element that does not come strictly after it,
      which keeps the sort stable, as `sorted` is (also with `reverse`). */
  function InsertStable(s: seq<RawThread>, x: RawThread, f: SortField, desc: bool): (r: seq<RawThread>)
    ensures multiset(r) == multiset(s) + multiset{x}
    ensures |r| == |s| + 1
    decreases |s|
  {
    if s == [] then [x]
    else if Before(x, s[|s| - 1], f, desc) then
      var init := s[..|s| - 1];
      assert s == init + [s[|s| - 1]];
      InsertStable(init, x, f, desc) + [s[|s| - 1]]
    else s + [x]
  }

  function SortThreads(ts: seq<RawThread>, f: SortField, desc: bool): (r: seq<RawThread>)
    ensures multiset(r) == multiset(ts)
    decreases |ts|
  {
    if ts == [] then []
    else
      var init := ts[..|ts| - 1];
      assert ts == init + [ts[|ts| - 1]];
      InsertStable(SortThreads(init, f, desc), ts[|ts| - 1], f, desc)
  }

  lemma {:induction false} InsertStableSorted(s: seq<RawThread>, x: RawThread, f: SortField, desc: bool)
    requires SortedBy(s, f, desc)
    ensures SortedBy(InsertStable(s, x, f, desc), f, desc)
    decreases |s|
  {
    if s == [] {
    } else if Before(x, s[|s| - 1], f, desc) {
      var init := s[..|s| - 1];
      var last := s[|s| - 1];
      InsertStableSorted(init, x, f, desc);
      var ri := InsertStable(init, x, f, desc);
      forall i | 0 <= i < |ri| ensures !Before(last, ri[i], f, desc) {
        assert ri[i] in multiset(ri);
        if ri[i] != x {
          assert ri[i] in multiset(init);
          var k :| 0 <= k < |init| && init[k] == ri[i];
          assert s[k] == ri[i];
        }
      }
      AppendSorted(ri, last, f, desc);
    } else {
      forall i | 0 <= i < |s| ensures !Before(x, s[i], f, desc) {
        assert !Before(s[|s| - 1], s[i], f, desc);
      }
      AppendSorted(s, x, f, desc);
    }
  }

  /** Appending an element that no element comes strictly after keeps a
      sequence sorted. */
  lemma AppendSorted(s: seq<RawThread>, y: RawThread, f: SortField, desc: bool)
    requires SortedBy(s, f, desc)
    requires forall i :: 0 <= i < |s| ==> !Before(y, s[i], f, desc)
    ensures SortedBy(s + [y], f, desc)
  {
    var r := s + [y];
    forall i, j | 0 <= i < j < |r| ensures !Before(r[j], r[i], f, desc) {
      if j < |s| {
        assert r[j] == s[j] && r[i] == s[i];
      } else {
        assert r[j] == y && r[i] == s[i];
      }
    }
  }

  /** `sorted(threads, key=..., reverse=desc)` is ordered by the key in the
      requested direction and is a permutation of its input. */
  lemma {:induction false} SortThreadsCorrect(ts: seq<RawThread>, f: SortField, desc: bool)
    ensures SortedBy(SortThreads(ts, f, desc), f, desc)
    ensures multiset(SortThreads(ts, f, desc)) == multiset(ts)
    decreases |ts|
  {
    if ts != [] {
      SortThreadsCorrect(ts[..|ts| - 1], f, desc);
      InsertStableSorted(SortThreads(ts[..|ts| - 1], f, desc), ts[|ts| - 1], f, desc);
    }
  }

  /** Python's `s[a:b]` for any integers. */
  function PySlice<T>(s: seq<T>, a: int, b: int): (r: seq<T>)
  {
    var n := |s|;
    var lo := if a < 0 then (if a + n < 0 then 0 else a + n) else (if a > n then n else a);
    var hi := if b < 0 then (if b + n < 0 then 0 else b + n) else (if b > n then n else b);
    if lo < hi then s[lo..hi] else []
  }

  /** With a non-negative offset and limit, a page holds
      `min(limit, max(0, n - offset))` threads, starting at `offset`. */
  lemma PageLength<T>(s: seq<T>, offset: int, limit: int)
    requires offset >= 0 && limit >= 0
    ensures var page := PySlice(s, offset, offset + limit);
      |page| == (if limit < |s| - offset then limit else if |s| - offset > 0 then |s| - offset else 0)
      && forall i :: 0 <= i < |page| ==> page[i] == s[offset + i]
  {
  }

  /** `query = {"user_id": user_id} if user_id else {}`: with no user id
      (or an empty one) every stored session, otherwise exactly the stored
      sessions of that user. */
  function QueryThreads(store: seq<RawThread>, userId: Option<string>): (r: seq<RawThread>)
    ensures (userId.None? || userId.value == []) ==> r == store
    ensures userId.Some? && userId.value != [] ==> forall i :: 0 <= i < |r| ==> r[i].userId == userId
    ensures forall i :: 0 <= i < |r| ==> r[i] in store
    ensures forall t :: t in store && t.userId == userId ==> t in r
    ensures |r| <= |store|
    decreases |store|
  {
    if userId.None? || userId.value == [] then store
    else if store == [] then []
    else
      var init := store[..|store| - 1];
      var last := store[|store| - 1];
      assert store == init + [last];
      var q := QueryThreads(init, userId);
      if last.userId == userId then q + [last] else q
  }

  /** Every summary of a page, or the first error: the result is a list
      exactly when every thread formats, and otherwise the error of the
      first thread that does not. */
  function Summaries(ts: seq<RawThread>, now: int): (r: Result<seq<ThreadSummary>, FormatError>)
    ensures r.Ok? <==> forall i :: 0 <= i < |ts| ==> FormatThreadSummary(ts[i], now).Ok?
    ensures r.Ok? ==> |r.value| == |ts|
    ensures r.Ok? ==> forall i :: 0 <= i < |ts| ==> r.value[i] == FormatThreadSummary(ts[i], now).value
    ensures r.Err? ==> exists k :: (0 <= k < |ts| && FormatThreadSummary(ts[k], now).Err?
      && (forall i :: 0 <= i < k ==> FormatThreadSummary(ts[i], now).Ok?)
      && r.error == FormatThreadSummary(ts[k], now).error)
    decreases |ts|
  {
    if ts == [] then Ok([])
    else
      var first := FormatThreadSummary(ts[0], now);
      var rest := Summaries(ts[1..], now);
      if first.Err? then Err(first.error)
      else if rest.Err? then
        assert exists k :: (0 <= k < |ts| && FormatThreadSummary(ts[k], now).Err?
          && (forall i :: 0 <= i < k ==> FormatThreadSummary(ts[i], now).Ok?)
          && rest.error == FormatThreadSummary(ts[k], now).error) by {
          var j :| 0 <= j < |ts[1..]| && FormatThreadSummary(ts[1..][j], now).Err?
            && (forall i :: 0 <= i < j ==> FormatThreadSummary(ts[1..][i], now).Ok?)
            && rest.error == FormatThreadSummary(ts[1..][j], now).error;
          assert ts[1..][j] == ts[j + 1];
          forall i | 0 <= i < j + 1 ensures FormatThreadSummary(ts[i], now).Ok? {
            if i > 0 { assert ts[1..][i - 1] == ts[i]; }
          }
        }
        Err(rest.error)
      else
        assert forall i :: 1 <= i < |ts| ==> ts[i] == ts[1..][i - 1];
        Ok([first.value] + rest.value)
  }

  /** The threads `get_threads` pages over before summarising them. */
  function PageThreads(store: seq<RawThread>, limit: int, offset: int, userId: Option<string>, sortBy: string, sortOrder: string): seq<RawThread> {
    var sorted := SortThreads(QueryThreads(store, userId), SortFieldOf(sortBy), LowerAscii(sortOrder) == "desc");
    PySlice(sorted, offset, offset + limit)
  }

  /** `get_threads` */
  function GetThreads(store: seq<RawThread>, limit: int, offset: int, userId: Option<string>, sortBy: string, sortOrder: string, now: int)
    : Result<seq<ThreadSummary>, FormatError>
  {
    Summaries(PageThreads(store, limit, offset, userId, sortBy, sortOrder), now)
  }

  /** A page of `get_threads` is ordered in the requested direction (by
      `created_at` only when asked for, by `updated_at` otherwise), draws
      only on the queried threads, and is `limit` long unless it runs out. */
  lemma GetThreadsPage(store: seq<RawThread>, limit: int, offset: int, userId: Option<string>, sortBy: string, sortOrder: string)
    requires offset >= 0 && limit >= 0
    ensures var page := PageThreads(store, limit, offset, userId, sortBy, sortOrder);
      var q := QueryThreads(store, userId);
      SortedBy(page, SortFieldOf(sortBy), LowerAscii(sortOrder) == "desc")
      && (forall i :: 0 <= i < |page| ==> page[i] in q)
      && |page| == (if limit < |q| - offset then limit else if |q| - offset > 0 then |q| - offset else 0)
  {
    var f, desc := SortFieldOf(sortBy), LowerAscii(sortOrder) == "desc";
    var q := QueryThreads(store, userId);
    var sorted := SortThreads(q, f, desc);
    SortThreadsCorrect(q, f, desc);
    PageLength(sorted, offset, limit);
    SortedSlice(sorted, offset, limit, f, desc);
    forall x | x in sorted ensures x in q {
      assert x in multiset(sorted);
    }
  }

  /** A page of a sorted list is sorted and holds only its elements. */
  lemma SortedSlice(s: seq<RawThread>, offset: int, limit: int, f: SortField, desc: bool)
    requires offset >= 0 && limit >= 0 && SortedBy(s, f, desc)
    ensures var page := PySlice(s, offset, offset + limit);
      SortedBy(page, f, desc) && forall i :: 0 <= i < |page| ==> page[i] in s
  {
    PageLength(s, offset, limit);
    var page := PySlice(s, offset, offset + limit);
    forall i, j | 0 <= i < j < |page| ensures !Before(page[j], page[i], f, desc) {
      assert page[i] == s[offset + i] && page[j] == s[offset + j];
    }
  }

  /** `get_thread`: the first session with that id and user, formatted; an
      empty thread with the requested id when there is none. */
  function GetThread(store: seq<RawThread>, threadId: string, userId: string, parse: Parser): (r: Result<Thread, FormatError>)
  {
    var matches := UserSessions(store, threadId, userId);
    if matches == [] then Ok(Thread(Some(threadId), None, None, None, None, Some([])))
    else FormatThread(matches[0], parse)
  }

  /** The filter `{"session_id": thread_id, "user_id": user_id}`. */
  predicate SessionOf(t: RawThread, threadId: string, userId: string) {
    t.sessionId == threadId && t.userId == Some(userId)
  }

  /** The stored sessions the `get_thread` filter matches, in store order:
      exactly those with that id and that user. */
  function UserSessions(store: seq<RawThread>, threadId: string, userId: string): (r: seq<RawThread>)
    ensures forall i :: 0 <= i < |r| ==> SessionOf(r[i], threadId, userId) && r[i] in store
    ensures forall t :: t in store && SessionOf(t, threadId, userId) ==> t in r
    decreases |store|
  {
    if store == [] then []
    else
      var rest := UserSessions(store[1..], threadId, userId);
      assert forall t :: t in store ==> t == store[0] || t in store[1..];
      if SessionOf(store[0], threadId, userId) then [store[0]] + rest else rest
  }

  /** The first match in store order heads the filtered list. */
  lemma {:induction false} UserSessionsFirst(store: seq<RawThread>, threadId: string, userId: string, k: int)
    requires 0 <= k < |store| && SessionOf(store[k], threadId, userId)
    requires forall i :: 0 <= i < k ==> !SessionOf(store[i], threadId, userId)
    ensures UserSessions(store, threadId, userId) != []
    ensures UserSessions(store, threadId, userId)[0] == store[k]
    decreases k
  {
    if k > 0 {
      assert !SessionOf(store[0], threadId, userId);
      forall i | 0 <= i < k - 1 ensures !SessionOf(store[1..][i], threadId, userId) {
        assert store[1..][i] == store[i + 1];
      }
      assert store[1..][k - 1] == store[k];
      UserSessionsFirst(store[1..], threadId, userId, k - 1);
    }
  }

  /** When the user has no session with that id (there may be other users'
      sessions with it), `get_thread` answers an empty thread with the id. */
  lemma GetThreadMissing(store: seq<RawThread>, threadId: string, userId: string, parse: Parser)
    requires forall t :: t in store && t.sessionId == threadId ==> t.userId != Some(userId)
    ensures GetThread(store, threadId, userId, parse) == Ok(Thread(Some(threadId), None, None, None, None, Some([])))
  {
  }

  /** When the user has sessions with that id, `get_thread` formats the
      first of them in store order. */
  lemma GetThreadFound(store: seq<RawThread>, threadId: string, userId: string, parse: Parser, k: int)
    requires 0 <= k < |store| && SessionOf(store[k], threadId, userId)
    requires forall i :: 0 <= i < k ==> !SessionOf(store[i], threadId, userId)
    ensures GetThread(store, threadId, userId, parse) == FormatThread(store[k], parse)
  {
    UserSessionsFirst(store, threadId, userId, k);
  }

  /** `delete_thread`: the sessions with that id and user are removed (a
      store error is swallowed), and the answer is always True. */
  function DeleteThread(store: seq<RawThread>, threadId: string, userId: string, fault: bool): (r: (seq<RawThread>, bool))
    ensures r.1
    ensures fault ==> r.0 == store
    ensures !fault ==> forall t :: t in r.0 <==> t in store && !(t.sessionId == threadId && t.userId == Some(userId))
    decreases |store|
  {
    if fault || store == [] then (store, true)
    else
      var init := store[..|store| - 1];
      var last := store[|store| - 1];
      assert store == init + [last];
      var rest := DeleteThread(init, threadId, userId, fault).0;
      if last.sessionId == threadId && last.userId == Some(userId) then (rest, true) else (rest + [last], true)
  }
}
