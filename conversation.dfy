/**
 * The conversation store's values and the pure functions over them: the
 * per-chat edits the page applies through `prev.map(...)`, the net effect of
 * each store operation, the search filter and the role mapping sent to the
 * generation service.
 */
module Conversation {
  import opened Wrappers
  import opened Text
  import opened Types
  import opened Grounding
  import opened Sequences

  type Chat = ChatHistoryItem

  /** A chat id as the page tests it: `!chatId` holds for null and for "". */
  predicate Truthy(id: Option<string>) {
    id.Some? && id.value != ""
  }

  const NewChatTitle := "New Conversation"
  const Apology := "A temporal distortion occurred. I couldn't process that. Please try again."

  function WelcomeText(userName: string): string {
    "Welcome, " + userName + ". Your future self awaits... What's on your mind?"
  }

  /** The chat `handleNewChat` creates; `id` and `now` stand for `Date.now().toString()`
      and `new Date().toISOString()`. */
  function FreshChat(id: string, now: string, userName: string): Chat {
    ChatHistoryItem(id, NewChatTitle, [ChatMessage(Ai, WelcomeText(userName), now, None, NoFeedback)], now)
  }

  // ---------------------------------------------------------------------------
  // Edits of one chat

  predicate LastIsAi(c: Chat) {
    |c.messages| > 0 && c.messages[|c.messages| - 1].sender == Ai
  }

  /** The per-chat updates the page performs inside `setHistory(prev => prev.map(...))`. */
  datatype ChatEdit =
    | AppendMessage(message: ChatMessage)
    | Retitle(title: string)
    | OverwriteLastAiText(text: string)
    | AttachLastAiSources(sources: seq<GroundingSource>)

  function LastMessage(c: Chat): ChatMessage
    requires |c.messages| > 0
  {
    c.messages[|c.messages| - 1]
  }

  /** `r` has the messages of `c`, except perhaps the last one. */
  predicate SameButLast(r: Chat, c: Chat) {
    |r.messages| == |c.messages| && forall k :: 0 <= k < |c.messages| - 1 ==> r.messages[k] == c.messages[k]
  }

  /** One edit of one chat. An edit of the last message acts only when that message is an
      `ai` message, and then changes only the named field of it. */
  function ApplyEdit(c: Chat, e: ChatEdit): (r: Chat)
    ensures r.id == c.id && r.date == c.date
    ensures r.title == (if e.Retitle? then e.title else c.title)
    ensures e.AppendMessage? ==> r.messages == c.messages + [e.message]
    ensures e.Retitle? ==> r.messages == c.messages
    ensures (e.OverwriteLastAiText? || e.AttachLastAiSources?) ==>
      SameButLast(r, c) && LastIsAi(r) == LastIsAi(c) && (!LastIsAi(c) ==> r == c)
    ensures e.OverwriteLastAiText? && LastIsAi(c) ==> LastMessage(r) == LastMessage(c).(text := e.text)
    ensures e.AttachLastAiSources? && LastIsAi(c) ==> LastMessage(r) == LastMessage(c).(sources := Some(e.sources))
  {
    match e
    case AppendMessage(m) => c.(messages := c.messages + [m])
    case Retitle(t) => c.(title := t)
    case OverwriteLastAiText(t) =>
      if LastIsAi(c) then
        var k := |c.messages| - 1;
        c.(messages := c.messages[k := c.messages[k].(text := t)])
      else c
    case AttachLastAiSources(s) =>
      if LastIsAi(c) then
        var k := |c.messages| - 1;
        c.(messages := c.messages[k := c.messages[k].(sources := Some(s))])
      else c
  }

  /** `h.map(chat => chat.id === id ? edit(chat) : chat)`. */
  function MapMatching(h: seq<Chat>, id: string, e: ChatEdit): (r: seq<Chat>)
    ensures |r| == |h|
    ensures forall i :: 0 <= i < |h| ==> r[i] == if h[i].id == id then ApplyEdit(h[i], e) else h[i]
  {
    if h == [] then []
    else [if h[0].id == id then ApplyEdit(h[0], e) else h[0]] + MapMatching(h[1..], id, e)
  }

  /** Writing the streamed text twice leaves only the second write. */
  lemma OverwriteTwice(h: seq<Chat>, id: string, a: string, b: string)
    ensures MapMatching(MapMatching(h, id, OverwriteLastAiText(a)), id, OverwriteLastAiText(b))
         == MapMatching(h, id, OverwriteLastAiText(b))
  {
    var l := MapMatching(MapMatching(h, id, OverwriteLastAiText(a)), id, OverwriteLastAiText(b));
    var r := MapMatching(h, id, OverwriteLastAiText(b));
    forall i | 0 <= i < |h| ensures l[i] == r[i] {
      var c := h[i];
      if c.id == id && LastIsAi(c) {
        var k := |c.messages| - 1;
        assert ApplyEdit(c, OverwriteLastAiText(a)).messages[k].sender == Ai;
      }
    }
  }

  // ---------------------------------------------------------------------------
  // updateMessages

  function TotalMessages(h: seq<Chat>): nat {
    if h == [] then 0 else |h[0].messages| + TotalMessages(h[1..])
  }

  function CountId(h: seq<Chat>, id: string): nat {
    if h == [] then 0 else (if h[0].id == id then 1 else 0) + CountId(h[1..], id)
  }

  /** `updateMessages(chatId, message)`: nothing for a null (or empty) id; otherwise the
      message is appended to every chat with that id, and nothing else changes. */
  function UpdateMessages(h: seq<Chat>, chatId: Option<string>, m: ChatMessage): (r: seq<Chat>)
    ensures !Truthy(chatId) ==> r == h
    ensures |r| == |h|
    ensures Truthy(chatId) ==> forall i :: 0 <= i < |h| ==>
      r[i].id == h[i].id && r[i].title == h[i].title && r[i].date == h[i].date &&
      r[i].messages == (if h[i].id == chatId.value then h[i].messages + [m] else h[i].messages)
  {
    if !Truthy(chatId) then h else MapMatching(h, chatId.value, AppendMessage(m))
  }

  /** Exactly one message is added per chat carrying the id. */
  lemma {:induction false} UpdateMessagesCount(h: seq<Chat>, id: string, m: ChatMessage)
    requires id != ""
    ensures TotalMessages(UpdateMessages(h, Some(id), m)) == TotalMessages(h) + CountId(h, id)
  {
    if h != [] {
      UpdateMessagesCount(h[1..], id, m);
      assert UpdateMessages(h, Some(id), m)[1..] == UpdateMessages(h[1..], Some(id), m);
    }
  }

  // ---------------------------------------------------------------------------
  // Subsequences, filtering and search

  /** `history.filter(chat => chat.id !== id)`. */
  function RemoveChat(h: seq<Chat>, id: string): (r: seq<Chat>)
    ensures forall c :: c in r <==> c in h && c.id != id
    ensures IsSubsequence(r, h)
    ensures |r| + CountId(h, id) == |h|
  {
    if h == [] then []
    else
      var rest := RemoveChat(h[1..], id);
      assert forall c :: c in h <==> c == h[0] || c in h[1..];
      if h[0].id != id then
        var r := [h[0]] + rest;
        assert r[1..] == rest;
        r
      else rest
  }

  /** Whether a chat's title or one of its messages contains the lower-cased search term. */
  predicate ChatMatches(c: Chat, lowerTerm: string) {
    Contains(Lower(c.title), lowerTerm)
    || exists i :: 0 <= i < |c.messages| && Contains(Lower(c.messages[i].text), lowerTerm)
  }

  /** How many chats of the history match the lower-cased term. */
  function CountMatches(h: seq<Chat>, lowerTerm: string): nat {
    if h == [] then 0 else (if ChatMatches(h[0], lowerTerm) then 1 else 0) + CountMatches(h[1..], lowerTerm)
  }

  function FilterChats(h: seq<Chat>, lowerTerm: string): (r: seq<Chat>)
    ensures forall c :: c in r <==> c in h && ChatMatches(c, lowerTerm)
    ensures IsSubsequence(r, h)
    ensures |r| == CountMatches(h, lowerTerm)
  {
    if h == [] then []
    else
      var rest := FilterChats(h[1..], lowerTerm);
      assert forall c :: c in h <==> c == h[0] || c in h[1..];
      if ChatMatches(h[0], lowerTerm) then
        var r := [h[0]] + rest;
        assert r[1..] == rest;
        r
      else rest
  }

  /** `filteredHistory`: the whole history for a blank search term; otherwise the chats
      whose title or some message contains the term, case-insensitively, in their order. */
  function FilteredHistory(h: seq<Chat>, searchTerm: string): (r: seq<Chat>)
    ensures AllSpace(searchTerm) ==> r == h
    ensures !AllSpace(searchTerm) ==>
      (forall c :: c in r <==> c in h && ChatMatches(c, Lower(searchTerm))) && IsSubsequence(r, h)
      && |r| == CountMatches(h, Lower(searchTerm))
  {
    BlankIff(searchTerm);
    if Trim(searchTerm) == "" then h else FilterChats(h, Lower(searchTerm))
  }

  // ---------------------------------------------------------------------------
  // The store: new chat and delete

  /** The two fields the chat handlers write. */
  datatype StoreState = StoreState(history: seq<Chat>, active: Option<string>)

  /** The active id names a chat of the history (or there is none). */
  ghost predicate ActiveResolves(s: StoreState) {
    s.active.None? || exists c :: c in s.history && c.id == s.active.value
  }

  /** `handleNewChat`: the fresh chat goes first and becomes active. */
  function NewChat(s: StoreState, newChat: Chat): (r: StoreState)
    ensures ActiveResolves(r)
    ensures |r.history| == |s.history| + 1
    ensures r.history[1..] == s.history && r.history[0] == newChat && r.active == Some(newChat.id)
  {
    var r := StoreState([newChat] + s.history, Some(newChat.id));
    assert r.history[0] == newChat;
    r
  }

  /** The net effect of `handleDeleteChat(target)` as written, `confirmed` standing for the
      answer to `window.confirm` and `newChat` for the chat a nested `handleNewChat` builds.
      When the active chat was the only one, the prepend of the fresh chat is overwritten
      by the later `setHistory(updatedHistory)`: the history ends empty while the active id
      names the lost fresh chat. */
  function DeleteChat(s: StoreState, target: string, confirmed: bool, newChat: Chat): (r: StoreState)
    ensures !confirmed ==> r == s
    ensures confirmed ==> (forall c :: c in r.history <==> c in s.history && c.id != target)
                          && IsSubsequence(r.history, s.history)
                          && |r.history| + CountId(s.history, target) == |s.history|
    ensures confirmed && s.active != Some(target) ==> r.active == s.active
    ensures confirmed && s.active == Some(target) && r.history != [] ==> r.active == Some(r.history[0].id)
    ensures confirmed && s.active == Some(target) && r.history == [] ==> r.active == Some(newChat.id)
  {
    if !confirmed then s
    else
      var kept := RemoveChat(s.history, target);
      if s.active == Some(target) then
        StoreState(kept, if |kept| > 0 then Some(kept[0].id) else Some(newChat.id))
      else
        StoreState(kept, s.active)
  }

  /** Deleting keeps the active id pointing at a chat, except when the active chat was
      the last one. */
  lemma DeleteKeepsActiveResolved(s: StoreState, target: string, confirmed: bool, newChat: Chat)
    requires ActiveResolves(s)
    requires !(confirmed && s.active == Some(target) && RemoveChat(s.history, target) == [])
    ensures ActiveResolves(DeleteChat(s, target, confirmed, newChat))
  {
    var r := DeleteChat(s, target, confirmed, newChat);
    if confirmed && s.active.Some? && s.active != Some(target) {
      var c :| c in s.history && c.id == s.active.value;
      assert c in r.history;
    }
    if confirmed && s.active == Some(target) {
      assert r.history[0] in r.history;
    }
  }

  /** As written, deleting the only chat while it is active loses the fresh chat: the
      history is empty and the active id names no chat. */
  lemma DeleteOnlyChatLosesFreshChat(s: StoreState, target: string, newChat: Chat)
    requires s.active == Some(target)
    requires forall c :: c in s.history ==> c.id == target
    ensures DeleteChat(s, target, true, newChat).history == []
    ensures DeleteChat(s, target, true, newChat).active == Some(newChat.id)
    ensures !ActiveResolves(DeleteChat(s, target, true, newChat))
  {
  }

  /** The delete the code evidently intends: the fresh chat is prepended to the filtered
      list, as if `setHistory(updatedHistory)` ran before `handleNewChat()`. */
  function DeleteChatCorrected(s: StoreState, target: string, confirmed: bool, newChat: Chat): (r: StoreState)
    ensures ActiveResolves(s) ==> ActiveResolves(r)
    ensures confirmed && s.active == Some(target) && RemoveChat(s.history, target) == []
            ==> r == StoreState([newChat], Some(newChat.id))
    ensures !(confirmed && s.active == Some(target) && RemoveChat(s.history, target) == [])
            ==> r == DeleteChat(s, target, confirmed, newChat)
  {
    var r := DeleteChat(s, target, confirmed, newChat);
    if confirmed && s.active == Some(target) && r.history == [] then
      NewChat(r, newChat)
    else
      DeleteKeepsActiveResolvedIfNotEmptied(s, target, confirmed, newChat);
      r
  }

  lemma DeleteKeepsActiveResolvedIfNotEmptied(s: StoreState, target: string, confirmed: bool, newChat: Chat)
    requires !(confirmed && s.active == Some(target) && DeleteChat(s, target, confirmed, newChat).history == [])
    ensures ActiveResolves(s) ==> ActiveResolves(DeleteChat(s, target, confirmed, newChat))
  {
    if ActiveResolves(s) {
      DeleteKeepsActiveResolved(s, target, confirmed, newChat);
    }
  }

  /** Chats are ordered newest first: `rank` orders the creation dates the chats carry
      (`new Date().toISOString()` when they were made). */
  ghost predicate NewestFirst(h: seq<Chat>, rank: string -> int) {
    forall i, j :: 0 <= i < j < |h| ==> rank(h[i].date) >= rank(h[j].date)
  }

  /** A new chat created no earlier than the others keeps the list newest first. */
  lemma NewChatKeepsNewestFirst(s: StoreState, newChat: Chat, rank: string -> int)
    requires NewestFirst(s.history, rank)
    requires forall c :: c in s.history ==> rank(newChat.date) >= rank(c.date)
    ensures NewestFirst(NewChat(s, newChat).history, rank)
  {
    var h := NewChat(s, newChat).history;
    forall i, j | 0 <= i < j < |h| ensures rank(h[i].date) >= rank(h[j].date) {
      if i == 0 {
        assert h[j] == s.history[j - 1];
      } else {
        assert h[i] == s.history[i - 1] && h[j] == s.history[j - 1];
      }
    }
  }

  /** Leaving chats out of a newest-first list keeps it newest first. */
  lemma {:induction false} SubsequenceKeepsNewestFirst(a: seq<Chat>, b: seq<Chat>, rank: string -> int)
    requires IsSubsequence(a, b) && NewestFirst(b, rank)
    ensures NewestFirst(a, rank)
    decreases |b|
  {
    if b != [] {
      assert NewestFirst(b[1..], rank) by {
        forall i, j | 0 <= i < j < |b| - 1 ensures rank(b[1..][i].date) >= rank(b[1..][j].date) {
          assert b[1..][i] == b[i + 1] && b[1..][j] == b[j + 1];
        }
      }
      if a != [] && a[0] == b[0] && IsSubsequence(a[1..], b[1..]) {
        SubsequenceKeepsNewestFirst(a[1..], b[1..], rank);
        SubsequenceMembers(a[1..], b[1..]);
        forall i, j | 0 <= i < j < |a| ensures rank(a[i].date) >= rank(a[j].date) {
          assert a[j] == a[1..][j - 1];
          if i == 0 {
            assert a[j] in b[1..];
            var k :| 0 <= k < |b| - 1 && b[1..][k] == a[j];
            assert b[k + 1] == a[j];
          } else {
            assert a[i] == a[1..][i - 1];
          }
        }
      } else {
        SubsequenceKeepsNewestFirst(a, b[1..], rank);
      }
    }
  }

  /** A delete, confirmed or not, keeps the list newest first. */
  lemma DeleteKeepsNewestFirst(s: StoreState, target: string, confirmed: bool, newChat: Chat, rank: string -> int)
    requires NewestFirst(s.history, rank)
    ensures NewestFirst(DeleteChat(s, target, confirmed, newChat).history, rank)
  {
    if confirmed {
      SubsequenceKeepsNewestFirst(DeleteChat(s, target, confirmed, newChat).history, s.history, rank);
    }
  }

  /** Deleting the active chat while others remain activates the newest remaining chat. */
  lemma DeleteActivatesNewestRemaining(s: StoreState, target: string, newChat: Chat, rank: string -> int)
    requires NewestFirst(s.history, rank)
    requires s.active == Some(target) && exists c :: c in s.history && c.id != target
    ensures var r := DeleteChat(s, target, true, newChat);
      r.history != [] && r.active == Some(r.history[0].id)
      && forall c :: c in r.history ==> rank(r.history[0].date) >= rank(c.date)
  {
    var r := DeleteChat(s, target, true, newChat);
    var c :| c in s.history && c.id != target;
    assert c in r.history;
    DeleteKeepsNewestFirst(s, target, true, newChat, rank);
    forall d | d in r.history ensures rank(r.history[0].date) >= rank(d.date) {
      var j :| 0 <= j < |r.history| && r.history[j] == d;
    }
  }

  /** The search keeps the list's order: a newest-first history filters to a newest-first list. */
  lemma FilterKeepsNewestFirst(h: seq<Chat>, searchTerm: string, rank: string -> int)
    requires NewestFirst(h, rank)
    ensures NewestFirst(FilteredHistory(h, searchTerm), rank)
  {
    if !AllSpace(searchTerm) {
      SubsequenceKeepsNewestFirst(FilteredHistory(h, searchTerm), h, rank);
    }
  }

  /** Every per-chat edit keeps the creation date and the chat's place, so the list stays
      newest first; this covers `updateMessages`, the retitle and the stream's writes. */
  lemma EditKeepsNewestFirst(h: seq<Chat>, id: string, e: ChatEdit, rank: string -> int)
    requires NewestFirst(h, rank)
    ensures NewestFirst(MapMatching(h, id, e), rank)
  {
  }

  // ---------------------------------------------------------------------------
  // The persistence effect

  /** What the effect leaves under the storage key: the history when it is non-empty,
      otherwise nothing (the key is removed). */
  function Saved(h: seq<Chat>): (r: Option<seq<Chat>>)
    ensures r.Some? <==> |h| > 0
    ensures r.Some? ==> r.value == h
  {
    if |h| > 0 then Some(h) else None
  }

  /** The store after the effect: a non-empty history with no (truthy) active id gets its
      first chat as the active one. */
  function AfterSync(s: StoreState): (r: StoreState)
    ensures r.history == s.history
    ensures |s.history| > 0 && !Truthy(s.active) ==> r.active == Some(s.history[0].id)
    ensures |s.history| == 0 || Truthy(s.active) ==> r.active == s.active
  {
    if |s.history| > 0 && !Truthy(s.active) then s.(active := Some(s.history[0].id)) else s
  }

  /** The effect repairs a missing active id, and never breaks a resolving one. */
  lemma SyncResolves(s: StoreState)
    requires ActiveResolves(s)
    ensures ActiveResolves(AfterSync(s))
  {
    if |s.history| > 0 && !Truthy(s.active) {
      assert s.history[0] in s.history;
    }
  }

  /** The effect does not repair the as-written delete of the only active chat: the key is
      removed and the active id still names the lost new chat. */
  lemma DeleteOnlyChatStaysDangling(s: StoreState, target: string, newChat: Chat)
    requires s.active == Some(target)
    requires forall c :: c in s.history ==> c.id == target
    ensures var r := AfterSync(DeleteChat(s, target, true, newChat));
      r == StoreState([], Some(newChat.id)) && Saved(r.history) == None && !ActiveResolves(r)
  {
    DeleteOnlyChatLosesFreshChat(s, target, newChat);
  }

  // ---------------------------------------------------------------------------
  // Sending a message

  /** `input.substring(0, n)`. */
  function Prefix(s: string, n: nat): (r: string)
    ensures |r| <= n && |r| <= |s| && r == s[..|r|]
    ensures |r| == n || r == s
  {
    if |s| <= n then s else s[..n]
  }

  /** `history.find(c => c.id === id)`. */
  function Find(h: seq<Chat>, id: string): (r: Option<Chat>)
    ensures r.Some? <==> exists c :: c in h && c.id == id
    ensures r.Some? ==> r.value in h && r.value.id == id
    ensures r.Some? ==> exists k :: 0 <= k < |h| && h[k] == r.value && forall j :: 0 <= j < k ==> h[j].id != id
  {
    if h == [] then None
    else if h[0].id == id then Some(h[0])
    else
      assert forall c :: c in h <==> c == h[0] || c in h[1..];
      Find(h[1..], id)
  }

  function UserMessage(text: string, now: string): ChatMessage {
    ChatMessage(User, text, now, None, NoFeedback)
  }

  /** The empty `ai` message the streamed answer is written into. */
  function Placeholder(now: string): ChatMessage {
    ChatMessage(Ai, "", now, None, NoFeedback)
  }

  /** The title is taken from the input when the active chat as the page last rendered it
      (the first chat with the id, before the send) had at most the welcome message. */
  predicate ShouldRetitle(h: seq<Chat>, id: string) {
    var found := Find(h, id);
    found.Some? && |found.value.messages| <= 1
  }

  /** The first two queued updates of a send: append the user message, then set the title
      when `newTitle` is given. */
  function UserUpdates(h: seq<Chat>, id: string, user: ChatMessage, newTitle: Option<string>): seq<Chat>
    requires id != ""
  {
    var h1 := UpdateMessages(h, Some(id), user);
    if newTitle.Some? then MapMatching(h1, id, Retitle(newTitle.value)) else h1
  }

  /** The three queued updates of the synchronous part of `sendMessage`: the two above, then
      the placeholder appended. */
  function SendUpdates(h: seq<Chat>, id: string, user: ChatMessage, newTitle: Option<string>,
                       placeholder: ChatMessage): seq<Chat>
    requires id != ""
  {
    UpdateMessages(UserUpdates(h, id, user, newTitle), Some(id), placeholder)
  }

  lemma SendUpdatesAt(h: seq<Chat>, id: string, user: ChatMessage, newTitle: Option<string>,
                      placeholder: ChatMessage, i: nat)
    requires id != "" && i < |h|
    ensures var r := SendUpdates(h, id, user, newTitle, placeholder);
      |r| == |h| &&
      r[i] == if h[i].id != id then h[i]
              else h[i].(title := if newTitle.Some? then newTitle.value else h[i].title,
                         messages := h[i].messages + [user, placeholder])
  {
    UserUpdatesAt(h, id, user, newTitle, i);
    AppendAt(UserUpdates(h, id, user, newTitle), id, placeholder, i);
  }

  /** The first two updates of a send seen at one position. */
  lemma UserUpdatesAt(h: seq<Chat>, id: string, user: ChatMessage, newTitle: Option<string>, i: nat)
    requires id != "" && i < |h|
    ensures var r := UserUpdates(h, id, user, newTitle);
      |r| == |h| &&
      r[i] == if h[i].id != id then h[i]
              else h[i].(title := if newTitle.Some? then newTitle.value else h[i].title,
                         messages := h[i].messages + [user])
  {
    AppendAt(h, id, user, i);
    RetitleAt(UpdateMessages(h, Some(id), user), id, newTitle, i);
  }

  /** `updateMessages` seen at one position. */
  lemma AppendAt(h: seq<Chat>, id: string, m: ChatMessage, i: nat)
    requires id != "" && i < |h|
    ensures var r := UpdateMessages(h, Some(id), m);
      |r| == |h| && r[i] == if h[i].id == id then h[i].(messages := h[i].messages + [m]) else h[i]
  {
  }

  /** The optional retitle seen at one position. */
  lemma RetitleAt(h: seq<Chat>, id: string, newTitle: Option<string>, i: nat)
    requires i < |h|
    ensures var r := if newTitle.Some? then MapMatching(h, id, Retitle(newTitle.value)) else h;
      |r| == |h| && r[i] == if h[i].id == id && newTitle.Some? then h[i].(title := newTitle.value) else h[i]
  {
  }

  /** The history after the synchronous part of `sendMessage`. */
  function SendHistory(h: seq<Chat>, id: string, input: string, now: string): seq<Chat>
    requires id != ""
  {
    SendUpdates(h, id, UserMessage(input, now),
                if ShouldRetitle(h, id) then Some(Prefix(input, 30)) else None, Placeholder(now))
  }

  /** Sending adds exactly the user message and then the empty `ai` placeholder to the
      active chat, retitles it only when it held at most one message, and leaves every
      other chat as it was. */
  lemma SendAppendsUserMessageAndPlaceholder(h: seq<Chat>, id: string, input: string, now: string)
    requires id != ""
    ensures var r := SendHistory(h, id, input, now);
      |r| == |h| &&
      (forall i :: 0 <= i < |h| && h[i].id != id ==> r[i] == h[i]) &&
      (forall i :: 0 <= i < |h| && h[i].id == id ==>
        r[i].messages == h[i].messages + [UserMessage(input, now), Placeholder(now)] &&
        r[i].title == (if ShouldRetitle(h, id) then Prefix(input, 30) else h[i].title) &&
        r[i].id == id && r[i].date == h[i].date &&
        LastIsAi(r[i]) && LastMessage(r[i]).text == "")
  {
    var newTitle := if ShouldRetitle(h, id) then Some(Prefix(input, 30)) else None;
    var r := SendUpdates(h, id, UserMessage(input, now), newTitle, Placeholder(now));
    assert r == SendHistory(h, id, input, now);
    assert |r| == |h| by {
      if |h| > 0 { SendUpdatesAt(h, id, UserMessage(input, now), newTitle, Placeholder(now), 0); }
    }
    forall i | 0 <= i < |h|
      ensures h[i].id != id ==> r[i] == h[i]
      ensures h[i].id == id ==>
        r[i].messages == h[i].messages + [UserMessage(input, now), Placeholder(now)] &&
        r[i].title == (if ShouldRetitle(h, id) then Prefix(input, 30) else h[i].title) &&
        r[i].id == id && r[i].date == h[i].date
    {
      SendUpdatesAt(h, id, UserMessage(input, now), newTitle, Placeholder(now), i);
    }
  }

  /** A send keeps the list newest first. */
  lemma SendKeepsNewestFirst(h: seq<Chat>, id: string, input: string, now: string, rank: string -> int)
    requires id != "" && NewestFirst(h, rank)
    ensures NewestFirst(SendHistory(h, id, input, now), rank)
  {
    SendAppendsUserMessageAndPlaceholder(h, id, input, now);
  }

  datatype Role = UserRole | ModelRole

  datatype Content = Content(role: Role, text: string)

  /** `messages.map(msg => ({ role: msg.sender === 'user' ? 'user' : 'model', parts: [{ text }] }))`. */
  function HistoryForModel(msgs: seq<ChatMessage>): (r: seq<Content>)
    ensures |r| == |msgs|
    ensures forall i :: 0 <= i < |msgs| ==>
      r[i].text == msgs[i].text && (r[i].role == UserRole <==> msgs[i].sender == User)
  {
    if msgs == [] then []
    else [Content(if msgs[0].sender == User then UserRole else ModelRole, msgs[0].text)]
         + HistoryForModel(msgs[1..])
  }

  /** The conversation handed to the model: the messages of the active chat as it was
      before the send (without the new user message or the placeholder), or none. */
  function RequestHistory(h: seq<Chat>, id: string): (r: seq<Content>)
    ensures Find(h, id).None? ==> r == []
    ensures Find(h, id).Some? ==> |r| == |Find(h, id).value.messages|
    ensures Find(h, id).Some? ==> forall i :: 0 <= i < |r| ==>
      r[i].text == Find(h, id).value.messages[i].text
      && (r[i].role == UserRole <==> Find(h, id).value.messages[i].sender == User)
    ensures Find(h, id).Some? ==> r == HistoryForModel(Find(h, id).value.messages)
  {
    var active := Find(h, id);
    if active.Some? then HistoryForModel(active.value.messages) else []
  }

  // ---------------------------------------------------------------------------
  // Receiving the streamed answer

  /** `fullResponseText` after the given chunks. */
  function AllText(chunks: seq<StreamChunk>): string {
    if chunks == [] then "" else AllText(chunks[..|chunks| - 1]) + chunks[|chunks| - 1].text
  }

  /** What one chat becomes at the end of the `try`/`catch`: its last `ai` message holds
      the streamed text (or keeps its own while no text has arrived), then either the
      apology replaces the text (`failed`: the call or the stream threw after `chunks`),
      or the de-duplicated sources are attached when there are any. */
  function ChatOutcome(c: Chat, chunks: seq<StreamChunk>, failed: bool): (r: Chat)
    ensures !LastIsAi(c) ==> r == c
    ensures r.id == c.id && r.title == c.title && r.date == c.date && SameButLast(r, c)
    ensures LastIsAi(c) ==>
      LastIsAi(r) &&
      LastMessage(r).timestamp == LastMessage(c).timestamp &&
      LastMessage(r).feedback == LastMessage(c).feedback &&
      LastMessage(r).text ==
        (if failed then Apology else if AllText(chunks) == "" then LastMessage(c).text else AllText(chunks)) &&
      LastMessage(r).sources ==
        (if !failed && FinalSources(chunks).Some? then FinalSources(chunks) else LastMessage(c).sources)
  {
    var text := AllText(chunks);
    var c1 := if text == "" then c else ApplyEdit(c, OverwriteLastAiText(text));
    var sources := FinalSources(chunks);
    if failed then ApplyEdit(c1, OverwriteLastAiText(Apology))
    else if sources.Some? then ApplyEdit(c1, AttachLastAiSources(sources.value))
    else c1
  }

  /** The history after the text of the given chunks has been streamed in: each chunk with
      text overwrites the last `ai` message of the chat with the running concatenation. */
  function Streamed(h: seq<Chat>, id: string, chunks: seq<StreamChunk>): seq<Chat> {
    if AllText(chunks) == "" then h else MapMatching(h, id, OverwriteLastAiText(AllText(chunks)))
  }

  /** The history at the end of the `try`/`catch`, as the three kinds of update produce it. */
  function StreamOutcome(h: seq<Chat>, id: string, chunks: seq<StreamChunk>, failed: bool): seq<Chat> {
    var streamed := Streamed(h, id, chunks);
    if failed then MapMatching(streamed, id, OverwriteLastAiText(Apology))
    else
      var sources := FinalSources(chunks);
      if sources.Some? then MapMatching(streamed, id, AttachLastAiSources(sources.value)) else streamed
  }

  /** The stream changes the chats with the active id as `ChatOutcome` says, and no other
      chat. */
  lemma StreamOutcomePerChat(h: seq<Chat>, id: string, chunks: seq<StreamChunk>, failed: bool)
    ensures var r := StreamOutcome(h, id, chunks, failed);
      |r| == |h| &&
      forall i :: 0 <= i < |h| ==> r[i] == if h[i].id == id then ChatOutcome(h[i], chunks, failed) else h[i]
  {
  }

  /** When the chat ends with the empty placeholder, its text after the stream is the
      concatenation of every chunk text received, unless the call failed, in which case it
      is the apology. */
  lemma StreamedText(h: seq<Chat>, id: string, chunks: seq<StreamChunk>, failed: bool, i: nat)
    requires i < |h| && h[i].id == id && LastIsAi(h[i]) && LastMessage(h[i]).text == ""
    ensures var r := StreamOutcome(h, id, chunks, failed);
      i < |r| && LastIsAi(r[i]) && LastMessage(r[i]).text == (if failed then Apology else AllText(chunks))
  {
    StreamOutcomePerChat(h, id, chunks, failed);
  }

  /** The streamed answer, the apology and the sources keep the list newest first. */
  lemma StreamKeepsNewestFirst(h: seq<Chat>, id: string, chunks: seq<StreamChunk>, failed: bool, rank: string -> int)
    requires NewestFirst(h, rank)
    ensures NewestFirst(StreamOutcome(h, id, chunks, failed), rank)
  {
    StreamOutcomePerChat(h, id, chunks, failed);
  }
}
