/**
 * The chat page's state and handlers: the conversation list, the active chat,
 * the input box and the loading flag, each a field written by the handlers in
 * the order the page calls its setters. The persistence effect writes a ghost
 * copy of the saved history.
 */
module ChatPage {
  import opened Wrappers
  import opened Text
  import opened Types
  import opened Grounding
  import opened ModelSelection
  import opened Conversation

  /** What the synchronous part of a send hands to the asynchronous part: the chat the
      answer goes to, the message, the chosen model and the prior conversation. */
  datatype PendingSend = PendingSend(chatId: string, message: string, selection: Selection, request: seq<Content>)

  class ChatStore {
    const userName: string
    var history: seq<Chat>
    var activeChatId: Option<string>
    var input: string
    var isLoading: bool
    /** The value under the storage key; `None` when the key is absent. It equals
        `Saved(history)` only once `SyncStorage` has run, which the page's effect does
        after every handler that changes `history`. */
    ghost var storage: Option<seq<Chat>>

    function State(): StoreState
      reads this
    {
      StoreState(history, activeChatId)
    }

    /** The mount: the saved history when one is stored, otherwise a new chat; then the
        persistence effect. `id` and `now` stand for the clock readings of the new chat. */
    constructor Mount(userName: string, saved: Option<seq<Chat>>, id: string, now: string)
      ensures this.userName == userName
      ensures saved.Some? ==> history == saved.value
      ensures saved.None? ==> history == [FreshChat(id, now, userName)] && activeChatId == Some(id)
      ensures saved.Some? ==> activeChatId == (if |saved.value| > 0 then Some(saved.value[0].id) else None)
      ensures storage == Saved(history)
      ensures input == "" && !isLoading
    {
      this.userName := userName;
      history := [];
      activeChatId := None;
      input := "";
      isLoading := false;
      storage := saved;
      new;
      if saved.Some? {
        history := saved.value;
      } else {
        HandleNewChat(id, now);
      }
      SyncStorage();
    }

    /** `handleNewChat`. */
    method HandleNewChat(id: string, now: string)
      modifies this`history, this`activeChatId
      ensures State() == NewChat(old(State()), FreshChat(id, now, userName))
    {
      var newChat := FreshChat(id, now, userName);
      history := [newChat] + history;
      activeChatId := Some(newChat.id);
    }

    /** `handleDeleteChat`, with the confirmation dialog's answer as `confirmed`. The
        nested `handleNewChat` runs before the final `setHistory(updatedHistory)`, so when
        the only chat was active and is deleted, the fresh chat it added is overwritten
        while the active id still names it (see `Conversation.DeleteOnlyChatLosesFreshChat`). */
    method HandleDeleteChat(target: string, confirmed: bool, id: string, now: string)
      modifies this`history, this`activeChatId
      ensures State() == DeleteChat(old(State()), target, confirmed, FreshChat(id, now, userName))
    {
      if !confirmed {
        return;
      }
      var updatedHistory := RemoveChat(history, target);
      if activeChatId == Some(target) {
        if |updatedHistory| > 0 {
          activeChatId := Some(updatedHistory[0].id);
        } else {
          activeChatId := None;
          HandleNewChat(id, now);
        }
      }
      history := updatedHistory;
    }

    /** `updateMessages`. */
    method UpdateMessages(chatId: Option<string>, message: ChatMessage)
      modifies this`history
      ensures history == Conversation.UpdateMessages(old(history), chatId, message)
    {
      if !Truthy(chatId) {
        return;
      }
      history := MapMatching(history, chatId.value, AppendMessage(message));
    }

    /** The sidebar's `onSelectChat`. */
    method SelectChat(id: string)
      modifies this`activeChatId
      ensures activeChatId == Some(id)
    {
      activeChatId := Some(id);
    }

    /** The input box's `onChange`. */
    method SetInput(text: string)
      modifies this`input
      ensures input == text
    {
      input := text;
    }

    /** The synchronous part of `sendMessage`: nothing happens for a blank input, while a
        reply is loading or without an active chat; otherwise the two messages are added,
        the chat perhaps retitled, the input cleared and the page set loading. */
    method SendMessage(now: string) returns (p: Option<PendingSend>)
      modifies this`history, this`input, this`isLoading
      ensures p.None? <==> AllSpace(old(input)) || old(isLoading) || !Truthy(old(activeChatId))
      ensures p.None? ==> history == old(history) && input == old(input) && isLoading == old(isLoading)
      ensures p.Some? ==>
        var id := old(activeChatId).value;
        history == SendHistory(old(history), id, old(input), now) && input == "" && isLoading &&
        p.value == PendingSend(id, old(input), SelectModelForQuery(old(input)), RequestHistory(old(history), id))
    {
      BlankIff(input);
      if Trim(input) == "" || isLoading || !Truthy(activeChatId) {
        return None;
      }
      var id := activeChatId.value;
      var currentInput := input;
      // `activeChat` is the chat as rendered before the send
      var request := RequestHistory(history, id);
      StartSend(id, now);
      p := Some(PendingSend(id, currentInput, SelectModelForQuery(currentInput), request));
    }

    /** The writes of a send, in the page's order. */
    method StartSend(id: string, now: string)
      requires id != ""
      modifies this`history, this`input, this`isLoading
      ensures history == SendHistory(old(history), id, old(input), now) && input == "" && isLoading
    {
      var newTitle := if ShouldRetitle(history, id) then Some(Prefix(input, 30)) else None;
      var userMessage := UserMessage(input, now);
      var placeholder := Placeholder(now);
      AddUserMessage(id, userMessage, newTitle);
      input := "";
      isLoading := true;
      UpdateMessages(Some(id), placeholder);
    }

    /** The first two updates of a send: the user message, then the new title if any. */
    method AddUserMessage(id: string, user: ChatMessage, newTitle: Option<string>)
      requires id != ""
      modifies this`history
      ensures history == UserUpdates(old(history), id, user, newTitle)
    {
      UpdateMessages(Some(id), user);
      if newTitle.Some? {
        history := MapMatching(history, id, Retitle(newTitle.value));
      }
    }

    /** The streaming part of `sendMessage`: `chunks` are the stream elements received,
        and `failed` says whether the call or the stream threw after them. */
    method ReceiveStream(p: PendingSend, chunks: seq<StreamChunk>, failed: bool)
      modifies this`history, this`isLoading
      ensures history == StreamOutcome(old(history), p.chatId, chunks, failed)
      ensures !isLoading
    {
      var fullResponseText := "";
      var finalSources: seq<GroundingSource> := [];
      var i := 0;
      while i < |chunks|
        invariant 0 <= i <= |chunks|
        invariant fullResponseText == AllText(chunks[..i])
        invariant finalSources == CollectSources(chunks[..i])
        invariant history == Streamed(old(history), p.chatId, chunks[..i])
      {
        assert chunks[..i + 1][..i] == chunks[..i];
        var chunkText := chunks[i].text;
        if chunkText != "" {
          if fullResponseText != "" {
            OverwriteTwice(old(history), p.chatId, fullResponseText, fullResponseText + chunkText);
          }
          fullResponseText := fullResponseText + chunkText;
          history := MapMatching(history, p.chatId, OverwriteLastAiText(fullResponseText));
        }
        if chunks[i].grounding.Some? {
          finalSources := finalSources + ChunkSources(chunks[i].grounding.value);
        }
        i := i + 1;
      }
      assert chunks[..|chunks|] == chunks;
      if failed {
        history := MapMatching(history, p.chatId, OverwriteLastAiText(Apology));
      } else if |finalSources| > 0 {
        history := MapMatching(history, p.chatId, AttachLastAiSources(DedupByUri(finalSources)));
      }
      isLoading := false;
    }

    /** The persistence effect, run after each change of the history or the active id. */
    method SyncStorage()
      modifies this`storage, this`activeChatId
      ensures State() == AfterSync(old(State()))
      ensures storage == Saved(history)
    {
      if |history| > 0 {
        storage := Some(history);
        if !Truthy(activeChatId) {
          activeChatId := Some(history[0].id);
        }
      } else {
        storage := None;
      }
    }
  }

  /** An element of a `Uint8Array`. */
  newtype Byte = x: int | 0 <= x < 256

  /** `binaryString.charCodeAt(i)` stored into a `Uint8Array`: the code modulo 256. */
  function ByteOf(c: char): Byte {
    (c as int % 256) as Byte
  }

  /** The copy loop of `decode`, over the output of the base64 decoder. */
  method Decode(binary: string) returns (bytes: array<Byte>)
    ensures fresh(bytes) && bytes.Length == |binary|
    ensures forall i :: 0 <= i < |binary| ==> bytes[i] == ByteOf(binary[i])
    ensures forall i :: 0 <= i < |binary| && binary[i] as int < 256 ==> bytes[i] as int == binary[i] as int
  {
    bytes := new Byte[|binary|];
    for i := 0 to |binary|
      invariant forall k :: 0 <= k < i ==> bytes[k] == ByteOf(binary[k])
    {
      bytes[i] := ByteOf(binary[i]);
    }
  }
}
