/**
 * The conversation store: an ordered list of chat threads, most recent first,
 * and a pointer to the thread on screen. Messages are only ever appended; the
 * content of one message can be overwritten, which is how a streamed reply is
 * shown as it arrives.
 */
module Chat {
  import opened Wrappers
  import opened Seqs

  datatype Role = User | Assistant

  datatype Message = Message(id: string, role: Role, content: string, timestamp: int)

  datatype Conversation = Conversation(
    id: string,
    title: string,
    messages: seq<Message>,
    createdAt: int,
    updatedAt: int)

  const DEFAULT_TITLE: string := "New Chat"
  const TITLE_LENGTH: nat := 50
  const ELLIPSIS: string := "..."

  /** No conversation in `convs` uses `id`. */
  predicate ConversationIdUnused(convs: seq<Conversation>, id: string) {
    forall i :: 0 <= i < |convs| ==> convs[i].id != id
  }

  /** No message of any conversation in `convs` uses `id`. */
  predicate MessageIdUnused(convs: seq<Conversation>, id: string) {
    forall i, j :: 0 <= i < |convs| && 0 <= j < |convs[i].messages| ==> convs[i].messages[j].id != id
  }

  // ---------------------------------------------------------------------------
  // createConversation

  /** The list after a new, empty conversation is put at its front. */
  function WithNewConversation(convs: seq<Conversation>, id: string, now: int): (r: seq<Conversation>)
    ensures |r| == |convs| + 1 && r[1..] == convs
    ensures r[0].id == id && r[0].title == DEFAULT_TITLE && r[0].messages == []
    ensures r[0].createdAt == now && r[0].updatedAt == now
  {
    [Conversation(id, DEFAULT_TITLE, [], now, now)] + convs
  }

  // ---------------------------------------------------------------------------
  // deleteConversation

  function IdIsNot(id: string): Conversation -> bool {
    (c: Conversation) => c.id != id
  }

  /**
   * The list without the conversations whose id is `id`: every survivor has
   * another id, every conversation with another id survives, and nothing
   * changes when no conversation has that id.
   */
  function WithoutConversation(convs: seq<Conversation>, id: string): (r: seq<Conversation>)
    ensures |r| <= |convs|
    ensures forall i :: 0 <= i < |r| ==> r[i].id != id && r[i] in convs
    ensures forall i :: 0 <= i < |convs| && convs[i].id != id ==> convs[i] in r
    ensures ConversationIdUnused(convs, id) ==> r == convs
  {
    var r := Filter(convs, IdIsNot(id));
    assert ConversationIdUnused(convs, id) ==> r == convs by {
      if ConversationIdUnused(convs, id) {
        FilterKeepsAll(convs, IdIsNot(id));
      }
    }
    r
  }

  // ---------------------------------------------------------------------------
  // addMessage

  /** The title a conversation gets from its opening user message. */
  function DeriveTitle(content: string): (title: string)
    ensures |title| <= TITLE_LENGTH + |ELLIPSIS|
    ensures |content| <= TITLE_LENGTH ==> title == content
    ensures |content| > TITLE_LENGTH ==> title == content[..TITLE_LENGTH] + ELLIPSIS
  {
    var shown := if |content| < TITLE_LENGTH then |content| else TITLE_LENGTH;
    content[..shown] + (if |content| > TITLE_LENGTH then ELLIPSIS else "")
  }

  /** One conversation with `msg` appended at time `now`. */
  function Appended(c: Conversation, msg: Message, now: int): Conversation {
    c.(messages := c.messages + [msg],
       updatedAt := now,
       title := if |c.messages| == 0 && msg.role == User then DeriveTitle(msg.content) else c.title)
  }

  /**
   * The list after `msg` is added to conversation `cid`: that conversation gets
   * exactly one more message, at the end, and a new `updatedAt`; every other
   * conversation, and every earlier message, is as it was. With no such
   * conversation the list is unchanged.
   */
  function WithMessage(convs: seq<Conversation>, cid: string, msg: Message, now: int): (r: seq<Conversation>)
    ensures |r| == |convs|
    ensures forall i :: 0 <= i < |r| ==> r[i].id == convs[i].id && r[i].createdAt == convs[i].createdAt
    ensures forall i :: 0 <= i < |r| && convs[i].id != cid ==> r[i] == convs[i]
    ensures forall i :: 0 <= i < |r| && convs[i].id == cid ==>
      r[i].messages == convs[i].messages + [msg] && r[i].updatedAt == now
    ensures ConversationIdUnused(convs, cid) ==> r == convs
  {
    seq(|convs|, i requires 0 <= i < |convs| =>
      if convs[i].id == cid then Appended(convs[i], msg, now) else convs[i])
  }

  /**
   * The title rule of addMessage: a title changes only on the target
   * conversation, only while it has no messages and only for a user message,
   * and then it becomes the derived title.
   */
  lemma AddMessageTitle(convs: seq<Conversation>, cid: string, msg: Message, now: int, i: int)
    requires 0 <= i < |convs|
    ensures var r := WithMessage(convs, cid, msg, now);
      && (r[i].title != convs[i].title ==>
            convs[i].id == cid && convs[i].messages == [] && msg.role == User)
      && (convs[i].id == cid && convs[i].messages == [] && msg.role == User ==>
            r[i].title == DeriveTitle(msg.content))
  {
  }

  /**
   * Once a conversation holds a message its title is fixed: neither adding nor
   * editing messages changes it. In particular, a conversation whose first
   * message came from the assistant keeps the default title for good.
   */
  lemma TitleFrozenOnceStarted(convs: seq<Conversation>, cid: string, msg: Message, now: int,
                               mid: string, content: string, i: int)
    requires 0 <= i < |convs| && convs[i].messages != []
    ensures WithMessage(convs, cid, msg, now)[i].title == convs[i].title
    ensures Edited(convs, cid, mid, content)[i].title == convs[i].title
  {
  }

  // ---------------------------------------------------------------------------
  // updateMessage

  /** One message list with the content of the messages named `mid` replaced. */
  function WithContent(msgs: seq<Message>, mid: string, content: string): seq<Message> {
    seq(|msgs|, j requires 0 <= j < |msgs| =>
      if msgs[j].id == mid then msgs[j].(content := content) else msgs[j])
  }

  /**
   * The list after message `mid` of conversation `cid` gets `content`: only
   * that message's content changes. Every conversation keeps its id, title,
   * timestamps and message count, and every message keeps its id, role and
   * timestamp.
   */
  function Edited(convs: seq<Conversation>, cid: string, mid: string, content: string): (r: seq<Conversation>)
    ensures |r| == |convs|
    ensures forall i :: 0 <= i < |r| ==>
      && r[i].id == convs[i].id && r[i].title == convs[i].title
      && r[i].createdAt == convs[i].createdAt && r[i].updatedAt == convs[i].updatedAt
      && |r[i].messages| == |convs[i].messages|
    ensures forall i, j :: 0 <= i < |r| && 0 <= j < |r[i].messages| ==>
      && r[i].messages[j].id == convs[i].messages[j].id
      && r[i].messages[j].role == convs[i].messages[j].role
      && r[i].messages[j].timestamp == convs[i].messages[j].timestamp
      && r[i].messages[j].content ==
           (if convs[i].id == cid && convs[i].messages[j].id == mid then content
            else convs[i].messages[j].content)
  {
    seq(|convs|, i requires 0 <= i < |convs| =>
      if convs[i].id == cid
      then convs[i].(messages := WithContent(convs[i].messages, mid, content))
      else convs[i])
  }

  /** Only the last of two writes to the same message is visible. */
  lemma {:induction false} EditLastWriteWins(convs: seq<Conversation>, cid: string, mid: string, first: string, second: string)
    ensures Edited(Edited(convs, cid, mid, first), cid, mid, second) == Edited(convs, cid, mid, second)
  {
    var lhs := Edited(Edited(convs, cid, mid, first), cid, mid, second);
    var rhs := Edited(convs, cid, mid, second);
    forall i | 0 <= i < |convs|
      ensures lhs[i] == rhs[i]
    {
      assert lhs[i].messages == rhs[i].messages;
    }
  }

  /** All chunks of a streamed reply, joined. */
  function Concat(chunks: seq<string>): string {
    if chunks == [] then "" else chunks[0] + Concat(chunks[1..])
  }

  lemma {:induction false} ConcatSnoc(chunks: seq<string>, chunk: string)
    ensures Concat(chunks + [chunk]) == Concat(chunks) + chunk
  {
    if chunks != [] {
      assert (chunks + [chunk])[1..] == chunks[1..] + [chunk];
      ConcatSnoc(chunks[1..], chunk);
    }
  }

  // ---------------------------------------------------------------------------
  // getActiveConversation

  function HasId(id: string): Conversation -> bool {
    (c: Conversation) => c.id == id
  }

  /**
   * The conversation the active pointer names: nothing when the pointer is
   * unset or names no conversation, otherwise a conversation of the list with
   * that id.
   */
  function GetActiveConversation(convs: seq<Conversation>, active: Option<string>): (r: Option<Conversation>)
    ensures r.None? <==> active.None? || ConversationIdUnused(convs, active.value)
    ensures r.Some? ==> r.value in convs && active == Some(r.value.id)
    ensures active.Some? ==> forall k ::
      (0 <= k < |convs| && convs[k].id == active.value && forall j :: 0 <= j < k ==> convs[j].id != active.value)
      ==> r == Some(convs[k])
  {
    match active
    case None => None
    case Some(id) =>
      var r := Find(convs, HasId(id));
      assert forall k ::
        (0 <= k < |convs| && convs[k].id == id && forall j :: 0 <= j < k ==> convs[j].id != id)
        ==> r == Some(convs[k]) by {
        forall k | 0 <= k < |convs| && convs[k].id == id && (forall j :: 0 <= j < k ==> convs[j].id != id) {
          FindFirst(convs, HasId(id), k);
        }
      }
      r
  }

  // ---------------------------------------------------------------------------
  // The store

  class ChatStore {
    var conversations: seq<Conversation>
    var activeConversationId: Option<string>

    constructor ()
      ensures conversations == [] && activeConversationId == None
      ensures GetActiveConversation(conversations, activeConversationId).None?
    {
      conversations := [];
      activeConversationId := None;
    }

    /** Starts an empty conversation under the fresh id `freshId` at time `now` and makes it active. */
    method CreateConversation(freshId: string, now: int) returns (id: string)
      requires ConversationIdUnused(conversations, freshId)
      modifies this
      ensures id == freshId
      ensures conversations == WithNewConversation(old(conversations), id, now)
      ensures activeConversationId == Some(id)
      ensures GetActiveConversation(conversations, activeConversationId) == Some(conversations[0])
    {
      id := freshId;
      conversations := WithNewConversation(conversations, id, now);
      activeConversationId := Some(id);
      FindFirst(conversations, HasId(id), 0);
    }

    method DeleteConversation(id: string)
      modifies this
      ensures conversations == WithoutConversation(old(conversations), id)
      ensures activeConversationId == ClearedIf(old(activeConversationId), id)
    {
      conversations := WithoutConversation(conversations, id);
      activeConversationId := ClearedIf(activeConversationId, id);
    }

    method SetActiveConversation(id: Option<string>)
      modifies this
      ensures activeConversationId == id
      ensures conversations == old(conversations)
    {
      activeConversationId := id;
    }

    /**
     * Appends a message with the fresh id `freshId`, stamped `now`, to
     * conversation `conversationId`, and returns that id even when no such
     * conversation exists (the store is then unchanged).
     */
    method AddMessage(conversationId: string, role: Role, content: string, freshId: string, now: int)
      returns (messageId: string)
      requires MessageIdUnused(conversations, freshId)
      modifies this
      ensures messageId == freshId
      ensures conversations == WithMessage(old(conversations), conversationId, Message(messageId, role, content, now), now)
      ensures activeConversationId == old(activeConversationId)
    {
      messageId := freshId;
      var newMessage := Message(messageId, role, content, now);
      conversations := WithMessage(conversations, conversationId, newMessage, now);
    }

    method UpdateMessage(conversationId: string, messageId: string, content: string)
      modifies this
      ensures conversations == Edited(old(conversations), conversationId, messageId, content)
      ensures activeConversationId == old(activeConversationId)
    {
      conversations := Edited(conversations, conversationId, messageId, content);
    }

    method ClearConversations()
      modifies this
      ensures conversations == [] && activeConversationId == None
      ensures GetActiveConversation(conversations, activeConversationId).None?
    {
      conversations := [];
      activeConversationId := None;
    }
  }

  /**
   * The chat view's streaming loop: each chunk is added to the running text,
   * and the running text is written over the reply message. Afterwards the
   * reply holds exactly the concatenation of all chunks.
   */
  method StreamReply(store: ChatStore, conversationId: string, messageId: string, chunks: seq<string>)
    modifies store
    ensures store.activeConversationId == old(store.activeConversationId)
    ensures store.conversations ==
      if chunks == [] then old(store.conversations)
      else Edited(old(store.conversations), conversationId, messageId, Concat(chunks))
  {
    var fullResponse := "";
    for k := 0 to |chunks|
      invariant fullResponse == Concat(chunks[..k])
      invariant store.activeConversationId == old(store.activeConversationId)
      invariant store.conversations ==
        if k == 0 then old(store.conversations)
        else Edited(old(store.conversations), conversationId, messageId, fullResponse)
    {
      ConcatSnoc(chunks[..k], chunks[k]);
      assert chunks[..k + 1] == chunks[..k] + [chunks[k]];
      fullResponse := fullResponse + chunks[k];
      if k > 0 {
        EditLastWriteWins(old(store.conversations), conversationId, messageId, Concat(chunks[..k]), fullResponse);
      }
      store.UpdateMessage(conversationId, messageId, fullResponse);
    }
    assert chunks[..|chunks|] == chunks;
  }

  /**
   * The end-to-end exchange: a new conversation, the user's "Hi", an empty
   * assistant reply, and the chunks "Hel" and "lo!" streamed into it.
   */
  method StreamingExchange(now: int) returns (reply: string)
    ensures reply == "Hello!"
  {
    var store := new ChatStore();
    var cid := store.CreateConversation("conversation-1", now);
    var _ := store.AddMessage(cid, User, "Hi", "message-1", now);
    var mid := store.AddMessage(cid, Assistant, "", "message-2", now);
    StreamReply(store, cid, mid, ["Hel", "lo!"]);
    var c := store.conversations[0];
    assert c.title == "Hi";
    reply := c.messages[1].content;
  }
}
