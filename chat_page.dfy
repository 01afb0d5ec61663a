/**
 * The chat page: the connection and history-loading gates, the optimistic
 * send (the user's message is shown before the backend answers, the bot's
 * reply only if it does), and clearing the stored history.
 *
 * `Date.now()` and the backend's answers are parameters.
 */
module ChatPage {
  import opened Wrappers
  import Text

  datatype Sender = User | Bot

  datatype Message = Message(id: string, content: string, sender: Sender, timestamp: int)

  /** The backend's answer to a sent message. */
  datatype ChatReply = ChatReply(response: string, timestamp: int)

  /** The history endpoint's body; `messages` may be missing. */
  datatype HistoryPayload = HistoryPayload(messages: Option<seq<Message>>)

  /** What the page renders. */
  datatype Screen = ConnectingSpinner | HistorySpinner | Conversation

  /** The message the page appends for the user's text, stamped with `now`. */
  function UserMessage(content: string, now: nat): (m: Message)
    ensures m.sender == User && m.content == content && m.timestamp == now
  {
    Message("user-" + Text.Digits(now), content, User, now)
  }

  /** The message the chat service builds from the backend's answer, stamped with `now`. */
  function BotMessage(reply: ChatReply, now: nat): (m: Message)
    ensures m.sender == Bot && m.content == reply.response && m.timestamp == reply.timestamp
  {
    Message("bot-" + Text.Digits(now), reply.response, Bot, reply.timestamp)
  }

  /** The page's state, including the query cache entry for the user's history. */
  class ChatPageState {
    var isConnecting: bool
    var messages: seq<Message>
    var chatHistory: Option<seq<Message>>
    var historyLoading: bool
    var sendPending: bool

    constructor ()
      ensures isConnecting && messages == [] && chatHistory == None && historyLoading && !sendPending
    {
      isConnecting := true;
      messages := [];
      chatHistory := None;
      historyLoading := true;
      sendPending := false;
    }

    /** A spinner while connecting, then while the history loads, then the conversation. */
    function CurrentScreen(): (s: Screen)
      reads this
      ensures s == ConnectingSpinner <==> isConnecting
      ensures s == HistorySpinner <==> !isConnecting && historyLoading
      ensures s == Conversation <==> !isConnecting && !historyLoading
    {
      if isConnecting then ConnectingSpinner
      else if historyLoading then HistorySpinner
      else Conversation
    }

    /** The connection effect: only a successful connection ends the connecting phase. */
    method ConnectionSettled(connected: bool)
      modifies this`isConnecting
      ensures isConnecting == (old(isConnecting) && !connected)
    {
      if connected {
        isConnecting := false;
      }
    }

    /**
     * The history query settles: a reply fills the cache (a missing list reads
     * as empty); the displayed messages are never touched.
     */
    method HistorySettled(reply: Option<HistoryPayload>)
      modifies this`chatHistory, this`historyLoading
      ensures !historyLoading
      ensures reply.Some? ==> chatHistory == Some(reply.value.messages.GetOr([]))
      ensures reply.None? ==> chatHistory == old(chatHistory)
    {
      if reply.Some? {
        chatHistory := Some(reply.value.messages.GetOr([]));
      }
      historyLoading := false;
    }

    /** The send mutation up to the backend call: the user's message is appended first. */
    method BeginSend(content: string, now: nat)
      modifies this`messages, this`sendPending
      ensures messages == old(messages) + [UserMessage(content, now)]
      ensures sendPending
    {
      messages := messages + [UserMessage(content, now)];
      sendPending := true;
    }

    /** The send mutation settles: the bot's reply is appended on success only. */
    method SettleSend(reply: Option<ChatReply>, now: nat)
      requires sendPending
      modifies this`messages, this`sendPending
      ensures reply.Some? ==> messages == old(messages) + [BotMessage(reply.value, now)]
      ensures reply.None? ==> messages == old(messages)
      ensures !sendPending
    {
      if reply.Some? {
        messages := messages + [BotMessage(reply.value, now)];
      }
      sendPending := false;
    }

    /**
     * `handleSendMessage`: one whole send. On success the list grows by the
     * user's message followed by the bot's; on failure by the user's message
     * alone, and the failure goes no further.
     */
    method HandleSendMessage(content: string, sentAt: nat, reply: Option<ChatReply>, repliedAt: nat)
      modifies this`messages, this`sendPending
      ensures reply.Some? ==> messages == old(messages) + [UserMessage(content, sentAt), BotMessage(reply.value, repliedAt)]
      ensures reply.None? ==> messages == old(messages) + [UserMessage(content, sentAt)]
      ensures reply.Some? ==>
                |messages| == |old(messages)| + 2
                && messages[|old(messages)|].sender == User && messages[|old(messages)|].content == content
                && messages[|old(messages)| + 1].sender == Bot
      ensures !sendPending
    {
      BeginSend(content, sentAt);
      SettleSend(reply, repliedAt);
    }

    /** `handleClearHistory`: success empties the cached history; the displayed messages stay. */
    method HandleClearHistory(cleared: bool)
      modifies this`chatHistory
      ensures cleared ==> chatHistory == Some([])
      ensures !cleared ==> chatHistory == old(chatHistory)
    {
      if cleared {
        chatHistory := Some([]);
      }
    }
  }
}
