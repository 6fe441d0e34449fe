/** buildConversationMessages (worker/chat.ts:302-314): the messages sent to the model are the
    system prompt, the five most recent history messages reduced to role and content, and the
    user's new message. */
module Conversation {
  import opened Numbers

  datatype Role = User | Assistant | System

  /** A stored chat message (worker/types.ts:14-20); tool calls are carried but not sent. */
  datatype Message = Message(role: Role, content: string, timestamp: int, id: string)

  /** What the completion request receives. */
  datatype ChatMessage = ChatMessage(role: Role, content: string)

  const SystemPrompt: string := "You are a helpful AI trading assistant for Aurora Trade Studio. You provide clear, concise guidance on trading strategies, backtest results, and market analysis. Keep responses practical and actionable."

  /** How many history messages are kept. */
  const Window: nat := 5

  function Strip(m: Message): ChatMessage
  {
    ChatMessage(m.role, m.content)
  }

  /** `history.slice(-5)`: the last five messages, or all of them when there are fewer. */
  function LastMessages(history: seq<Message>): (r: seq<Message>)
    ensures |r| == Min(Window, |history|)
    ensures r == history[|history| - |r|..]
  {
    if |history| <= Window then history else history[|history| - Window..]
  }

  function BuildConversationMessages(userMessage: string, history: seq<Message>): (r: seq<ChatMessage>)
    ensures |r| == Min(Window, |history|) + 2
    ensures r[0] == ChatMessage(System, SystemPrompt)
    ensures r[|r| - 1] == ChatMessage(User, userMessage)
    ensures forall k :: 1 <= k <= Min(Window, |history|) ==>
              r[k] == Strip(history[|history| - Min(Window, |history|) + k - 1])
  {
    var recent := LastMessages(history);
    [ChatMessage(System, SystemPrompt)] + seq(|recent|, k requires 0 <= k < |recent| => Strip(recent[k]))
      + [ChatMessage(User, userMessage)]
  }

  /** Messages older than the last five have no influence on the request. */
  lemma OlderHistoryIgnored(userMessage: string, older: seq<Message>, history: seq<Message>)
    requires |history| >= Window
    ensures BuildConversationMessages(userMessage, older + history) == BuildConversationMessages(userMessage, history)
  {
    var all := older + history;
    assert all[|all| - Window..] == history[|history| - Window..];
    assert LastMessages(all) == LastMessages(history);
  }

  /** With at most five messages the whole history is sent, in order. */
  lemma ShortHistoryKept(userMessage: string, history: seq<Message>)
    requires |history| <= Window
    ensures BuildConversationMessages(userMessage, history)[1..|history| + 1]
            == seq(|history|, k requires 0 <= k < |history| => Strip(history[k]))
  {
  }
}
