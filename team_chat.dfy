/** The virtual team chat (src/components/collaborative/VirtualTeamChat.tsx):
    the message list, the draft in the input box, sending with Enter, and the
    icon chosen for a message's kind. */
module TeamChat {
  import opened Options
  import opened Strings

  datatype Sender = Sender(name: string, avatar: string, role: string)

  datatype MessageType = Chat | Review | Suggestion | PullRequest

  /** A chat message; the timestamp is a clock reading supplied from outside. */
  datatype Message = Message(id: string, sender: Sender, content: string, timestamp: int, kind: MessageType)

  /** The sender shown on the developer's own messages. */
  const You := Sender("You", "https://api.dicebear.com/7.x/avataaars/svg?seed=You", "Developer")

  /** Whether the send handler goes ahead: the draft is not blank once trimmed. */
  predicate CanSend(draft: string) {
    Trim(draft) != ""
  }

  /** The message list after `handleSendMessage` with the given draft: one
      message appended for a non-blank draft, carrying the draft as typed
      (not trimmed) from "You" as a plain message; the list as it was for a
      blank draft. */
  function AfterSend(messages: seq<Message>, draft: string, id: string, now: int): (r: seq<Message>)
    ensures CanSend(draft) ==> |r| == |messages| + 1 && r[..|messages|] == messages
    ensures CanSend(draft) ==> r[|messages|].content == draft && r[|messages|].sender == You
                               && r[|messages|].kind == Chat
    ensures !CanSend(draft) <==> r == messages
    ensures !CanSend(draft) <==> AllWhitespace(draft)
  {
    TrimEmptyIff(draft);
    if CanSend(draft) then messages + [Message(id, You, draft, now, Chat)] else messages
  }

  /** Sending never loses or edits an earlier message. */
  lemma SendKeepsHistory(messages: seq<Message>, draft: string, id: string, now: int, k: nat)
    requires k < |messages|
    ensures k < |AfterSend(messages, draft, id, now)| && AfterSend(messages, draft, id, now)[k] == messages[k]
  {
    var r := AfterSend(messages, draft, id, now);
    if CanSend(draft) {
      assert r[..|messages|][k] == r[k];
    }
  }

  /** The key handler: Enter without Shift sends; Shift+Enter and other keys do not. */
  predicate SendsOnKey(key: string, shiftKey: bool) {
    key == "Enter" && !shiftKey
  }

  /** The chat panel's state. The delayed random teammate reply is not part of it. */
  class ChatPanel {
    var messages: seq<Message>
    var newMessage: string

    constructor(initialMessages: seq<Message>)
      ensures messages == initialMessages && newMessage == ""
    {
      messages := initialMessages;
      newMessage := "";
    }

    method SetNewMessage(value: string)
      modifies this
      ensures newMessage == value && messages == old(messages)
    {
      newMessage := value;
    }

    /** `handleSendMessage`, up to the timer. `id` and `now` stand for
        `Date.now()` and `new Date()`. Returns the text handed to
        `onSendMessage`, if it is called. */
    method SendMessage(id: string, now: int) returns (sent: Option<string>)
      modifies this
      ensures messages == AfterSend(old(messages), old(newMessage), id, now)
      ensures sent == (if CanSend(old(newMessage)) then Some(old(newMessage)) else None)
      ensures newMessage == (if CanSend(old(newMessage)) then "" else old(newMessage))
    {
      if !CanSend(newMessage) {
        return None;
      }
      var message := Message(id, You, newMessage, now, Chat);
      messages := messages + [message];
      sent := Some(newMessage);
      newMessage := "";
    }

    /** `handleKeyDown`. */
    method KeyDown(key: string, shiftKey: bool, id: string, now: int) returns (sent: Option<string>)
      modifies this
      ensures SendsOnKey(key, shiftKey) ==> messages == AfterSend(old(messages), old(newMessage), id, now)
      ensures SendsOnKey(key, shiftKey) ==>
        sent == (if CanSend(old(newMessage)) then Some(old(newMessage)) else None) &&
        newMessage == (if CanSend(old(newMessage)) then "" else old(newMessage))
      ensures !SendsOnKey(key, shiftKey) ==>
        messages == old(messages) && newMessage == old(newMessage) && sent.None?
    {
      sent := None;
      if SendsOnKey(key, shiftKey) {
        sent := SendMessage(id, now);
      }
    }
  }

  /** A draft of spaces is refused, and the draft stays in the box. */
  method BlankDraftIsKept(history: seq<Message>) returns (sent: Option<string>, draft: string, count: nat)
    ensures sent.None? && draft == "   " && count == |history|
  {
    var chat := new ChatPanel(history);
    chat.SetNewMessage("   ");
    TrimEmptyIff("   ");
    sent := chat.SendMessage("1", 0);
    draft := chat.newMessage;
    count := |chat.messages|;
  }

  datatype Icon = ThumbsUp | AlertCircle | GitPullRequestIcon | MessageSquare

  /** `getMessageIcon`: one icon per special kind, the speech bubble otherwise. */
  function MessageIcon(kind: string): (r: Icon)
    ensures kind == "review" ==> r == ThumbsUp
    ensures kind == "suggestion" ==> r == AlertCircle
    ensures kind == "pr" ==> r == GitPullRequestIcon
    ensures r == MessageSquare <==> kind !in {"review", "suggestion", "pr"}
  {
    match kind
    case "review" => ThumbsUp
    case "suggestion" => AlertCircle
    case "pr" => GitPullRequestIcon
    case _ => MessageSquare
  }
}
