/** The chat screen: an append-only transcript, the send guard, the history handed to the
    stylist call and the fallback reply on failure. */
module ChatAdvisor {
  import opened Wrappers
  import opened Text
  import opened Types
  import opened GeminiService

  /** One line of the transcript. */
  datatype Message = Message(id: string, role: Role, text: string)

  /** The transcript's opening line, from the stylist. */
  const Greeting: Message := Message("1", Model, "Hi! I'm your personal stylist. Ask me anything about your wardrobe or style advice!")

  /** The stylist line appended when the call fails, whatever the cause. */
  const FallbackReply: string := "Sorry, I'm having trouble connecting to the fashion server right now."

  /** The history handed to the stylist call: each message as its role and one text part, in order. */
  function History(messages: seq<Message>): (r: seq<HistoryEntry>)
    ensures |r| == |messages|
  {
    seq(|messages|, i requires 0 <= i < |messages| => HistoryEntry(messages[i].role, [messages[i].text]))
  }

  /** The history is read message by message: appending to the transcript appends to the
      history, so each send's history extends the previous one. */
  lemma HistoryOfPrefix(before: seq<Message>, after: seq<Message>)
    requires before <= after
    ensures History(before) <= History(after)
    ensures History(after) == History(before) + History(after[|before|..])
  {
  }

  /** Every history entry gives back the role and text of its message. */
  lemma HistoryEntries(messages: seq<Message>, i: nat)
    requires i < |messages|
    ensures History(messages)[i].role == messages[i].role
    ensures History(messages)[i].parts == [messages[i].text]
  {
  }

  /** What one send hands to the stylist call: the history before the new message, and the
      message text. */
  datatype Outgoing = Outgoing(history: seq<HistoryEntry>, message: string)

  /** The reply line for an outcome of the stylist call: the reply's text, or the fixed apology
      whatever the failure. */
  function ReplyText(reply: Result<string>): (r: string)
    ensures reply.Ok? ==> r == reply.value
    ensures reply.Err? ==> r == FallbackReply
  {
    match reply
    case Ok(text) => text
    case Err(_) => FallbackReply
  }

  class ChatScreen {
    var messages: seq<Message>
    var input: string
    var isLoading: bool

    /** The transcript still opens with the greeting. */
    ghost predicate Valid()
      reads this
    {
      |messages| >= 1 && messages[0] == Greeting
    }

    constructor ()
      ensures Valid() && messages == [Greeting] && input == "" && !isLoading
    {
      messages := [Greeting];
      input := "";
      isLoading := false;
    }

    /** Typing in the input field, which is disabled while a reply is pending. */
    method EditInput(text: string)
      modifies this
      ensures input == if old(isLoading) then old(input) else text
      ensures messages == old(messages) && isLoading == old(isLoading)
    {
      if !isLoading {
        input := text;
      }
    }

    /** The part of `handleSend` before the call. A blank input or a pending reply: nothing
        happens. Otherwise the input, untrimmed, is appended as a user line, the field is
        cleared, the screen waits, and the history of the transcript as it was before the new
        line goes out with the text. */
    method BeginSend(userId: string) returns (outgoing: Option<Outgoing>)
      requires Valid()
      modifies this
      ensures Valid()
      ensures outgoing.None? <==> IsBlank(old(input)) || old(isLoading)
      ensures outgoing.None? ==> messages == old(messages) && input == old(input) && isLoading == old(isLoading)
      ensures outgoing.Some? ==>
                outgoing.value == Outgoing(History(old(messages)), old(input)) &&
                messages == old(messages) + [Message(userId, User, old(input))] &&
                input == "" && isLoading
    {
      if IsBlank(input) || isLoading {
        return None;
      }
      outgoing := Some(Outgoing(History(messages), input));
      messages := messages + [Message(userId, User, input)];
      input := "";
      isLoading := true;
    }

    /** The part of `handleSend` after the call: append the reply, or the fixed apology, as a
        stylist line, and stop waiting. */
    method FinishSend(replyId: string, reply: Result<string>)
      requires Valid()
      modifies this
      ensures Valid()
      ensures messages == old(messages) + [Message(replyId, Model, ReplyText(reply))]
      ensures !isLoading && input == old(input)
    {
      messages := messages + [Message(replyId, Model, ReplyText(reply))];
      isLoading := false;
    }

    /** `handleSend`, sequentialised. The transcript only grows: a send that passes the guard
        adds the user line and then exactly one stylist line. */
    method HandleSend(userId: string, replyId: string, apiKey: Option<string>, wardrobe: seq<ClothingItem>,
                      service: ChatRequest -> Result<string>)
      requires Valid()
      modifies this
      ensures Valid()
      ensures old(messages) <= messages
      ensures IsBlank(old(input)) || old(isLoading) ==>
                messages == old(messages) && input == old(input) && isLoading == old(isLoading)
      ensures !IsBlank(old(input)) && !old(isLoading) ==>
                messages == old(messages) + [Message(userId, User, old(input)),
                  Message(replyId, Model, ReplyText(ChatWithStylist(apiKey, History(old(messages)), wardrobe, old(input), service)))] &&
                input == "" && !isLoading
    {
      var outgoing := BeginSend(userId);
      if outgoing.Some? {
        var reply := ChatWithStylist(apiKey, outgoing.value.history, wardrobe, outgoing.value.message, service);
        FinishSend(replyId, reply);
      }
    }
  }
}
