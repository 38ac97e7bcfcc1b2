/** The chat window: a list of messages that only grows, and the text being typed. */
module ChatDialog {
  import opened Js

  /** A message of the list: what the user typed, a bot message with a given text (the
      seeded initial message), or the bot's translated "not live" reply. */
  datatype ChatMessage = User(text: string) | Bot(text: string) | NotLive

  /** old is a prefix of now: nothing removed, nothing reordered. */
  predicate Extends(now: seq<ChatMessage>, before: seq<ChatMessage>) {
    |before| <= |now| && now[..|before|] == before
  }

  /** How many user messages a list holds. */
  function UserCount(messages: seq<ChatMessage>): nat {
    if messages == [] then 0
    else UserCount(messages[..|messages| - 1]) + (if messages[|messages| - 1].User? then 1 else 0)
  }

  /** Appending one message adds one user message exactly when it is one. */
  lemma UserCountAppend(messages: seq<ChatMessage>, m: ChatMessage)
    ensures UserCount(messages + [m]) == UserCount(messages) + (if m.User? then 1 else 0)
  {
    assert (messages + [m])[..|messages|] == messages;
  }

  class Dialog {
    var message: string
    var messages: seq<ChatMessage>
    /** Bot replies scheduled by setTimeout that have not arrived yet. */
    var pendingReplies: nat

    constructor ()
      ensures message == "" && messages == [] && pendingReplies == 0
    {
      message := "";
      messages := [];
      pendingReplies := 0;
    }

    /** The seeding effect: a non-empty initial message becomes the only message of
        an empty list, and only then is it reported consumed. */
    method SeedInitialMessage(initialMessage: Option<string>) returns (consumed: bool)
      modifies this
      ensures consumed <==> initialMessage.Some? && initialMessage.value != "" && old(messages) == []
      ensures consumed ==> messages == [Bot(initialMessage.value)]
      ensures !consumed ==> messages == old(messages)
      ensures message == old(message) && pendingReplies == old(pendingReplies)
    {
      consumed := false;
      if initialMessage.Some? && initialMessage.value != "" && |messages| == 0 {
        messages := [Bot(initialMessage.value)];
        consumed := true;
      }
    }

    /** The input's onChange. */
    method EditMessage(value: string)
      modifies this
      ensures message == value
      ensures messages == old(messages) && pendingReplies == old(pendingReplies)
    {
      message := value;
    }

    /** handleSendMessage: text that is blank once trimmed changes nothing; otherwise
        it is appended untrimmed as one user message, the input is cleared and one bot
        reply is scheduled. */
    method HandleSendMessage()
      modifies this
      ensures IsBlank(old(message)) ==>
        message == old(message) && messages == old(messages) && pendingReplies == old(pendingReplies)
      ensures !IsBlank(old(message)) ==>
        messages == old(messages) + [User(old(message))] && message == "" && pendingReplies == old(pendingReplies) + 1
      ensures UserCount(messages) == UserCount(old(messages)) + (if IsBlank(old(message)) then 0 else 1)
      ensures Extends(messages, old(messages))
    {
      if Trim(message) != "" {
        UserCountAppend(messages, User(message));
        messages := messages + [User(message)];
        message := "";
        pendingReplies := pendingReplies + 1;
      }
    }

    /** The input's Enter key sends; other keys do nothing. */
    method KeyPress(key: string)
      modifies this
      ensures key != "Enter" ==>
        message == old(message) && messages == old(messages) && pendingReplies == old(pendingReplies)
      ensures key == "Enter" && !IsBlank(old(message)) ==> messages == old(messages) + [User(old(message))]
      ensures Extends(messages, old(messages))
    {
      if key == "Enter" {
        HandleSendMessage();
      }
    }

    /** A scheduled reply arrives: one "not live" bot message. */
    method ReplyArrives()
      requires pendingReplies > 0
      modifies this
      ensures messages == old(messages) + [NotLive] && pendingReplies == old(pendingReplies) - 1
      ensures UserCount(messages) == UserCount(old(messages))
      ensures message == old(message)
    {
      UserCountAppend(messages, NotLive);
      messages := messages + [NotLive];
      pendingReplies := pendingReplies - 1;
    }

    /** handleInfoClick: one "not live" bot message and no user message. */
    method HandleInfoClick()
      modifies this
      ensures messages == old(messages) + [NotLive]
      ensures UserCount(messages) == UserCount(old(messages))
      ensures message == old(message) && pendingReplies == old(pendingReplies)
    {
      UserCountAppend(messages, NotLive);
      messages := messages + [NotLive];
    }
  }
}
