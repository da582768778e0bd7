/** The chat screen's local conversation: a list of messages and the text
    being typed, both held in component state. */
module ChatScreen {
  import opened Text

  datatype LocalMessage = LocalMessage(id: string, text: string, sender: string, time: string)

  const MockMessages := [
    LocalMessage("1", "Hey there! How are you doing?", "them", "10:30 AM"),
    LocalMessage("2", "I'm good, thanks for asking! How about you?", "me", "10:32 AM"),
    LocalMessage("3", "I'm doing well! Just working on some React Native stuff.", "them", "10:33 AM"),
    LocalMessage("4", "That's great! Need any help with that?", "me", "10:35 AM"),
    LocalMessage("5", "Actually yes! I was wondering if you could help me with navigation in my app.", "them", "10:36 AM")
  ]

  /** The send button is enabled for any non-empty input, blanks included. */
  predicate SendEnabled(message: string) {
    message != ""
  }

  /** The guard of `handleSend`: the input trims to nothing. */
  predicate Dropped(message: string) {
    Trim(message) == ""
  }

  /** Input the button lets through and the guard then drops: blanks only. */
  lemma EnabledButDropped(message: string)
    ensures SendEnabled(message) && Dropped(message) <==> message != "" && Blank(message)
  {
  }

  lemma BlankSpaceEnabledButDropped()
    ensures SendEnabled(" ") && Dropped(" ")
  {
    assert Blank(" ");
  }

  class Chat {
    var message: string
    var messages: seq<LocalMessage>

    constructor()
      ensures message == "" && messages == MockMessages
    {
      message, messages := "", MockMessages;
    }

    /** `handleSend`. `now` is `Date.now().toString()` and `time` the
        formatted clock time. */
    method HandleSend(now: string, time: string)
      modifies this
      ensures Dropped(old(message)) ==> message == old(message) && messages == old(messages)
      ensures !Dropped(old(message)) ==>
                && messages == old(messages) + [LocalMessage(now, old(message), "me", time)]
                && message == ""
    {
      if Trim(message) == "" {
        return;
      }
      messages := messages + [LocalMessage(now, message, "me", time)];
      message := "";
    }
  }
}
