/** The chat overlay shared by every page: whether the chat is open and the message
    it was opened with. */
module GlobalChatProvider {
  import opened Js

  /** What the provider renders besides its children. */
  datatype Overlay = OpenButton | DialogWithCloseButton(initialMessage: Option<string>)

  class Provider {
    var isChatOpen: bool
    var initialChatContextMessage: Option<string>

    constructor ()
      ensures !isChatOpen && initialChatContextMessage == None
    {
      isChatOpen := false;
      initialChatContextMessage := None;
    }

    /** The dialog, handed the pending message, while open; the floating open button
        while closed. */
    function Render(): (r: Overlay)
      reads this
      ensures r.DialogWithCloseButton? <==> isChatOpen
      ensures r.DialogWithCloseButton? ==> r.initialMessage == initialChatContextMessage
    {
      if isChatOpen then DialogWithCloseButton(initialChatContextMessage) else OpenButton
    }

    /** openChat, with or without a message. */
    method OpenChat(message: Option<string>)
      modifies this
      ensures isChatOpen && initialChatContextMessage == message
    {
      initialChatContextMessage := message;
      isChatOpen := true;
    }

    /** closeChat: closed, and the pending message dropped. */
    method CloseChat()
      modifies this
      ensures !isChatOpen && initialChatContextMessage == None
      ensures Render() == OpenButton
    {
      isChatOpen := false;
      initialChatContextMessage := None;
    }

    /** The dialog reports the message consumed: it is dropped, open or not. */
    method HandleInitialMessageConsumed()
      modifies this
      ensures initialChatContextMessage == None && isChatOpen == old(isChatOpen)
    {
      initialChatContextMessage := None;
    }

    /** The floating button, shown only while closed, opens the chat without a message. */
    method PressOpenButton()
      requires Render() == OpenButton
      modifies this
      ensures isChatOpen && initialChatContextMessage == None
      ensures Render() == DialogWithCloseButton(None)
    {
      OpenChat(None);
    }
  }
}
