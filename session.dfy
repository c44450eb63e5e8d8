/**
 * The session context shared by the page and the chat widget: whether the
 * chat is open, and a message seeded from elsewhere on the page that the
 * widget sends on its own.
 */
module Session {
  import opened Wrappers

  /** The state held by `ChatProvider`. */
  class ChatSession {
    var isOpen: bool
    var initialMessage: string

    /** A provider starts closed, with no seeded message. */
    constructor ()
      ensures !isOpen && initialMessage == ""
    {
      isOpen := false;
      initialMessage := "";
    }

    /** `setIsOpen`: changes only the open flag. */
    method SetIsOpen(open: bool)
      modifies this`isOpen
      ensures isOpen == open && initialMessage == old(initialMessage)
    {
      isOpen := open;
    }

    /** `setInitialMessage`: changes only the seeded message. */
    method SetInitialMessage(message: string)
      modifies this`initialMessage
      ensures initialMessage == message && isOpen == old(isOpen)
    {
      initialMessage := message;
    }

    /** `openChatWithMessage`: seeds the message and opens the chat. */
    method OpenChatWithMessage(message: string)
      modifies this
      ensures initialMessage == message && isOpen
    {
      SetInitialMessage(message);
      SetIsOpen(true);
    }
  }

  /** The outcome of `useChatContext()`: the provider's session, or the error it throws. */
  datatype Lookup = Provided(session: ChatSession) | Thrown(error: string)

  const MissingProviderError := "useChatContext must be used within ChatProvider"

  /**
   * `useChatContext()` called under the given provider (`None` when no
   * `ChatProvider` encloses the caller).
   */
  function UseChatContext(provider: Option<ChatSession>): (r: Lookup)
    ensures r.Thrown? <==> provider.None?
    ensures r.Thrown? ==> r.error == "useChatContext must be used within ChatProvider"
    ensures r.Provided? ==> r.session == provider.value
  {
    match provider
    case None => Thrown(MissingProviderError)
    case Some(session) => Provided(session)
  }
}
