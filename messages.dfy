/** Values exchanged between the chat front-end and its websocket client
    library: chat messages, inbound socket events, the outcome of an
    asynchronous library request, and user-visible notices. */
module Messages {

  datatype Option<+T> = None | Some(value: T)

  /** A chat message as the library delivers it. The optional fields are
      absent (`undefined`) or present. */
  datatype ChatMessage = ChatMessage(
    isSystemMessage: bool,
    userIcon: Option<string>,
    userNickname: Option<string>,
    body: string,
    permId: string,
    timestamp: int,
    messageId: Option<string>)

  /** An inbound socket event, classified by its declared type. */
  datatype SocketMessage =
    | ChatEvent(chat: ChatMessage)                                  // SEND_MESSAGE
    | TypingPresenceEvent(anyoneTyping: bool, usersTyping: seq<string>) // SET_TYPING_PRESENCE
    | OtherEvent(kind: string)                                      // any other type

  /** How an awaited library request settled: its promise resolved with a
      value, or it rejected (threw). */
  datatype Reply<+T> = Resolved(value: T) | Rejected

  /** The value `joinChatRoom` resolves with, as the front-end inspects it:
      an object whose `messages` member is an array, or anything else
      (null, undefined, or an object without such an array). */
  datatype MessageList = WellFormed(messages: seq<ChatMessage>) | Malformed

  /** A transient toast shown to the user. */
  datatype Notice =
    | ConnectedNotice
    | ConnectionLostNotice
    | SocketErrorNotice(message: string)
    | RoomCreatedNotice
    | CreateFailedNotice
    | RoomJoinedNotice
    | JoinFailedNotice
    | NotAnImageNotice
    | ImageTooLargeNotice
    | ReadFailedNotice
    | SendFailedNotice
}
