/** What the views send on the shared socket, recorded as an output log instead of being transmitted. */
module Socket {
  import opened Wrappers
  import opened Messages

  datatype Emit =
    | UserOnline(userId: Option<string>)
    | PublicTyping(alias: Option<string>)
    | PublicStopTyping
    | ChatMessageOut(message: ChatMessage)
    | JoinRoom(room: string)
    | Typing(room: string, alias: Option<string>)
    | StopTyping(room: string)
    | RegisterUserSocket(socketUserId: string)
}
