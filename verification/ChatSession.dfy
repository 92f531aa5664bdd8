/**
 The session record of the chat backend (com.app.dto.ChatSession): one live
 pairing of a customer with an agent, with the messages exchanged so far.
 */
module ChatSessions {

  /** A `LocalDateTime` reading; the core only stores it. */
  type Timestamp = int

  /** A chat message (com.app.dto.ChatMessageDTO); the core treats it as an opaque value. */
  datatype ChatMessage = ChatMessage(chatId: int, userId: int, message: string, date: string)

  /** The value a `ChatSession` object holds at one moment. */
  datatype SessionRecord = SessionRecord(
    sessionId: int,
    customerId: int,
    agentId: int,
    startTime: Timestamp,
    messages: seq<ChatMessage>)

  /**
   A session object. Its identity and participants are fixed at construction
   (the core never calls the generated setters); its message list is the only
   part the service changes, and only by appending at the end.
   */
  class ChatSession {
    const sessionId: int
    const customerId: int
    const agentId: int
    const startTime: Timestamp
    var messages: seq<ChatMessage>

    constructor (sessionId: int, customerId: int, agentId: int, startTime: Timestamp)
      ensures this.sessionId == sessionId && this.customerId == customerId
      ensures this.agentId == agentId && this.startTime == startTime
      ensures messages == []
    {
      this.sessionId := sessionId;
      this.customerId := customerId;
      this.agentId := agentId;
      this.startTime := startTime;
      this.messages := [];
    }

    /** The current value of this session. */
    function Snapshot(): SessionRecord
      reads this
    {
      SessionRecord(sessionId, customerId, agentId, startTime, messages)
    }
  }
}
