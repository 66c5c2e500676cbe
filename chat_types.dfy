/** The chat records shared by the chat-window hooks: execution modes,
    messages, sessions as the query cache holds them, and recap digests. */
module ChatTypes {
  import opened Common

  /** How the assistant runs a prompt: planning only, building, or building
      without asking for permissions. */
  datatype ExecutionMode = Plan | Build | Yolo

  /** The two modes a plan can be approved into (`'build' | 'yolo'`). */
  type ApprovalMode = m: ExecutionMode | m != Plan witness Build

  /** A chat message, reduced to what the hooks read and write. */
  datatype ChatMessage = ChatMessage(id: string, planApproved: bool, content: string)

  /** A recap of a session: its summary, the last action, and how many
      messages the session had when the recap was made. */
  datatype SessionDigest = SessionDigest(chatSummary: string, lastAction: string, messageCount: int)

  /** A session as the query cache holds it. */
  datatype Session = Session(
    messages: seq<ChatMessage>,
    approvedPlanMessageIds: Option<seq<string>>,
    digest: Option<SessionDigest>)
}
