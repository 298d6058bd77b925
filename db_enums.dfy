/**
 * The database enumerations the proxy writes: a chat's status, and a turn's
 * role and type.
 */
module DbEnums {

  /** Status of a chat (session) row. */
  datatype ChatStatus = UserEnded | Complete | Active | Error

  /** Who authored a turn (`chat_events.role`). */
  datatype EventRole = System | User | Agent

  /** What kind of turn it is (`chat_events.type`). */
  datatype EventType = SystemPrompt | UserMessage | AgentMessage | ToolCall | ToolResponse | ChatMetadata
}
