/** The data types shared by the chat page and the completion service (types.ts). */
module Types {
  import opened Wrappers

  /** Who authored a message. */
  datatype Role = User | Model | System

  /** The string value of each role, as sent to the backend in `role`. */
  function RoleValue(r: Role): string {
    match r
    case User => "user"
    case Model => "model"
    case System => "system"
  }

  /** Distinct roles have distinct string values: they differ in their first
      character. */
  lemma RoleValueInjective(a: Role, b: Role)
    requires RoleValue(a) == RoleValue(b)
    ensures a == b
  {
    assert RoleValue(a)[0] == RoleValue(b)[0];
  }

  /** A cited web page: both fields are optional in the type. */
  datatype GroundingSource = GroundingSource(title: Option<string>, uri: Option<string>)

  /** A clock reading (milliseconds); clock reads are parameters of the model. */
  type Timestamp = int

  /** One turn of the conversation. */
  datatype Message = Message(
    id: string,
    role: Role,
    content: string,
    timestamp: Timestamp,
    sources: Option<seq<GroundingSource>>,
    isThinking: Option<bool>)

  /** The state the chat page keeps in one `useState` cell. */
  datatype ChatState = ChatState(messages: seq<Message>, isLoading: bool, error: Option<string>)
}
