/**
 * The Messages API types of the agent: the string-valued enumerations
 * (role, model, stop reason, content-block type), the conversation entry,
 * the request sent to the model, and the response it returns.
 *
 * Fields that hold untyped JSON (a tool's property schemas, a tool call's
 * input) are kept opaque as their raw text.
 */
module ApiTypes {

  /** Speaker of a conversation entry. */
  datatype Role = User | Assistant

  /** Wire value of a role. */
  function RoleName(r: Role): string
  {
    match r
    case User => "user"
    case Assistant => "assistant"
  }

  /** The model identifiers the client knows about. */
  datatype Model = Opus | Sonnet | Haiku

  /** Wire value of a model identifier. */
  function ModelId(m: Model): string
  {
    match m
    case Opus => "claude-3-opus-20240229"
    case Sonnet => "claude-3-sonnet-20240229"
    case Haiku => "claude-3-haiku-20240307"
  }

  /** Stop reasons the API may report. */
  const EndTurn: string := "end_turn"
  const MaxTokensReached: string := "max_tokens"
  const StopSequenceHit: string := "stop_sequence"

  /**
   * Discriminator of a response content block. The wire field is a free
   * string; `Other` keeps any value besides the two the client names.
   */
  datatype ResponseType = Text | ToolUse | Other(name: string)

  /** A value is canonical when `Other` does not spell one of the two named kinds. */
  predicate Canonical(t: ResponseType)
  {
    t.Other? ==> t.name != "text" && t.name != "tool_use"
  }

  /**
   * The discriminator a block actually carries: each wire string has exactly
   * one such value, so comparing kinds is comparing wire strings.
   */
  type BlockType = t: ResponseType | Canonical(t) witness Text

  /** Wire value of a discriminator. */
  function ResponseTypeName(t: ResponseType): string
  {
    match t
    case Text => "text"
    case ToolUse => "tool_use"
    case Other(name) => name
  }

  /**
   * Reads the wire discriminator. Being `Text` is exactly the string
   * comparison with "text" that the client performs.
   */
  function ClassifyResponseType(s: string): (t: BlockType)
    ensures ResponseTypeName(t) == s
    ensures t == Text <==> s == "text"
    ensures t == ToolUse <==> s == "tool_use"
  {
    if s == "text" then Text
    else if s == "tool_use" then ToolUse
    else Other(s)
  }

  /** Reading back the wire name of a block's discriminator gives it back. */
  lemma NameClassifyRoundTrip(t: BlockType)
    ensures ClassifyResponseType(ResponseTypeName(t)) == t
  {
  }

  /** An untyped JSON value, kept as its raw text. */
  datatype JsonValue = JsonValue(raw: string)

  datatype InputSchema = InputSchema(
    schemaType: string,
    properties: map<string, JsonValue>,
    required: seq<string>)

  /** A tool declaration, passed through to the model untouched. */
  datatype Tool = Tool(name: string, description: string, inputSchema: InputSchema)

  /** One conversation entry. */
  datatype Message = Message(role: Role, content: string)

  /** The body of a call to the Messages API. */
  datatype Request = Request(
    model: Model,
    messages: seq<Message>,
    maxTokens: int,
    system: string,
    tools: seq<Tool>)

  /** One content block of a response: text, or a tool call (id, name, input). */
  datatype ResponseMessage = ResponseMessage(
    kind: BlockType,
    text: string,
    id: string,
    name: string,
    input: JsonValue)

  datatype Usage = Usage(inputTokens: int, outputTokens: int)

  datatype Response = Response(
    id: string,
    kind: string,
    role: string,
    content: seq<ResponseMessage>,
    model: string,
    stopReason: string,
    stopSequence: string,
    usage: Usage)

  /** What one call of the transport yields: an error, or a decoded response. */
  datatype Outcome = Err(error: string) | Ok(response: Response)
}
