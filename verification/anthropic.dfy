/**
 * The wire shapes of the Anthropic engine (`src/engine/anthropic.rs`): its
 * settings, content blocks, tool declarations, request and the reading of
 * the `tool_use` block out of a message.
 */
module Anthropic {
  import opened Common
  import opened Json
  import opened Http

  /** The model every request names, whatever the engine was built with. */
  const Model: string := "claude-3-5-sonnet-latest"
  const MaxTokens: int := 5000
  const Url: string := "https://api.anthropic.com/v1/messages"
  const ApiVersion: string := "2023-06-01"

  /** `new` reads the key from the environment and `unwrap`s it. */
  predicate Configurable(env: map<string, string>)
  {
    "ANTHROPIC_API_KEY" in env
  }

  function ApiKey(env: map<string, string>): string
    requires Configurable(env)
  {
    env["ANTHROPIC_API_KEY"]
  }

  // ---------------------------------------------------------------------
  // Content

  /** The text of a content block, if it is a text block. */
  function TextOf(entry: Json): Option<string>
  {
    if Field(entry, "type") == Str("text") then AsStr(Field(entry, "text")) else None
  }

  /** The base64 payload of a content block, if it is a base64 PNG image. */
  function ImageOf(entry: Json): Option<string>
  {
    var source := Field(entry, "source");
    if Field(entry, "type") == Str("image") && Field(source, "type") == Str("base64") &&
       Field(source, "media_type") == Str("image/png")
    then AsStr(Field(source, "data")) else None
  }

  /** The block `add_text_content` appends. */
  function TextContent(text: string): (r: Json)
    ensures TextOf(r) == Some(text) && ImageOf(r) == None
  {
    Obj(map["type" := Str("text"), "text" := Str(text)])
  }

  /** The block `add_image_content` appends. */
  function ImageContent(base64Image: string): (r: Json)
    ensures ImageOf(r) == Some(base64Image) && TextOf(r) == None
  {
    Obj(map["type" := Str("image"),
            "source" := Obj(map["type" := Str("base64"), "media_type" := Str("image/png"),
                                "data" := Str(base64Image)])])
  }

  // ---------------------------------------------------------------------
  // Request

  /** Where a declaration carries a member of the tool's definition: the
      parameters travel as `input_schema`. */
  function Declared(declaration: Json, key: string): Json
  {
    Field(declaration, if key == "parameters" then "input_schema" else key)
  }

  /** `anthropic_tool_definition`: name and description copied, parameters
      renamed to `input_schema`. */
  function ToolDefinition(definition: Json): (r: Json)
    ensures forall key | key in {"name", "description", "parameters"} :: Declared(r, key) == Field(definition, key)
    ensures Field(r, "parameters") == Null
  {
    Obj(map["name" := Field(definition, "name"),
            "description" := Field(definition, "description"),
            "input_schema" := Field(definition, "parameters")])
  }

  /** The content blocks a request carries. */
  function SentContent(body: Json): Json
  {
    Field(Item(Field(body, "messages"), 0), "content")
  }

  /** The tool declarations a request carries. */
  function SentTools(body: Json): Json
  {
    Field(body, "tools")
  }

  /** The body `execute` posts: the fixed model and token limit, one user
      message holding the content in order, the declarations in order, and
      exactly one tool use required. */
  function Body(content: seq<Json>, declarations: seq<Json>): (r: Json)
    ensures SentContent(r) == Arr(content) && SentTools(r) == Arr(declarations)
    ensures Field(r, "model") == Str(Model) && Field(r, "max_tokens") == Number(MaxTokens)
    ensures Field(Item(Field(r, "messages"), 0), "role") == Str("user")
    ensures Field(Field(r, "tool_choice"), "type") == Str("any")
    ensures Field(Field(r, "tool_choice"), "disable_parallel_tool_use") == Bool(true)
  {
    Obj(map["model" := Str(Model),
            "max_tokens" := Number(MaxTokens),
            "messages" := Arr([Obj(map["role" := Str("user"), "content" := Arr(content)])]),
            "tools" := Arr(declarations),
            "tool_choice" := Obj(map["type" := Str("any"), "disable_parallel_tool_use" := Bool(true)])])
  }

  /** The request: the fixed messages endpoint, the key and API version in
      headers. */
  function Request(apiKey: string, body: Json): (r: Http.Request)
    ensures r.url == Url
    ensures ("x-api-key", apiKey) in r.headers && ("anthropic-version", ApiVersion) in r.headers
    ensures r.body == body
  {
    Post(Url,
         [("x-api-key", apiKey), ("anthropic-version", ApiVersion), ("Content-Type", "application/json")],
         body)
  }

  // ---------------------------------------------------------------------
  // Reply

  /** `content[0]`: its `name` (`unwrap`ped) and its `input` as it is. */
  function SelectCall(response: Json): ToolCall
  {
    match Get(Field(response, "content"), 0)
    case None => NoToolCall
    case Some(block) =>
      match AsStr(Field(block, "name"))
      case Some(name) => Call(name, Field(block, "input"))
      case None => Malformed
  }

  /** A message whose first content block uses tool `name` with `input`. */
  function CallReply(name: string, input: Json): Json
  {
    Obj(map["content" := Arr([Obj(map["type" := Str("tool_use"), "name" := Str(name), "input" := input])])])
  }

  /** The reply's call is read back as sent, and an empty message reads as
      none. */
  lemma SelectCallReply(name: string, input: Json)
    ensures SelectCall(CallReply(name, input)) == Call(name, input)
    ensures SelectCall(Obj(map["content" := Arr([])])) == NoToolCall
  {
  }
}
