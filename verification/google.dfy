/**
 * The wire shapes of the Google engine (`src/llm_engine/google.rs`): its
 * settings, content parts, function declarations, request and the reading
 * of the function call out of a `generateContent` reply.
 */
module Google {
  import opened Common
  import opened Json
  import opened Http
  import Util

  const DefaultBaseUrl: string := "https://generativelanguage.googleapis.com"

  /** The settings `new` needs: an API key from the options or the
      environment and a `model` option. */
  predicate Configurable(options: Util.OptionMap, env: map<string, string>)
  {
    ("api_key" in options || "GOOGLE_API_KEY" in env) && "model" in options
  }

  function ApiKey(options: Util.OptionMap, env: map<string, string>): string
    requires Configurable(options, env)
  {
    Util.OptionOrEnv(options, "api_key", "GOOGLE_API_KEY", env)
  }

  function BaseUrl(options: Util.OptionMap, env: map<string, string>): string
  {
    Util.OptionOrEnvFallback(options, "base_url", "GOOGLE_BASE_URL", env, DefaultBaseUrl)
  }

  // ---------------------------------------------------------------------
  // Content

  /** The text of a part, if it is a text part. */
  function TextOf(entry: Json): Option<string>
  {
    AsStr(Field(entry, "text"))
  }

  /** The base64 payload of a part, if it is inline PNG data. */
  function ImageOf(entry: Json): Option<string>
  {
    var inline := Field(entry, "inline_data");
    if Field(inline, "mime_type") == Str("image/png") then AsStr(Field(inline, "data")) else None
  }

  /** The part `add_text_content` appends: the text with no type tag. */
  function TextContent(text: string): (r: Json)
    ensures TextOf(r) == Some(text) && ImageOf(r) == None
  {
    Obj(map["text" := Str(text)])
  }

  /** The part `add_image_content` appends: the raw payload, no data URL. */
  function ImageContent(base64Image: string): (r: Json)
    ensures ImageOf(r) == Some(base64Image) && TextOf(r) == None
  {
    Obj(map["inline_data" := Obj(map["mime_type" := Str("image/png"), "data" := Str(base64Image)])])
  }

  // ---------------------------------------------------------------------
  // Request

  /** Where a declaration carries a member of the tool's definition. */
  function Declared(declaration: Json, key: string): Json
  {
    Field(declaration, key)
  }

  /** `google_tool_definition`: the name, description and parameters of the
      definition, unwrapped. */
  function ToolDefinition(definition: Json): (r: Json)
    ensures forall key | key in {"name", "description", "parameters"} :: Declared(r, key) == Field(definition, key)
  {
    Obj(map["name" := Field(definition, "name"),
            "description" := Field(definition, "description"),
            "parameters" := Field(definition, "parameters")])
  }

  /** The content parts a request carries. */
  function SentContent(body: Json): Json
  {
    Field(Item(Field(body, "contents"), 0), "parts")
  }

  /** The function declarations a request carries: all in the first entry
      of `tools`. */
  function SentTools(body: Json): Json
  {
    Field(Item(Field(body, "tools"), 0), "function_declarations")
  }

  /** The body `execute` posts: one user turn holding the parts in order,
      one tool entry holding every declaration in order, and function
      calling in mode `ANY`. The model is not part of the body. */
  function Body(content: seq<Json>, declarations: seq<Json>): (r: Json)
    ensures SentContent(r) == Arr(content) && SentTools(r) == Arr(declarations)
    ensures |Field(r, "tools").items| == 1
    ensures Field(Item(Field(r, "contents"), 0), "role") == Str("user")
    ensures Field(Field(Field(r, "tool_config"), "function_calling_config"), "mode") == Str("ANY")
  {
    Obj(map["contents" := Arr([Obj(map["role" := Str("user"), "parts" := Arr(content)])]),
            "tools" := Arr([Obj(map["function_declarations" := Arr(declarations)])]),
            "tool_config" := Obj(map["function_calling_config" := Obj(map["mode" := Str("ANY")])])])
  }

  /** The request: the model's `generateContent` method under the base URL,
      with the key in the query string and in no header. */
  function Request(baseUrl: string, model: string, apiKey: string, body: Json): (r: Http.Request)
    ensures r.url == baseUrl + "/v1beta/models/" + model + ":generateContent?key=" + apiKey
    ensures forall h | h in r.headers :: h == ("Content-Type", "application/json")
    ensures r.body == body
  {
    Post(baseUrl + "/v1beta/models/" + model + ":generateContent?key=" + apiKey,
         [("Content-Type", "application/json")],
         body)
  }

  // ---------------------------------------------------------------------
  // Reply

  /** `candidates[0].content.parts[0].functionCall`: its name (`unwrap`ped,
      so a missing one panics) and its `args` as they are, unparsed. */
  function SelectCall(response: Json): ToolCall
  {
    var parts := Field(Field(Item(Field(response, "candidates"), 0), "content"), "parts");
    match Get(parts, 0)
    case None => NoToolCall
    case Some(part) =>
      var fn := Field(part, "functionCall");
      match AsStr(Field(fn, "name"))
      case Some(name) => Call(name, Field(fn, "args"))
      case None => Malformed
  }

  /** A reply whose first candidate calls function `name` with `args`. */
  function CallReply(name: string, args: Json): Json
  {
    var fn := Obj(map["name" := Str(name), "args" := args]);
    var content := Obj(map["parts" := Arr([Obj(map["functionCall" := fn])])]);
    Obj(map["candidates" := Arr([Obj(map["content" := content])])])
  }

  /** The reply's call is read back as sent, and a candidate without parts
      reads as none. */
  lemma SelectCallReply(name: string, args: Json)
    ensures SelectCall(CallReply(name, args)) == Call(name, args)
    ensures SelectCall(Obj(map["candidates" := Arr([Obj(map["content" := Obj(map["parts" := Arr([])])])])])) == NoToolCall
  {
  }
}
