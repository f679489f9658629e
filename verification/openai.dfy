/**
 * The wire shapes of the OpenAI engine (`src/llm_engine/openai.rs`): its
 * settings, content entries, tool declarations, request and the reading of
 * the tool call out of a chat completion. The engine state and dispatch
 * shared by all vendors live in `LlmEngine`.
 */
module OpenAI {
  import opened Common
  import opened Json
  import opened Http
  import Util

  const DefaultBaseUrl: string := "https://api.openai.com"

  /** The scheme and media type of the image data URL (section 3 of RFC 2397). */
  const DataUrlPrefix: string := "data:image/png;base64,"

  /** The settings `new` needs: an API key from the options or the
      environment (`option_or_env` panics otherwise) and a `model` option
      (`unwrap`). */
  predicate Configurable(options: Util.OptionMap, env: map<string, string>)
  {
    ("api_key" in options || "OPENAI_API_KEY" in env) && "model" in options
  }

  function ApiKey(options: Util.OptionMap, env: map<string, string>): string
    requires Configurable(options, env)
  {
    Util.OptionOrEnv(options, "api_key", "OPENAI_API_KEY", env)
  }

  function BaseUrl(options: Util.OptionMap, env: map<string, string>): string
  {
    Util.OptionOrEnvFallback(options, "base_url", "OPENAI_BASE_URL", env, DefaultBaseUrl)
  }

  // ---------------------------------------------------------------------
  // Content

  /** The text of a content entry, if it is a text entry. */
  function TextOf(entry: Json): Option<string>
  {
    if Field(entry, "type") == Str("text") then AsStr(Field(entry, "text")) else None
  }

  /** The base64 payload of a content entry, if it is a PNG data URL. */
  function ImageOf(entry: Json): Option<string>
  {
    if Field(entry, "type") != Str("image_url") then None
    else match AsStr(Field(Field(entry, "image_url"), "url"))
      case Some(url) =>
        if |DataUrlPrefix| <= |url| && url[..|DataUrlPrefix|] == DataUrlPrefix
        then Some(url[|DataUrlPrefix|..]) else None
      case None => None
  }

  /** The entry `add_text_content` appends. */
  function TextContent(text: string): (r: Json)
    ensures TextOf(r) == Some(text) && ImageOf(r) == None
  {
    Obj(map["type" := Str("text"), "text" := Str(text)])
  }

  /** The entry `add_image_content` appends: the payload inside a data URL. */
  function ImageContent(base64Image: string): (r: Json)
    ensures ImageOf(r) == Some(base64Image) && TextOf(r) == None
  {
    var url := DataUrlPrefix + base64Image;
    assert url[..|DataUrlPrefix|] == DataUrlPrefix;
    assert url[|DataUrlPrefix|..] == base64Image;
    Obj(map["type" := Str("image_url"), "image_url" := Obj(map["url" := Str(url)])])
  }

  // ---------------------------------------------------------------------
  // Request

  /** Where a declaration carries a member of the tool's definition. */
  function Declared(declaration: Json, key: string): Json
  {
    Field(Field(declaration, "function"), key)
  }

  /** `openai_tool_definition`: a function declaration wrapping the name,
      description and parameters of the definition. */
  function ToolDefinition(definition: Json): (r: Json)
    ensures Field(r, "type") == Str("function")
    ensures forall key | key in {"name", "description", "parameters"} :: Declared(r, key) == Field(definition, key)
  {
    Obj(map["type" := Str("function"),
            "function" := Obj(map["name" := Field(definition, "name"),
                                  "description" := Field(definition, "description"),
                                  "parameters" := Field(definition, "parameters")])])
  }

  /** The content entries a request carries. */
  function SentContent(body: Json): Json
  {
    Field(Item(Field(body, "messages"), 0), "content")
  }

  /** The tool declarations a request carries. */
  function SentTools(body: Json): Json
  {
    Field(body, "tools")
  }

  /** The body `execute` posts: one user message holding the content in
      order, the declarations in order, a tool call required and no
      parallel calls. */
  function Body(model: string, content: seq<Json>, declarations: seq<Json>): (r: Json)
    ensures SentContent(r) == Arr(content) && SentTools(r) == Arr(declarations)
    ensures Field(r, "model") == Str(model)
    ensures Field(Item(Field(r, "messages"), 0), "role") == Str("user")
    ensures Field(r, "tool_choice") == Str("required")
    ensures Field(r, "parallel_tool_calls") == Bool(false)
  {
    Obj(map["model" := Str(model),
            "messages" := Arr([Obj(map["role" := Str("user"), "content" := Arr(content)])]),
            "tools" := Arr(declarations),
            "tool_choice" := Str("required"),
            "parallel_tool_calls" := Bool(false)])
  }

  /** The request: the chat completions endpoint under the base URL, with
      the key as a bearer token. */
  function Request(baseUrl: string, apiKey: string, body: Json): (r: Http.Request)
    ensures r.url == baseUrl + "/v1/chat/completions"
    ensures ("Authorization", "Bearer " + apiKey) in r.headers
    ensures r.body == body
  {
    Post(baseUrl + "/v1/chat/completions",
         [("Authorization", "Bearer " + apiKey), ("Content-Type", "application/json")],
         body)
  }

  // ---------------------------------------------------------------------
  // Reply

  /** `choices[0].message.tool_calls[0]`, with its function name and the
      arguments parsed from their JSON text; either `unwrap` failing is a
      panic. `parse` stands for `serde_json::from_str`. */
  function SelectCall(response: Json, parse: string -> Option<Json>): ToolCall
  {
    var calls := Field(Field(Item(Field(response, "choices"), 0), "message"), "tool_calls");
    match Get(calls, 0)
    case None => NoToolCall
    case Some(call) =>
      var fn := Field(call, "function");
      match (AsStr(Field(fn, "name")), AsStr(Field(fn, "arguments")))
      case (Some(name), Some(raw)) =>
        (match parse(raw)
         case Some(args) => Call(name, args)
         case None => Malformed)
      case _ => Malformed
  }

  /** A chat completion whose first choice calls tool `name` with the JSON
      text `arguments`. */
  function CallReply(name: string, arguments: string): Json
  {
    var fn := Obj(map["name" := Str(name), "arguments" := Str(arguments)]);
    var message := Obj(map["tool_calls" := Arr([Obj(map["function" := fn])])]);
    Obj(map["choices" := Arr([Obj(map["message" := message])])])
  }

  /** The reply's call is read back as sent, and a completion without tool
      calls reads as none. */
  lemma SelectCallReply(name: string, arguments: string, args: Json, parse: string -> Option<Json>)
    requires parse(arguments) == Some(args)
    ensures SelectCall(CallReply(name, arguments), parse) == Call(name, args)
    ensures SelectCall(Obj(map["choices" := Arr([Obj(map["message" := Obj(map[])])])]), parse) == NoToolCall
  {
  }
}
