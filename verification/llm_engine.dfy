/**
 * The LLM engines: the interface of `src/llm_engine/mod.rs` and its three
 * implementations, OpenAI, Google and Anthropic.
 *
 * The interface is a closed set of vendors, each carrying the settings its
 * engine keeps; every operation dispatches on the vendor. An engine holds
 * its registered tools and its content buffer. A tool's callback is a
 * caller's closure, known here by a handle: the model records which tool
 * was invoked with which arguments, not what the closure does.
 *
 * `execute` posts a request and reads the reply. The network is a
 * parameter, `send`, from the request to what came back; `parse` stands for
 * `serde_json::from_str`.
 */
module LlmEngine {
  import opened Common
  import opened Json
  import opened Http
  import OpenAI
  import Google
  import Anthropic
  import Util

  datatype Vendor =
    | OpenAIEngine(model: string, baseUrl: string, apiKey: string)
    | GoogleEngine(model: string, baseUrl: string, apiKey: string)
    | AnthropicEngine(model: string, apiKey: string)

  datatype Callback = Callback(handle: nat)

  datatype Tool = Tool(name: string, definition: Json, callback: Option<Callback>)

  datatype Engine = Engine(vendor: Vendor, tools: seq<Tool>, content: seq<Json>)

  /** The members of a tool definition every vendor declares. */
  const DefinitionKeys: set<string> := {"name", "description", "parameters"}

  // ---------------------------------------------------------------------
  // Construction

  /** `OpenAI::new`: key from the options or `OPENAI_API_KEY`, base URL
      from the options, `OPENAI_BASE_URL` or the public endpoint, and the
      model option; no tools and no content. */
  function NewOpenAI(options: Util.OptionMap, env: map<string, string>): (e: Engine)
    requires OpenAI.Configurable(options, env)
    ensures e.vendor.OpenAIEngine? && e.vendor.model == options["model"]
    ensures e.vendor.apiKey == (if "api_key" in options then options["api_key"] else env["OPENAI_API_KEY"])
    ensures "base_url" !in options && "OPENAI_BASE_URL" !in env ==> e.vendor.baseUrl == OpenAI.DefaultBaseUrl
    ensures e.tools == [] && e.content == []
  {
    Engine(OpenAIEngine(options["model"], OpenAI.BaseUrl(options, env), OpenAI.ApiKey(options, env)), [], [])
  }

  /** `Google::new`, the same with the Google variables and endpoint. */
  function NewGoogle(options: Util.OptionMap, env: map<string, string>): (e: Engine)
    requires Google.Configurable(options, env)
    ensures e.vendor.GoogleEngine? && e.vendor.model == options["model"]
    ensures e.vendor.apiKey == (if "api_key" in options then options["api_key"] else env["GOOGLE_API_KEY"])
    ensures "base_url" !in options && "GOOGLE_BASE_URL" !in env ==> e.vendor.baseUrl == Google.DefaultBaseUrl
    ensures e.tools == [] && e.content == []
  {
    Engine(GoogleEngine(options["model"], Google.BaseUrl(options, env), Google.ApiKey(options, env)), [], [])
  }

  /** `Anthropic::new(model)`: not the interface's constructor; the key
      comes from `ANTHROPIC_API_KEY` only. */
  function NewAnthropic(model: string, env: map<string, string>): (e: Engine)
    requires Anthropic.Configurable(env)
    ensures e.vendor == AnthropicEngine(model, env["ANTHROPIC_API_KEY"])
    ensures e.tools == [] && e.content == []
  {
    Engine(AnthropicEngine(model, Anthropic.ApiKey(env)), [], [])
  }

  // ---------------------------------------------------------------------
  // Tools and content

  /** `register_tool`: the tool goes at the end, with its callback. */
  function RegisterTool(e: Engine, name: string, definition: Json, callback: Callback): (r: Engine)
    ensures r.vendor == e.vendor && r.content == e.content
    ensures r.tools == e.tools + [Tool(name, definition, Some(callback))]
  {
    e.(tools := e.tools + [Tool(name, definition, Some(callback))])
  }

  /** `add_content`: the entry goes at the end. */
  function AddContent(e: Engine, entry: Json): (r: Engine)
    ensures r.vendor == e.vendor && r.tools == e.tools
    ensures r.content == e.content + [entry]
  {
    e.(content := e.content + [entry])
  }

  /** The text of a content entry in the vendor's shape. */
  function TextOf(v: Vendor, entry: Json): Option<string>
  {
    match v
    case OpenAIEngine(_, _, _) => OpenAI.TextOf(entry)
    case GoogleEngine(_, _, _) => Google.TextOf(entry)
    case AnthropicEngine(_, _) => Anthropic.TextOf(entry)
  }

  /** The image payload of a content entry in the vendor's shape. */
  function ImageOf(v: Vendor, entry: Json): Option<string>
  {
    match v
    case OpenAIEngine(_, _, _) => OpenAI.ImageOf(entry)
    case GoogleEngine(_, _, _) => Google.ImageOf(entry)
    case AnthropicEngine(_, _) => Anthropic.ImageOf(entry)
  }

  function TextContent(v: Vendor, text: string): (r: Json)
    ensures TextOf(v, r) == Some(text) && ImageOf(v, r) == None
  {
    match v
    case OpenAIEngine(_, _, _) => OpenAI.TextContent(text)
    case GoogleEngine(_, _, _) => Google.TextContent(text)
    case AnthropicEngine(_, _) => Anthropic.TextContent(text)
  }

  function ImageContent(v: Vendor, base64Image: string): (r: Json)
    ensures ImageOf(v, r) == Some(base64Image) && TextOf(v, r) == None
  {
    match v
    case OpenAIEngine(_, _, _) => OpenAI.ImageContent(base64Image)
    case GoogleEngine(_, _, _) => Google.ImageContent(base64Image)
    case AnthropicEngine(_, _) => Anthropic.ImageContent(base64Image)
  }

  /** `add_text_content`: the vendor's text entry at the end. */
  function AddTextContent(e: Engine, text: string): (r: Engine)
    ensures r.vendor == e.vendor && r.tools == e.tools
    ensures r.content == e.content + [TextContent(e.vendor, text)]
  {
    AddContent(e, TextContent(e.vendor, text))
  }

  /** `add_image_content`: the vendor's image entry at the end. */
  function AddImageContent(e: Engine, base64Image: string): (r: Engine)
    ensures r.vendor == e.vendor && r.tools == e.tools
    ensures r.content == e.content + [ImageContent(e.vendor, base64Image)]
  {
    AddContent(e, ImageContent(e.vendor, base64Image))
  }

  /** `clear_content`: no content left, the tools kept. */
  function ClearContent(e: Engine): (r: Engine)
    ensures r.vendor == e.vendor && r.tools == e.tools && r.content == []
  {
    e.(content := [])
  }

  // ---------------------------------------------------------------------
  // Request

  /** Where a vendor's declaration carries a member of the definition. */
  function Declared(v: Vendor, declaration: Json, key: string): Json
  {
    match v
    case OpenAIEngine(_, _, _) => OpenAI.Declared(declaration, key)
    case GoogleEngine(_, _, _) => Google.Declared(declaration, key)
    case AnthropicEngine(_, _) => Anthropic.Declared(declaration, key)
  }

  /** The vendor's `*_tool_definition`. */
  function Declaration(v: Vendor, definition: Json): (r: Json)
    ensures forall key | key in DefinitionKeys :: Declared(v, r, key) == Field(definition, key)
  {
    match v
    case OpenAIEngine(_, _, _) => OpenAI.ToolDefinition(definition)
    case GoogleEngine(_, _, _) => Google.ToolDefinition(definition)
    case AnthropicEngine(_, _) => Anthropic.ToolDefinition(definition)
  }

  /** One declaration per tool, in registration order. */
  function Declarations(v: Vendor, tools: seq<Tool>): (r: seq<Json>)
    ensures |r| == |tools|
    ensures forall i, key | 0 <= i < |r| && key in DefinitionKeys :: Declared(v, r[i], key) == Field(tools[i].definition, key)
  {
    seq(|tools|, i requires 0 <= i < |tools| => Declaration(v, tools[i].definition))
  }

  /** The content a vendor's request body carries. */
  function SentContent(v: Vendor, body: Json): Json
  {
    match v
    case OpenAIEngine(_, _, _) => OpenAI.SentContent(body)
    case GoogleEngine(_, _, _) => Google.SentContent(body)
    case AnthropicEngine(_, _) => Anthropic.SentContent(body)
  }

  /** The declarations a vendor's request body carries. */
  function SentTools(v: Vendor, body: Json): Json
  {
    match v
    case OpenAIEngine(_, _, _) => OpenAI.SentTools(body)
    case GoogleEngine(_, _, _) => Google.SentTools(body)
    case AnthropicEngine(_, _) => Anthropic.SentTools(body)
  }

  /** The request `execute` posts: the content in insertion order and the
      tools' declarations in registration order, each declaring its tool's
      name; the Anthropic body names its fixed model, never the engine's. */
  function RequestOf(e: Engine): (r: Request)
    ensures SentContent(e.vendor, r.body) == Arr(e.content)
    ensures SentTools(e.vendor, r.body) == Arr(Declarations(e.vendor, e.tools))
    ensures e.vendor.AnthropicEngine? ==> Field(r.body, "model") == Str(Anthropic.Model)
  {
    var declarations := Declarations(e.vendor, e.tools);
    match e.vendor
    case OpenAIEngine(model, baseUrl, apiKey) =>
      OpenAI.Request(baseUrl, apiKey, OpenAI.Body(model, e.content, declarations))
    case GoogleEngine(model, baseUrl, apiKey) =>
      Google.Request(baseUrl, model, apiKey, Google.Body(e.content, declarations))
    case AnthropicEngine(_, apiKey) =>
      Anthropic.Request(apiKey, Anthropic.Body(e.content, declarations))
  }

  // ---------------------------------------------------------------------
  // Execution

  /** A callback invoked with its arguments; `tool` is the tool's index. */
  datatype Invocation = Invoked(tool: nat, args: Json)

  /** `Ok(())`, an `Err`, or a panic. */
  datatype Outcome = Done | Failed(error: EngineError) | Panicked

  datatype Execution = Execution(outcome: Outcome, calls: seq<Invocation>)

  /** The HTTP step of the vendor. */
  function Receive(v: Vendor, reply: HttpResult): Receipt
  {
    if v.AnthropicEngine? then ReceiveUnwrapped(reply) else ReceiveChecked(reply)
  }

  /** The first tool call of a vendor's reply. */
  function SelectCall(v: Vendor, response: Json, parse: string -> Option<Json>): ToolCall
  {
    match v
    case OpenAIEngine(_, _, _) => OpenAI.SelectCall(response, parse)
    case GoogleEngine(_, _, _) => Google.SelectCall(response)
    case AnthropicEngine(_, _) => Anthropic.SelectCall(response)
  }

  /** `tools.iter_mut().find(|tool| tool.name == name)`: the first tool
      with that name. */
  function FindTool(tools: seq<Tool>, name: string): (r: Option<nat>)
    ensures r.Some? ==> r.value < |tools| && tools[r.value].name == name
    ensures r.Some? ==> forall j :: 0 <= j < r.value ==> tools[j].name != name
    ensures r.None? <==> forall j :: 0 <= j < |tools| ==> tools[j].name != name
  {
    if |tools| == 0 then None
    else if tools[0].name == name then Some(0)
    else match FindTool(tools[1..], name)
      case None => None
      case Some(i) => Some(i + 1)
  }

  /** The dispatch shared by all vendors: the first tool named by the call
      has its callback invoked once with the call's arguments; no call, an
      unknown name or a missing callback is an error and invokes nothing. */
  function Dispatch(tools: seq<Tool>, call: ToolCall): (x: Execution)
    ensures call.NoToolCall? ==> x == Execution(Failed(NoToolCalls), [])
    ensures call.Malformed? ==> x == Execution(Panicked, [])
    ensures call.Call? ==>
              (x.outcome == Failed(NoToolNamed(call.name)) <==> forall j :: 0 <= j < |tools| ==> tools[j].name != call.name)
    ensures x.outcome.Done? ==>
              call.Call? && |x.calls| == 1 && x.calls[0].args == call.args && x.calls[0].tool < |tools| &&
              tools[x.calls[0].tool].name == call.name && tools[x.calls[0].tool].callback.Some? &&
              forall j :: 0 <= j < x.calls[0].tool ==> tools[j].name != call.name
    ensures !x.outcome.Done? ==> x.calls == []
  {
    match call
    case NoToolCall => Execution(Failed(NoToolCalls), [])
    case Malformed => Execution(Panicked, [])
    case Call(name, args) =>
      match FindTool(tools, name)
      case None => Execution(Failed(NoToolNamed(name)), [])
      case Some(i) =>
        if tools[i].callback.Some? then Execution(Done, [Invoked(i, args)])
        else Execution(Failed(NoCallback(name)), [])
  }

  /** What `execute` does with the reply to its request: read it, then
      dispatch its first tool call. At most one callback runs, and only on
      success; an HTTP failure is returned or, for Anthropic, panics, before
      any callback. */
  function Respond(v: Vendor, tools: seq<Tool>, reply: HttpResult, parse: string -> Option<Json>): (x: Execution)
    ensures |x.calls| <= 1 && (x.calls != [] <==> x.outcome.Done?)
    ensures Receive(v, reply).Refused? ==> x == Execution(Failed(Receive(v, reply).error), [])
    ensures Receive(v, reply).Crashed? ==> x == Execution(Panicked, [])
    ensures Receive(v, reply).Received? ==> x == Dispatch(tools, SelectCall(v, Receive(v, reply).json, parse))
  {
    match Receive(v, reply)
    case Refused(error) => Execution(Failed(error), [])
    case Crashed => Execution(Panicked, [])
    case Received(json) => Dispatch(tools, SelectCall(v, json, parse))
  }

  /** `execute`: post the engine's request and respond to what comes back;
      the engine itself is left as it was. */
  function Execute(e: Engine, send: Request -> HttpResult, parse: string -> Option<Json>): (x: Execution)
    ensures |x.calls| <= 1 && (x.calls != [] <==> x.outcome.Done?)
    ensures x.calls != [] ==> x.calls[0].tool < |e.tools| && e.tools[x.calls[0].tool].callback.Some?
  {
    Respond(e.vendor, e.tools, send(RequestOf(e)), parse)
  }

  // ---------------------------------------------------------------------
  // Properties

  /** Every tool has a callback. */
  predicate Registered(tools: seq<Tool>)
  {
    forall i :: 0 <= i < |tools| ==> tools[i].callback.Some?
  }

  /** Every tool ever registered has a callback: the constructors start
      with none, `register_tool` always stores one, and the content
      operations leave the tools alone. */
  lemma RegisteredKept(e: Engine, name: string, definition: Json, callback: Callback, entry: Json)
    requires Registered(e.tools)
    ensures Registered(RegisterTool(e, name, definition, callback).tools)
    ensures Registered(AddContent(e, entry).tools) && Registered(ClearContent(e).tools)
  {
  }

  /** Hence the "No callback registered" error never happens. */
  lemma NoCallbackUnreachable(v: Vendor, tools: seq<Tool>, reply: HttpResult, parse: string -> Option<Json>)
    requires Registered(tools)
    ensures !Respond(v, tools, reply, parse).outcome.Failed? || !Respond(v, tools, reply, parse).outcome.error.NoCallback?
  {
  }

  /** A tool registered under a name already taken is never invoked: the
      lookup keeps finding the earlier one. */
  lemma RegisterShadowed(e: Engine, name: string, definition: Json, callback: Callback, lookup: string)
    ensures var found := FindTool(RegisterTool(e, name, definition, callback).tools, lookup);
            if FindTool(e.tools, lookup).Some? then found == FindTool(e.tools, lookup)
            else if lookup == name then found == Some(|e.tools|)
            else found.None?
  {
    var tools := RegisterTool(e, name, definition, callback).tools;
    assert forall j :: 0 <= j < |e.tools| ==> tools[j] == e.tools[j];
    match FindTool(e.tools, lookup)
    case Some(i) => FirstNamed(tools, lookup, i);
    case None =>
      if lookup == name {
        FirstNamed(tools, lookup, |e.tools|);
      }
  }

  /** The first tool with a name is the one the lookup finds. */
  lemma FirstNamed(tools: seq<Tool>, name: string, i: nat)
    requires i < |tools| && tools[i].name == name
    requires forall j :: 0 <= j < i ==> tools[j].name != name
    ensures FindTool(tools, name) == Some(i)
  {
  }

  /** A transport failure is an `OTHER API ERROR` for OpenAI and Google and
      a panic for Anthropic; a status error is an `API ERROR` for the first
      two once its body is read, and a panic for the third. */
  lemma HttpFailures(v: Vendor, tools: seq<Tool>, code: int, body: Json, parse: string -> Option<Json>)
    ensures Respond(v, tools, TransportError, parse) ==
            Execution(if v.AnthropicEngine? then Panicked else Failed(OtherApiError), [])
    ensures Respond(v, tools, StatusError(code, Some(body)), parse) ==
            Execution(if v.AnthropicEngine? then Panicked else Failed(ApiError), [])
    ensures Respond(v, tools, StatusError(code, None), parse) ==
            Execution(if v.AnthropicEngine? then Panicked else Failed(UnreadableErrorBody), [])
  {
  }

  /** A reply in the vendor's shape naming a tool, with `arguments` the
      text OpenAI sends in place of the arguments. */
  function CallReply(v: Vendor, name: string, args: Json, arguments: string): Json
  {
    match v
    case OpenAIEngine(_, _, _) => OpenAI.CallReply(name, arguments)
    case GoogleEngine(_, _, _) => Google.CallReply(name, args)
    case AnthropicEngine(_, _) => Anthropic.CallReply(name, args)
  }

  /** Every vendor reads its own call reply back as the call. */
  lemma CallReplySelected(v: Vendor, name: string, args: Json, arguments: string, parse: string -> Option<Json>)
    requires parse(arguments) == Some(args)
    ensures SelectCall(v, CallReply(v, name, args, arguments), parse) == Call(name, args)
  {
    match v
    case OpenAIEngine(_, _, _) => OpenAI.SelectCallReply(name, arguments, args, parse);
    case GoogleEngine(_, _, _) => Google.SelectCallReply(name, args);
    case AnthropicEngine(_, _) => Anthropic.SelectCallReply(name, args);
  }

  /** For every vendor: when the reply calls a registered tool, the first
      tool with that name, and no other, is invoked exactly once with the
      call's arguments. */
  lemma ReplyInvokesFirstNamed(v: Vendor, tools: seq<Tool>, name: string, args: Json, arguments: string,
                               parse: string -> Option<Json>)
    requires Registered(tools)
    requires parse(arguments) == Some(args)
    requires exists i :: 0 <= i < |tools| && tools[i].name == name
    ensures Respond(v, tools, Answered(Some(CallReply(v, name, args, arguments))), parse) ==
            Execution(Done, [Invoked(FindTool(tools, name).value, args)])
  {
    CallReplySelected(v, name, args, arguments, parse);
    assert Receive(v, Answered(Some(CallReply(v, name, args, arguments)))) == Received(CallReply(v, name, args, arguments));
  }

  // ---------------------------------------------------------------------
  // Content history

  /** A content operation of the interface. */
  datatype ContentCall = AddText(text: string) | AddImage(base64Image: string) | ClearAll

  function Apply(e: Engine, call: ContentCall): Engine
  {
    match call
    case AddText(text) => AddTextContent(e, text)
    case AddImage(image) => AddImageContent(e, image)
    case ClearAll => ClearContent(e)
  }

  /** The engine after the calls, in order. */
  function ApplyAll(e: Engine, calls: seq<ContentCall>): Engine
  {
    if |calls| == 0 then e else Apply(ApplyAll(e, calls[..|calls| - 1]), calls[|calls| - 1])
  }

  /** The additions made after the last clear. */
  function SinceClear(calls: seq<ContentCall>): (r: seq<ContentCall>)
    ensures ClearAll !in r
  {
    if |calls| == 0 then []
    else if calls[|calls| - 1] == ClearAll then []
    else SinceClear(calls[..|calls| - 1]) + [calls[|calls| - 1]]
  }

  /** The addition a content entry reads back as in the vendor's shape. */
  function Decode(v: Vendor, entry: Json): Option<ContentCall>
  {
    match TextOf(v, entry)
    case Some(text) => Some(AddText(text))
    case None =>
      match ImageOf(v, entry)
      case Some(image) => Some(AddImage(image))
      case None => None
  }

  /** The entry an addition appends in the vendor's shape; a clear appends
      nothing, and `Null` stands in for it. */
  function Entry(v: Vendor): ContentCall -> Json
  {
    (call: ContentCall) =>
      match call
      case AddText(text) => TextContent(v, text)
      case AddImage(image) => ImageContent(v, image)
      case ClearAll => Null
  }

  /** The buffer after the calls, starting from `content`, where each
      addition appends its `entry`. */
  function ContentAfter<J>(content: seq<J>, calls: seq<ContentCall>, entry: ContentCall -> J): seq<J>
  {
    if |calls| == 0 then content
    else
      var before := ContentAfter(content, calls[..|calls| - 1], entry);
      var last := calls[|calls| - 1];
      if last == ClearAll then [] else before + [entry(last)]
  }

  /** The entries of a run of additions, in order. */
  function Entries<J>(additions: seq<ContentCall>, entry: ContentCall -> J): (r: seq<J>)
    ensures |r| == |additions|
  {
    if |additions| == 0 then [] else Entries(additions[..|additions| - 1], entry) + [entry(additions[|additions| - 1])]
  }

  /** One content operation: a clear empties the buffer, an addition
      appends its entry; the tools never change. */
  lemma ApplyOne(e: Engine, call: ContentCall)
    ensures Apply(e, call) == e.(content := if call == ClearAll then [] else e.content + [Entry(e.vendor)(call)])
  {
  }

  /** The interface's content operations change the content buffer only,
      as `ContentAfter` describes. */
  lemma {:induction false} ApplyAllContent(e: Engine, calls: seq<ContentCall>)
    ensures ApplyAll(e, calls) == e.(content := ContentAfter(e.content, calls, Entry(e.vendor)))
  {
    if |calls| > 0 {
      var init := calls[..|calls| - 1];
      ApplyAllContent(e, init);
      ApplyOne(ApplyAll(e, init), calls[|calls| - 1]);
    }
  }

  /** After any sequence of content operations the buffer holds the
      entries from before only if no clear happened, followed by the
      entries of the additions since the last clear, in order. */
  lemma {:induction false} BufferHistory<J>(content: seq<J>, calls: seq<ContentCall>, entry: ContentCall -> J)
    ensures ContentAfter(content, calls, entry) ==
            (if ClearAll in calls then [] else content) + Entries(SinceClear(calls), entry)
  {
    if |calls| > 0 {
      var init := calls[..|calls| - 1];
      var last := calls[|calls| - 1];
      BufferHistory(content, init, entry);
      assert calls == init + [last];
      assert ClearAll in calls <==> ClearAll in init || last == ClearAll;
      if last != ClearAll {
        var since0 := SinceClear(init);
        assert SinceClear(calls) == since0 + [last];
        assert (since0 + [last])[..|since0|] == since0;
      }
    }
  }

  /** Each entry of a run of additions reads back as its addition, for
      any reading that undoes `entry`. */
  lemma {:induction false} EntriesRead<J>(additions: seq<ContentCall>, entry: ContentCall -> J, readBack: J -> Option<ContentCall>)
    requires ClearAll !in additions
    requires forall c :: c != ClearAll ==> readBack(entry(c)) == Some(c)
    ensures forall i :: 0 <= i < |additions| ==> readBack(Entries(additions, entry)[i]) == Some(additions[i])
  {
    if |additions| > 0 {
      var init := additions[..|additions| - 1];
      assert ClearAll !in init by { assert forall c :: c in init ==> c in additions; }
      EntriesRead(init, entry, readBack);
    }
  }

  /** The buffer after any sequence of content operations, for any reading
      that undoes `entry`: the earlier content if there was no clear, then
      one entry per addition since the last clear, reading back as it. */
  lemma HistoryRead<J>(content: seq<J>, calls: seq<ContentCall>, entry: ContentCall -> J, readBack: J -> Option<ContentCall>)
    requires forall c :: c != ClearAll ==> readBack(entry(c)) == Some(c)
    ensures var after := ContentAfter(content, calls, entry);
            var since := SinceClear(calls);
            var kept := if ClearAll in calls then [] else content;
            |after| == |kept| + |since| && after[..|kept|] == kept &&
            forall i :: 0 <= i < |since| ==> readBack(after[|kept| + i]) == Some(since[i])
  {
    var after := ContentAfter(content, calls, entry);
    var since := SinceClear(calls);
    var kept := if ClearAll in calls then [] else content;
    BufferHistory(content, calls, entry);
    EntriesRead(since, entry, readBack);
    ConcatParts(kept, Entries(since, entry), after);
  }

  lemma ConcatParts<J>(a: seq<J>, b: seq<J>, c: seq<J>)
    requires c == a + b
    ensures |c| == |a| + |b| && c[..|a|] == a
    ensures forall i :: 0 <= i < |b| ==> c[|a| + i] == b[i]
  {
  }

  /** In every vendor's shape, an addition's entry reads back as it. */
  lemma EntryDecodes(v: Vendor)
    ensures forall c :: c != ClearAll ==> Decode(v, Entry(v)(c)) == Some(c)
  {
    forall c | c != ClearAll
      ensures Decode(v, Entry(v)(c)) == Some(c)
    {
      match c
      case AddText(text) => assert Decode(v, TextContent(v, text)) == Some(c);
      case AddImage(image) => assert Decode(v, ImageContent(v, image)) == Some(c);
    }
  }

  /** So after any sequence of content operations the buffer, which the
      next request carries, holds the earlier content if there was no
      clear, then one entry per addition since the last clear, each
      reading back as that addition (the operations themselves follow
      `ContentAfter`, by `ApplyAllContent`). */
  lemma ContentHistory(v: Vendor, content: seq<Json>, calls: seq<ContentCall>)
    ensures var after := ContentAfter(content, calls, Entry(v));
            var since := SinceClear(calls);
            var kept := if ClearAll in calls then [] else content;
            |after| == |kept| + |since| && after[..|kept|] == kept &&
            forall i :: 0 <= i < |since| ==> Decode(v, after[|kept| + i]) == Some(since[i])
  {
    var readBack := (j: Json) => Decode(v, j);
    EntryDecodes(v);
    HistoryRead(content, calls, Entry(v), readBack);
  }
}
