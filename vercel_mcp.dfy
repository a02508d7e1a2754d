// The serverless MCP endpoint of api/mcp.py: the JSON-RPC dispatcher
// `handle_mcp_request` with its two tool branches, and the HTTP-verb router
// `handler`. Every external effect is an input: the result of
// `os.path.exists`, of writing the MusicXML file, and the Backends record.
module VercelMcp {
  import opened Wrappers
  import opened JsonValue
  import opened Text
  import opened JsonRpc
  import opened Services

  /** What `os.path.exists(path)` gave for an argument that nothing has type-checked. */
  datatype Probe = Present | Absent | ProbeRaised(error: string)

  datatype Env = Env(fileExists: Json -> Probe, scoreWrite: Outcome, backends: Backends)

  /** The envelope after validation: `MCPRequest` with `id: int`, `method: str`, `params: dict`. */
  datatype McpRequest = McpRequest(jsonrpc: string, id: int, rpcMethod: string, params: map<string, Json>)

  // ---------------------------------------------------------------------------
  // Validation of the envelope (MCPRequest(**request_data))

  /** The fields of MCPRequest have the declared types: `id` and `method` present, the others optional. */
  predicate WellTyped(m: map<string, Json>) {
    && "id" in m && m["id"].JInt?
    && "method" in m && m["method"].JStr?
    && ("jsonrpc" in m ==> m["jsonrpc"].JStr?)
    && ("params" in m ==> m["params"].JObj?)
  }

  /** The validation failures, one per failing field in declaration order, in pydantic's wording. */
  function FieldErrors(m: map<string, Json>): (errs: seq<string>)
    ensures errs == [] <==> WellTyped(m)
  {
    (if "jsonrpc" in m && !m["jsonrpc"].JStr? then ["jsonrpc\n  Input should be a valid string"] else [])
    + (if "id" !in m then ["id\n  Field required"]
       else if !m["id"].JInt? then ["id\n  Input should be a valid integer"] else [])
    + (if "method" !in m then ["method\n  Field required"]
       else if !m["method"].JStr? then ["method\n  Input should be a valid string"] else [])
    + (if "params" in m && !m["params"].JObj? then ["params\n  Input should be a valid dictionary"] else [])
  }

  /**
   * `MCPRequest(**request_data)`: `jsonrpc` defaults to "2.0" and `params` to
   * `{}`; `id` and `method` are required; keys the model does not declare are ignored.
   */
  function Validate(m: map<string, Json>): (r: Result<McpRequest, string>)
    ensures r.Ok? <==> WellTyped(m)
    ensures r.Ok? ==> JInt(r.value.id) == m["id"] && JStr(r.value.rpcMethod) == m["method"]
    ensures r.Ok? ==> JObj(r.value.params) == Get(m, "params", JObj(map[]))
    ensures r.Err? ==> StartsWith(r.error, NatToString(|FieldErrors(m)|))
  {
    var errs := FieldErrors(m);
    if errs != [] then
      var head := NatToString(|errs|) + (if |errs| == 1 then " validation error" else " validation errors");
      StartsWithConcat(NatToString(|errs|), (if |errs| == 1 then " validation error" else " validation errors")
                                             + " for MCPRequest\n" + JoinWith(errs, "\n"));
      Err(head + " for MCPRequest\n" + JoinWith(errs, "\n"))
    else
      Ok(McpRequest(
        if "jsonrpc" in m then m["jsonrpc"].s else "2.0",
        m["id"].i,
        m["method"].s,
        if "params" in m then m["params"].fields else map[]))
  }

  // ---------------------------------------------------------------------------
  // Static results

  const Initialize: string := "initialize"
  const ToolsList: string := "tools/list"
  const ToolsCall: string := "tools/call"
  const ResourcesList: string := "resources/list"
  const PromptsList: string := "prompts/list"

  const WavTool: string := "wav_to_music_score"
  const HummingTool: string := "generate_music_from_humming"

  const InitializeResult: Json :=
    JObj(map[
      "protocolVersion" := JStr("2024-11-05"),
      "capabilities" := JObj(map[
        "experimental" := JObj(map[]),
        "prompts" := JObj(map["listChanged" := JBool(false)]),
        "resources" := JObj(map["subscribe" := JBool(false), "listChanged" := JBool(false)]),
        "tools" := JObj(map["listChanged" := JBool(true)])]),
      "serverInfo" := JObj(map["name" := JStr("MusicToolkit MCP Server"), "version" := JStr("1.14.0")])])

  function Property(kind: string, description: string): Json {
    JObj(map["type" := JStr(kind), "description" := JStr(description)])
  }

  function Defaulted(kind: string, description: string, default: Json): Json {
    JObj(map["type" := JStr(kind), "description" := JStr(description), "default" := default])
  }

  function ToolDescriptor(name: string, description: string, properties: map<string, Json>, required: seq<Json>): (t: Json)
    ensures t.JObj? && "name" in t.fields && t.fields["name"] == JStr(name)
    ensures RequiredOf(t) == Some(JArr(required))
  {
    JObj(map[
      "name" := JStr(name),
      "description" := JStr(description),
      "inputSchema" := JObj(map[
        "type" := JStr("object"),
        "properties" := JObj(properties),
        "required" := JArr(required)])])
  }

  /** The "required" list of a tool descriptor, read back. */
  function RequiredOf(tool: Json): Option<Json> {
    if tool.JObj? && "inputSchema" in tool.fields && tool.fields["inputSchema"].JObj?
       && "required" in tool.fields["inputSchema"].fields
    then Some(tool.fields["inputSchema"].fields["required"])
    else None
  }

  const WavToolDescriptor: Json :=
    ToolDescriptor(WavTool,
      "Convert a WAV audio file to a MusicXML score and render it as an SVG image",
      map[
        "wav_file_path" := Property("string", "Path to the input WAV audio file"),
        "render_svg" := Defaulted("boolean", "Whether to render the score as SVG", JBool(true))],
      [JStr("wav_file_path")])

  const HummingToolDescriptor: Json :=
    ToolDescriptor(HummingTool,
      "Generate full music from a humming audio file using AI music generation",
      map[
        "humming_file_path" := Property("string", "Path to the humming audio file (.wav)"),
        "style_prompt" := Property("string", "Text prompt describing the desired music style"),
        "generate_score" := Defaulted("boolean", "Whether to also generate a music score from the result", JBool(false))],
      [JStr("humming_file_path"), JStr("style_prompt")])

  /** The `tools/list` result: the two tools `tools/call` accepts, and the arguments each requires. */
  const ToolsListResult: Json := JObj(map["tools" := JArr([WavToolDescriptor, HummingToolDescriptor])])

  /** `tools/list` names exactly the two tools `tools/call` accepts, each with the arguments it requires. */
  lemma ToolsListed()
    ensures var r := ToolsListResult;
            && r.JObj? && "tools" in r.fields && r.fields["tools"].JArr? && |r.fields["tools"].items| == 2
            && var tools := r.fields["tools"].items;
            && tools[0].JObj? && "name" in tools[0].fields && tools[0].fields["name"] == JStr(WavTool)
            && tools[1].JObj? && "name" in tools[1].fields && tools[1].fields["name"] == JStr(HummingTool)
            && RequiredOf(tools[0]) == Some(JArr([JStr("wav_file_path")]))
            && RequiredOf(tools[1]) == Some(JArr([JStr("humming_file_path"), JStr("style_prompt")]))
  {
  }

  const ResourcesListResult: Json :=
    JObj(map["resources" := JArr([JObj(map[
      "uri" := JStr("musictoolkit://output"),
      "name" := JStr("Generated Files"),
      "description" := JStr("List of generated music files and scores")])])])

  const PromptsListResult: Json :=
    JObj(map["prompts" := JArr([JObj(map[
      "name" := JStr("music_processing"),
      "description" := JStr("AI assistant for music processing and generation tasks")])])])

  // ---------------------------------------------------------------------------
  // The two tools

  /** wav_to_musicxml: writes a fixed placeholder document and returns its path. */
  function WavToMusicXml(now: string, write: Outcome): (r: Result<string, Exc>)
    ensures r.Ok? <==> write.Done?
    ensures r.Ok? ==> r.value == ScorePath(Serverless, now)
  {
    if write.Raised? then Err(write.error) else Ok(ScorePath(Serverless, now))
  }

  function WavSuccessLine(scorePath: string): (line: string)
    ensures StartsWith(line, CheckMark) && !IsFailureText(line)
  {
    var rest := " Successfully generated MusicXML score from WAV file\n" + Folder + " MusicXML file: " + scorePath;
    CheckMarkIsSuccess(rest);
    CheckMark + rest
  }

  /**
   * The line appended after rendering: the rendered text verbatim at its end,
   * introduced by ⚠️ when rendering failed and by 🎼 when it succeeded.
   */
  function RenderSuffix(html: string): (s: string)
    ensures |html| <= |s| && s[|s| - |html|..] == html
    ensures IsFailureText(html) ==> StartsWith(s, "\n" + Warning)
    ensures !IsFailureText(html) ==> StartsWith(s, "\n" + ScoreSign)
  {
    if IsFailureText(html) then
      var s := "\n" + Warning + " SVG rendering failed: " + html;
      StartsWithConcat("\n" + Warning, " SVG rendering failed: " + html);
      assert s == ("\n" + Warning) + (" SVG rendering failed: " + html);
      s
    else
      var s := "\n" + ScoreSign + " Score rendered successfully as SVG\n" + html;
      StartsWithConcat("\n" + ScoreSign, " Score rendered successfully as SVG\n" + html);
      assert s == ("\n" + ScoreSign) + (" Score rendered successfully as SVG\n" + html);
      s
  }

  /** The reply of a conversion that wrote its score: the ✅ line, then the rendering when asked for. */
  function WavSuccessText(scorePath: string, renderSvg: bool, html: string): (text: string)
    ensures StartsWith(text, WavSuccessLine(scorePath)) && !IsFailureText(text)
    ensures !renderSvg ==> text == WavSuccessLine(scorePath)
    ensures renderSvg ==> text == WavSuccessLine(scorePath) + RenderSuffix(html)
  {
    var line := WavSuccessLine(scorePath);
    var suffix := if renderSvg then RenderSuffix(html) else "";
    StartsWithConcat(line, suffix);
    assert (line + suffix)[0] == line[0];
    assert line[0] == CheckMark[0];
    NotFailureText(line + suffix);
    line + suffix
  }

  /** The text of the `wav_to_music_score` branch for a path that is present (truthy). */
  function WavToolText(path: Json, renderSvg: bool, env: Env): (text: string)
    ensures env.fileExists(path) == Absent ==> text == Cross + " WAV file not found: " + PyStr(path)
    ensures env.fileExists(path).ProbeRaised? ==>
              text == Cross + " Error converting WAV to music score: " + env.fileExists(path).error
    ensures env.fileExists(path) == Present && env.scoreWrite.Raised? ==>
              text == Cross + " Error converting WAV to music score: " + env.scoreWrite.error.msg
    ensures env.fileExists(path) == Present && env.scoreWrite.Done? ==>
              text == WavSuccessText(ScorePath(Serverless, env.backends.now), renderSvg,
                                     Render(env.backends.renderReply, env.backends.b64).text)
    ensures StartsWith(text, Cross) <==> !(env.fileExists(path) == Present && env.scoreWrite.Done?)
  {
    match env.fileExists(path)
    case ProbeRaised(e) =>
      CrossIsFailure(" Error converting WAV to music score: " + e);
      Cross + " Error converting WAV to music score: " + e
    case Absent =>
      CrossIsFailure(" WAV file not found: " + PyStr(path));
      Cross + " WAV file not found: " + PyStr(path)
    case Present =>
      match WavToMusicXml(env.backends.now, env.scoreWrite)
      case Err(e) =>
        CrossIsFailure(" Error converting WAV to music score: " + e.msg);
        Cross + " Error converting WAV to music score: " + e.msg
      case Ok(scorePath) =>
        WavSuccessText(scorePath, renderSvg, Render(env.backends.renderReply, env.backends.b64).text)
  }

  function HummingSuccessLine(audioPath: string, style: Json): (line: string)
    ensures StartsWith(line, CheckMark) && !IsFailureText(line)
  {
    var rest := " Successfully generated music from humming\n" + Folder + " Generated music file: " + audioPath
                + "\n" + MusicNote + " Style: " + PyStr(style);
    CheckMarkIsSuccess(rest);
    CheckMark + rest
  }

  const ScoreErrorLine: string := "\n" + Warning + " Score generation error: "
  const ScoreNamedLine: string := "\n" + ScoreSign + " Music score generated: "
  const ScoreRenderedLine: string := "\n" + ScoreSign + " Score rendered as SVG:\n"

  /**
   * The lines appended when a score is asked for: a ⚠️ line when writing it
   * raised; otherwise the 🎼 line naming it, followed by the rendering only
   * when rendering did not fail.
   */
  function ScoreSuffix(now: string, scoreWrite: Outcome, html: string): (s: string)
    ensures scoreWrite.Raised? ==> s == ScoreErrorLine + scoreWrite.error.msg
    ensures scoreWrite.Done? ==>
              var named := ScoreNamedLine + ScorePath(Serverless, now);
              && StartsWith(s, named)
              && (IsFailureText(html) ==> s == named)
              && (!IsFailureText(html) ==> |html| <= |s| && s[|s| - |html|..] == html)
  {
    match WavToMusicXml(now, scoreWrite)
    case Err(e) => ScoreErrorLine + e.msg
    case Ok(scorePath) =>
      var named := ScoreNamedLine + scorePath;
      var rendered := if !IsFailureText(html) then ScoreRenderedLine + html else "";
      StartsWithConcat(named, rendered);
      EndsWithConcat(ScoreRenderedLine, html);
      EndsWithConcat(named, rendered);
      named + rendered
  }

  /** The reply of a generation that produced audio: the ✅ lines, then the score lines when asked for. */
  function HummingSuccessText(audioPath: string, style: Json, generateScore: bool, now: string,
                              scoreWrite: Outcome, html: string): (text: string)
    ensures StartsWith(text, HummingSuccessLine(audioPath, style)) && !IsFailureText(text)
    ensures !generateScore ==> text == HummingSuccessLine(audioPath, style)
    ensures generateScore ==> text == HummingSuccessLine(audioPath, style) + ScoreSuffix(now, scoreWrite, html)
  {
    var line := HummingSuccessLine(audioPath, style);
    var suffix := if generateScore then ScoreSuffix(now, scoreWrite, html) else "";
    StartsWithConcat(line, suffix);
    assert (line + suffix)[0] == line[0];
    assert line[0] == CheckMark[0];
    NotFailureText(line + suffix);
    line + suffix
  }

  /** The text of the `generate_music_from_humming` branch once both arguments are present. */
  function HummingToolText(path: Json, style: Json, generateScore: bool, env: Env): (text: string)
    ensures env.fileExists(path) == Absent ==> text == Cross + " Humming file not found: " + PyStr(path)
    ensures env.fileExists(path).ProbeRaised? ==>
              text == Cross + " Error generating music from humming: " + env.fileExists(path).error
    ensures env.fileExists(path) == Present && env.backends.genDir.Raised? ==>
              text == Cross + " Error generating music from humming: " + env.backends.genDir.error.msg
    ensures env.fileExists(path) == Present ==>
              var b := env.backends;
              var gen := GenerateFromHum(Serverless, b.now, b.genDir, b.genReply, b.genWrite);
              && (gen.Ok? && StartsWith(gen.value.text, Cross) ==> text == gen.value.text)
              && (gen.Ok? && !StartsWith(gen.value.text, Cross) ==>
                    text == HummingSuccessText(gen.value.text, style, generateScore, b.now, env.scoreWrite,
                                               Render(b.renderReply, b.b64).text))
    ensures StartsWith(text, Cross) <==>
              !(env.fileExists(path) == Present && env.backends.genDir.Done?
                && env.backends.genReply.Replied? && env.backends.genReply.status == 200
                && env.backends.genWrite.Done?)
  {
    match env.fileExists(path)
    case ProbeRaised(e) =>
      CrossIsFailure(" Error generating music from humming: " + e);
      Cross + " Error generating music from humming: " + e
    case Absent =>
      CrossIsFailure(" Humming file not found: " + PyStr(path));
      Cross + " Humming file not found: " + PyStr(path)
    case Present =>
      var b := env.backends;
      GenerateFromHumOutcomes(Serverless, b.now, b.genDir, b.genReply, b.genWrite);
      match GenerateFromHum(Serverless, b.now, b.genDir, b.genReply, b.genWrite)
      case Err(e) =>
        CrossIsFailure(" Error generating music from humming: " + e.msg);
        Cross + " Error generating music from humming: " + e.msg
      case Ok(gen) =>
        if StartsWith(gen.text, Cross) then gen.text
        else
          var text := HummingSuccessText(gen.text, style, generateScore, b.now, env.scoreWrite,
                                         Render(b.renderReply, b.b64).text);
          assert !StartsWith(text, Cross);
          text
  }

  // ---------------------------------------------------------------------------
  // The dispatcher

  /** The `tools/call` branch. Reading `arguments` of a non-dict raises, which the outer handler reports. */
  function CallTool(params: map<string, Json>, env: Env): (p: Payload)
    ensures StandardCode(p)
  {
    var name := Get(params, "name", JNull);
    var arguments := Get(params, "arguments", JObj(map[]));
    if name == JStr(WavTool) then
      if !arguments.JObj? then Error(InternalError, "Internal error: " + NoGetMessage(arguments))
      else
        var path := Get(arguments.fields, "wav_file_path", JNull);
        var renderSvg := Get(arguments.fields, "render_svg", JBool(true));
        if !Truthy(path) then Error(InvalidParams, "Missing required parameter: wav_file_path")
        else Result(TextContent(WavToolText(path, Truthy(renderSvg), env)))
    else if name == JStr(HummingTool) then
      if !arguments.JObj? then Error(InternalError, "Internal error: " + NoGetMessage(arguments))
      else
        var path := Get(arguments.fields, "humming_file_path", JNull);
        var style := Get(arguments.fields, "style_prompt", JNull);
        var generateScore := Get(arguments.fields, "generate_score", JBool(false));
        if !Truthy(path) || !Truthy(style) then
          Error(InvalidParams, "Missing required parameters: humming_file_path and style_prompt")
        else Result(TextContent(HummingToolText(path, style, Truthy(generateScore), env)))
    else Error(MethodNotFound, "Unknown tool: " + PyStr(name))
  }

  /**
   * What `tools/call` answers: an unknown tool name is -32601, a known tool
   * with a missing (falsy) required argument is -32602, and otherwise the
   * tool's text as the one content block.
   */
  lemma CallToolCases(params: map<string, Json>, env: Env)
    ensures var name := Get(params, "name", JNull);
            name != JStr(WavTool) && name != JStr(HummingTool) ==>
              CallTool(params, env) == Error(MethodNotFound, "Unknown tool: " + PyStr(name))
    ensures var args := Get(params, "arguments", JObj(map[]));
            Get(params, "name", JNull) in {JStr(WavTool), JStr(HummingTool)} && !args.JObj? ==>
              CallTool(params, env) == Error(InternalError, "Internal error: " + NoGetMessage(args))
    ensures var args := Get(params, "arguments", JObj(map[]));
            Get(params, "name", JNull) == JStr(WavTool) && args.JObj? ==>
              var path := Get(args.fields, "wav_file_path", JNull);
              && (!Truthy(path) ==> CallTool(params, env) == Error(InvalidParams, "Missing required parameter: wav_file_path"))
              && (Truthy(path) ==>
                    CallTool(params, env) == Result(TextContent(WavToolText(path, Truthy(Get(args.fields, "render_svg", JBool(true))), env))))
    ensures var args := Get(params, "arguments", JObj(map[]));
            Get(params, "name", JNull) == JStr(HummingTool) && args.JObj? ==>
              var path := Get(args.fields, "humming_file_path", JNull);
              var style := Get(args.fields, "style_prompt", JNull);
              && (!Truthy(path) || !Truthy(style) ==>
                    CallTool(params, env) == Error(InvalidParams, "Missing required parameters: humming_file_path and style_prompt"))
              && (Truthy(path) && Truthy(style) ==>
                    CallTool(params, env) == Result(TextContent(HummingToolText(path, style,
                                              Truthy(Get(args.fields, "generate_score", JBool(false))), env))))
  {
  }

  const KnownMethods: set<string> := {Initialize, ToolsList, ToolsCall, ResourcesList, PromptsList}

  /** Dispatch of a validated envelope by its method name. */
  function Dispatch(req: McpRequest, env: Env): (p: Payload)
    ensures StandardCode(p)
    ensures req.rpcMethod !in KnownMethods ==> p == Error(MethodNotFound, "Method not found: " + req.rpcMethod)
    ensures p.Error? ==> req.rpcMethod == ToolsCall || req.rpcMethod !in KnownMethods
  {
    if req.rpcMethod == Initialize then Result(InitializeResult)
    else if req.rpcMethod == ToolsList then Result(ToolsListResult)
    else if req.rpcMethod == ToolsCall then CallTool(req.params, env)
    else if req.rpcMethod == ResourcesList then Result(ResourcesListResult)
    else if req.rpcMethod == PromptsList then Result(PromptsListResult)
    else Error(MethodNotFound, "Method not found: " + req.rpcMethod)
  }

  /** The result of each known method; only `tools/call` depends on the request's parameters. */
  lemma DispatchCases(req: McpRequest, env: Env)
    ensures req.rpcMethod == Initialize ==> Dispatch(req, env) == Result(InitializeResult)
    ensures req.rpcMethod == ToolsList ==> Dispatch(req, env) == Result(ToolsListResult)
    ensures req.rpcMethod == ToolsCall ==> Dispatch(req, env) == CallTool(req.params, env)
    ensures req.rpcMethod == ResourcesList ==> Dispatch(req, env) == Result(ResourcesListResult)
    ensures req.rpcMethod == PromptsList ==> Dispatch(req, env) == Result(PromptsListResult)
  {
  }

  /**
   * handle_mcp_request. A dict always gets exactly one envelope back; a
   * validated one carries its `id` unchanged, a rejected one the raw `id` or 0.
   * For any other JSON value the `.get` in the exception handler itself raises.
   */
  function HandleMcpRequest(data: Json, env: Env): (r: Handled)
    ensures r.Answered? <==> data.JObj?
    ensures !data.JObj? ==> r == Escaped(NoGetMessage(data))
    ensures r.Answered? ==> StandardCode(r.response.payload)
    ensures data.JObj? && Validate(data.fields).Err? ==>
              r == Answered(Response(Get(data.fields, "id", JInt(0)),
                                     Error(InternalError, "Internal error: " + Validate(data.fields).error)))
    ensures data.JObj? && Validate(data.fields).Ok? ==>
              r == Answered(Response(data.fields["id"], Dispatch(Validate(data.fields).value, env)))
  {
    if !data.JObj? then Escaped(NoGetMessage(data))
    else
      var v := Validate(data.fields);
      if v.Err? then Answered(Response(Get(data.fields, "id", JInt(0)), Error(InternalError, "Internal error: " + v.error)))
      else Answered(Response(JInt(v.value.id), Dispatch(v.value, env)))
  }

  /**
   * The wire form of a validated request's answer: version "2.0", the
   * request's own id, exactly one of "result" and "error", and a standard code.
   */
  lemma ValidatedEnvelope(m: map<string, Json>, env: Env)
    requires Validate(m).Ok?
    ensures var r := HandleMcpRequest(JObj(m), env);
            && r.Answered? && StandardCode(r.response.payload)
            && var j := ToJson(r.response);
            && j.fields["jsonrpc"] == JStr("2.0") && j.fields["id"] == m["id"]
            && ("result" in j.fields) != ("error" in j.fields)
  {
  }

  // ---------------------------------------------------------------------------
  // The HTTP entry point

  datatype HttpBody = EmptyBody | JsonBody(doc: Json)

  datatype HttpResult = HttpResult(status: int, headers: map<string, string>, body: HttpBody)

  /** What reading the POST body as JSON gave. */
  datatype RequestBody = ParsedJson(value: Json) | ParseFailed(error: string)

  /**
   * Where the POST body comes from: the request object's own `get_json()`, or
   * `json.loads(request.body)` when the object has no `get_json`.
   */
  datatype BodySource = FromGetJson(got: RequestBody) | FromRawBody(loaded: RequestBody)

  function BodyOf(src: BodySource): RequestBody {
    match src
    case FromGetJson(b) => b
    case FromRawBody(b) => b
  }

  const CorsHeaders: map<string, string> := map[
    "Access-Control-Allow-Origin" := "*",
    "Access-Control-Allow-Methods" := "GET, POST, OPTIONS",
    "Access-Control-Allow-Headers" := "Content-Type, Authorization"]

  const JsonHeaders: map<string, string> := map[
    "Content-Type" := "application/json",
    "Access-Control-Allow-Origin" := "*"]

  const ServerDescriptor: Json :=
    JObj(map[
      "name" := JStr("MusicToolkit MCP Server"),
      "version" := JStr("1.14.0"),
      "protocol" := JStr("MCP 2024-11-05"),
      "protocolVersion" := JStr("2024-11-05"),
      "tools" := JArr([JStr(WavTool), JStr(HummingTool)]),
      "status" := JStr("healthy"),
      "endpoints" := JObj(map[
        "mcp" := JStr("/api/mcp"),
        "tools" := JStr("/api/mcp/tools"),
        "resources" := JStr("/api/mcp/resources"),
        "prompts" := JStr("/api/mcp/prompts")])])

  /** The envelope of a POST whose handling raised. */
  function ServerErrorEnvelope(error: string): (j: Json)
    ensures FromJson(j) == Some(Response(JInt(0), Error(InternalError, "Internal server error: " + error)))
  {
    ToJsonRoundTrip(Response(JInt(0), Error(InternalError, "Internal server error: " + error)));
    ToJson(Response(JInt(0), Error(InternalError, "Internal server error: " + error)))
  }

  /** The POST branch: the dispatcher's envelope with 200, or the -32603 envelope with 500 when anything raised. */
  function PostReply(body: RequestBody, env: Env): (r: HttpResult)
    ensures r.status in {200, 500} && r.headers == JsonHeaders && r.body.JsonBody?
    ensures r.status == 200 <==> body.ParsedJson? && HandleMcpRequest(body.value, env).Answered?
    ensures r.status == 200 ==> r.body.doc == ToJson(HandleMcpRequest(body.value, env).response)
    ensures body.ParseFailed? ==> r.body.doc == ServerErrorEnvelope(body.error)
    ensures body.ParsedJson? && HandleMcpRequest(body.value, env).Escaped? ==>
              r.body.doc == ServerErrorEnvelope(HandleMcpRequest(body.value, env).error)
  {
    match body
    case ParseFailed(e) => HttpResult(500, JsonHeaders, JsonBody(ServerErrorEnvelope(e)))
    case ParsedJson(data) =>
      match HandleMcpRequest(data, env)
      case Answered(response) => HttpResult(200, JsonHeaders, JsonBody(ToJson(response)))
      case Escaped(e) => HttpResult(500, JsonHeaders, JsonBody(ServerErrorEnvelope(e)))
  }

  const MethodNotAllowed: Json := JObj(map["error" := JStr("Method not allowed")])

  /**
   * handler, with `json` the module-level import throughout: routes by HTTP
   * verb, answers every request, and only POST reaches the dispatcher.
   */
  function Handler(verb: string, src: BodySource, env: Env): (r: HttpResult)
    ensures r.status in {200, 405, 500}
    ensures verb == "OPTIONS" ==> r == HttpResult(200, CorsHeaders, EmptyBody)
    ensures verb == "GET" ==> r == HttpResult(200, JsonHeaders, JsonBody(ServerDescriptor))
    ensures verb == "POST" ==> r == PostReply(BodyOf(src), env)
    ensures r.status == 405 <==> verb !in {"OPTIONS", "GET", "POST"}
    ensures r.status == 405 ==> r == HttpResult(405, JsonHeaders, JsonBody(MethodNotAllowed))
  {
    if verb == "OPTIONS" then HttpResult(200, CorsHeaders, EmptyBody)
    else if verb == "GET" then HttpResult(200, JsonHeaders, JsonBody(ServerDescriptor))
    else if verb == "POST" then PostReply(BodyOf(src), env)
    else HttpResult(405, JsonHeaders, JsonBody(MethodNotAllowed))
  }

  /**
   * The message of the UnboundLocalError raised by reading `json` before the
   * local import has run, in the wording of Python 3.11 and later; earlier
   * versions say "local variable 'json' referenced before assignment".
   */
  const UnboundJson: string := "cannot access local variable 'json' where it is not associated with a value"

  /**
   * handler as the source has it: the `import json` inside the POST branch
   * makes `json` local to the whole function, so every `json.dumps` reached
   * before that import has run raises, and the exception leaves the handler
   * (Err). Only a POST read through `json.loads(request.body)` gets an answer.
   */
  function HandlerAsWritten(verb: string, src: BodySource, env: Env): (r: Result<HttpResult, string>)
    ensures r.Ok? <==> verb == "OPTIONS" || (verb == "POST" && src.FromRawBody?)
    ensures r.Ok? ==> r.value == Handler(verb, src, env)
    ensures r.Err? ==> r.error == UnboundJson
  {
    if verb == "OPTIONS" then Ok(HttpResult(200, CorsHeaders, EmptyBody))
    else if verb == "GET" then Err(UnboundJson)
    else if verb == "POST" then
      match src
      // json.dumps in the try raises; json.dumps in the except raises again
      case FromGetJson(_) => Err(UnboundJson)
      case FromRawBody(body) => Ok(PostReply(body, env))
    else Err(UnboundJson)
  }

  /** The server-information request that the handler is meant to answer with its descriptor raises instead. */
  lemma HandlerGetRaises(src: BodySource, env: Env)
    ensures HandlerAsWritten("GET", src, env) == Err(UnboundJson)
    ensures Handler("GET", src, env).status == 200
  {
  }
}
