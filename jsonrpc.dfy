// The JSON-RPC 2.0 response envelope both dispatchers emit, and the MCP shape
// of a tool result (a list holding one text content block).
module JsonRpc {
  import opened Wrappers
  import opened JsonValue

  /** Error codes from section 5.1 of the JSON-RPC 2.0 specification. */
  const MethodNotFound: int := -32601
  const InvalidParams: int := -32602
  const InternalError: int := -32603

  /** Exactly one of a result or an error, by construction. */
  datatype Payload = Result(value: Json) | Error(code: int, message: string)

  datatype Response = Response(id: Json, payload: Payload)

  /** What a dispatcher call does: return an envelope, or let an exception escape to its caller. */
  datatype Handled = Answered(response: Response) | Escaped(error: string)

  /** The three error codes are the only ones the dispatchers use. */
  predicate StandardCode(p: Payload) {
    p.Error? ==> p.code in {MethodNotFound, InvalidParams, InternalError}
  }

  function ErrorObject(code: int, message: string): Json {
    JObj(map["code" := JInt(code), "message" := JStr(message)])
  }

  /** The dict the dispatchers return, as it is serialised onto the wire. */
  function ToJson(r: Response): (j: Json)
    ensures j.JObj?
    ensures "jsonrpc" in j.fields && j.fields["jsonrpc"] == JStr("2.0")
    ensures "id" in j.fields && j.fields["id"] == r.id
    ensures ("result" in j.fields) != ("error" in j.fields)
    ensures "result" in j.fields <==> r.payload.Result?
    ensures j.fields.Keys <= {"jsonrpc", "id", "result", "error"}
  {
    match r.payload
    case Result(v) => JObj(map["jsonrpc" := JStr("2.0"), "id" := r.id, "result" := v])
    case Error(c, m) => JObj(map["jsonrpc" := JStr("2.0"), "id" := r.id, "error" := ErrorObject(c, m)])
  }

  /** Reads an envelope back: the partner of ToJson. */
  function FromJson(j: Json): Option<Response> {
    if !j.JObj? || "id" !in j.fields || Get(j.fields, "jsonrpc", JNull) != JStr("2.0") then None
    else if "result" in j.fields && "error" !in j.fields then
      Some(Response(j.fields["id"], Result(j.fields["result"])))
    else if "error" in j.fields && "result" !in j.fields then
      match j.fields["error"]
      case JObj(e) =>
        if "code" in e && e["code"].JInt? && "message" in e && e["message"].JStr?
        then Some(Response(j.fields["id"], Error(e["code"].i, e["message"].s)))
        else None
      case _ => None
    else None
  }

  lemma ToJsonRoundTrip(r: Response)
    ensures FromJson(ToJson(r)) == Some(r)
  {
  }

  /** `{"content": [{"type": "text", "text": t}]}`, the result of a tool call. */
  function TextContent(t: string): Json {
    JObj(map["content" := JArr([JObj(map["type" := JStr("text"), "text" := JStr(t)])])])
  }

  /** The text of a tool result that holds exactly one text block. */
  function SoleText(j: Json): (r: Option<string>)
    ensures r.Some? ==> j == TextContent(r.value)
  {
    if j.JObj? && j.fields.Keys == {"content"} && j.fields["content"].JArr?
       && |j.fields["content"].items| == 1
    then
      var block := j.fields["content"].items[0];
      if block.JObj? && block.fields.Keys == {"type", "text"}
         && block.fields["type"] == JStr("text") && block.fields["text"].JStr?
      then
        assert block.fields == map["type" := JStr("text"), "text" := block.fields["text"]];
        assert j.fields["content"].items == [block];
        assert j.fields == map["content" := j.fields["content"]];
        Some(block.fields["text"].s)
      else None
    else None
  }

  lemma SoleTextOfTextContent(t: string)
    ensures SoleText(TextContent(t)) == Some(t)
  {
  }
}
