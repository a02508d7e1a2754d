// The example client of example_usage.py: a request counter and an
// initialisation gate, one JSON-RPC envelope per request, and a scan of the
// server's output for the first JSON-RPC line. Running the server process and
// decoding JSON are inputs.
module ExampleClient {
  import opened Wrappers
  import opened JsonValue
  import opened Text

  /** What running the server on one request gave: an exception, or the process's standard output. */
  datatype Exchange = ExchangeRaised(error: string) | Exchanged(stdout: string)

  /**
   * `json.loads` of a line: a line that starts with `{` decodes to an object
   * or raises, so a decoder is a partial map from text to object fields.
   */
  type Decoder = string -> Option<map<string, Json>>

  const JsonRpcPrefix: string := "{\"jsonrpc\""
  const ProtocolVersion: string := "2024-11-05"

  /** The request object: protocol version, id, method, and `params or {}`. */
  function Envelope(id: nat, rpcMethod: string, params: Option<Json>): (j: Json)
    ensures j.JObj? && j.fields.Keys == {"jsonrpc", "id", "method", "params"}
    ensures j.fields["jsonrpc"] == JStr("2.0") && j.fields["id"] == JInt(id) && j.fields["method"] == JStr(rpcMethod)
    ensures params.Some? && Truthy(params.value) ==> j.fields["params"] == params.value
    ensures (params.None? || !Truthy(params.value)) ==> j.fields["params"] == JObj(map[])
  {
    var p := if params.Some? && Truthy(params.value) then params.value else JObj(map[]);
    JObj(map["jsonrpc" := JStr("2.0"), "id" := JInt(id), "method" := JStr(rpcMethod), "params" := p])
  }

  /** The first line that starts with `{"jsonrpc"`, if any. */
  function FirstJsonRpcLine(lines: seq<string>): (r: Option<nat>)
    ensures r.Some? ==> r.value < |lines| && StartsWith(lines[r.value], JsonRpcPrefix)
    ensures r.Some? ==> forall k :: 0 <= k < r.value ==> !StartsWith(lines[k], JsonRpcPrefix)
    ensures r.None? ==> forall k :: 0 <= k < |lines| ==> !StartsWith(lines[k], JsonRpcPrefix)
    decreases |lines|
  {
    if |lines| == 0 then None
    else if StartsWith(lines[0], JsonRpcPrefix) then Some(0)
    else
      match FirstJsonRpcLine(lines[1..])
      case None => None
      case Some(i) => Some(i + 1)
  }

  /**
   * What one exchange yields: the decoded first JSON-RPC line of the stripped
   * output; nothing when the process raised, no line matched, or that line
   * failed to decode (the later lines are not tried).
   */
  function ResponseOf(exchange: Exchange, decode: Decoder): Option<map<string, Json>> {
    match exchange
    case ExchangeRaised(_) => None
    case Exchanged(out) =>
      var lines := Split(Strip(out), '\n');
      match FirstJsonRpcLine(lines)
      case None => None
      case Some(i) => decode(lines[i])
  }

  /** The loop of `_send_request`: the index of the first line that starts with `{"jsonrpc"`, if any. */
  method FindResponseLine(lines: seq<string>) returns (r: Option<nat>)
    ensures r == FirstJsonRpcLine(lines)
  {
    var i := 0;
    while i < |lines|
      invariant 0 <= i <= |lines|
      invariant forall k :: 0 <= k < i ==> !StartsWith(lines[k], JsonRpcPrefix)
    {
      if StartsWith(lines[i], JsonRpcPrefix) {
        FirstLineIs(lines, i);
        return Some(i);
      }
      i := i + 1;
    }
    NoLine(lines);
    return None;
  }

  /** The scan of `_send_request`: the first line of the stripped output that starts with `{"jsonrpc"`, decoded. */
  method ReadResponse(exchange: Exchange, decode: Decoder) returns (response: Option<map<string, Json>>)
    ensures response == ResponseOf(exchange, decode)
  {
    if exchange.ExchangeRaised? {
      return None;
    }
    var lines := Split(Strip(exchange.stdout), '\n');
    var found := FindResponseLine(lines);
    match found
    case None => return None;
    case Some(i) => return decode(lines[i]);
  }

  /** The client; `sent` records the envelopes handed to the server so far. */
  class MusicToolkitMcpClient {
    var requestId: nat
    var initialized: bool
    ghost var sent: seq<Json>

    /** The counter is the number of requests sent, and the k-th request carries id k + 1. */
    ghost predicate Valid()
      reads this
    {
      && requestId == |sent|
      && forall k :: 0 <= k < |sent| ==> sent[k].JObj? && "id" in sent[k].fields && sent[k].fields["id"] == JInt(k + 1)
    }

    constructor()
      ensures Valid() && requestId == 0 && !initialized && sent == []
    {
      requestId := 0;
      initialized := false;
      sent := [];
    }

    /** `_send_request`: the counter goes up first, then the envelope is sent and the output scanned. */
    method SendRequest(rpcMethod: string, params: Option<Json>, server: Json -> Exchange, decode: Decoder)
      returns (response: Option<map<string, Json>>)
      requires Valid()
      modifies this
      ensures Valid() && initialized == old(initialized)
      ensures requestId == old(requestId) + 1
      ensures sent == old(sent) + [Envelope(requestId, rpcMethod, params)]
      ensures response == ResponseOf(server(Envelope(requestId, rpcMethod, params)), decode)
    {
      requestId := requestId + 1;
      var request := Envelope(requestId, rpcMethod, params);
      sent := sent + [request];
      response := ReadResponse(server(request), decode);
    }

    /** `initialize`: the gate opens only on a response holding "result", and never closes. */
    method Initialize(server: Json -> Exchange, decode: Decoder) returns (result: Option<Json>)
      requires Valid()
      modifies this
      ensures Valid()
      ensures requestId == old(requestId) + 1
      ensures sent == old(sent) + [Envelope(requestId, "initialize", Some(InitializeParams))]
      ensures var r := ResponseOf(server(Envelope(requestId, "initialize", Some(InitializeParams))), decode);
              && (r.Some? && "result" in r.value ==> initialized && result == Some(r.value["result"]))
              && (!(r.Some? && "result" in r.value) ==> initialized == old(initialized) && result == None)
    {
      var response := SendRequest("initialize", Some(InitializeParams), server, decode);
      if response.Some? && "result" in response.value {
        initialized := true;
        return Some(response.value["result"]);
      }
      return None;
    }

    /** `list_tools`: nothing is sent before initialisation. */
    method ListTools(server: Json -> Exchange, decode: Decoder) returns (response: Option<map<string, Json>>)
      requires Valid()
      modifies this
      ensures Valid() && initialized == old(initialized)
      ensures !old(initialized) ==> response == None && requestId == old(requestId) && sent == old(sent)
      ensures old(initialized) ==>
                && requestId == old(requestId) + 1
                && sent == old(sent) + [Envelope(requestId, "tools/list", None)]
                && response == ResponseOf(server(Envelope(requestId, "tools/list", None)), decode)
    {
      if !initialized {
        return None;
      }
      response := SendRequest("tools/list", None, server, decode);
    }

    /** `call_tool`: nothing is sent before initialisation; the params are exactly the name and the arguments. */
    method CallTool(toolName: string, arguments: Json, server: Json -> Exchange, decode: Decoder)
      returns (response: Option<map<string, Json>>)
      requires Valid()
      modifies this
      ensures Valid() && initialized == old(initialized)
      ensures !old(initialized) ==> response == None && requestId == old(requestId) && sent == old(sent)
      ensures old(initialized) ==>
                && requestId == old(requestId) + 1
                && sent == old(sent) + [Envelope(requestId, "tools/call", Some(ToolCallParams(toolName, arguments)))]
                && response == ResponseOf(server(Envelope(requestId, "tools/call", Some(ToolCallParams(toolName, arguments)))), decode)
    {
      if !initialized {
        return None;
      }
      response := SendRequest("tools/call", Some(ToolCallParams(toolName, arguments)), server, decode);
    }
  }

  const InitializeParams: Json := JObj(map[
    "protocolVersion" := JStr(ProtocolVersion),
    "capabilities" := JObj(map[]),
    "clientInfo" := JObj(map["name" := JStr("MusicToolkit Example Client"), "version" := JStr("1.0")])])

  /** The tools/call params: exactly the tool name and its arguments, which are never replaced by `{}`. */
  function ToolCallParams(toolName: string, arguments: Json): (p: Json)
    ensures p.JObj? && p.fields.Keys == {"name", "arguments"} && Truthy(p)
    ensures p.fields["name"] == JStr(toolName) && p.fields["arguments"] == arguments
  {
    var p := JObj(map["name" := JStr(toolName), "arguments" := arguments]);
    assert "name" in p.fields;
    p
  }

  /** The loop's early exit returns the line the scan specifies. */
  lemma {:induction false} FirstLineIs(lines: seq<string>, i: nat)
    requires i < |lines| && StartsWith(lines[i], JsonRpcPrefix)
    requires forall k :: 0 <= k < i ==> !StartsWith(lines[k], JsonRpcPrefix)
    ensures FirstJsonRpcLine(lines) == Some(i)
    decreases i
  {
    if i > 0 {
      assert !StartsWith(lines[0], JsonRpcPrefix);
      assert forall k :: 0 <= k < i - 1 ==> lines[1..][k] == lines[k + 1];
      FirstLineIs(lines[1..], i - 1);
    }
  }

  /** A scan that finds nothing matches the scan's specification. */
  lemma NoLine(lines: seq<string>)
    requires forall k :: 0 <= k < |lines| ==> !StartsWith(lines[k], JsonRpcPrefix)
    ensures FirstJsonRpcLine(lines) == None
  {
  }

  /** Sent requests carry pairwise different ids. */
  lemma IdsDistinct(c: MusicToolkitMcpClient, i: nat, j: nat)
    requires c.Valid() && i < j < |c.sent|
    ensures c.sent[i].fields["id"] != c.sent[j].fields["id"]
  {
  }
}
