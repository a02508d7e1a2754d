// The two serverless entry points, api/mcp.py and api/index.py, answer the
// same JSON-RPC requests differently where their error handling differs. Each
// pair of lemmas here feeds one request to both and states the two answers.
module Deployments {
  import opened JsonValue
  import opened JsonRpc
  import V = VercelMcp
  import I = IndexMcp

  function ToolCallRequest(id: int, name: string): Json {
    JObj(map["jsonrpc" := JStr("2.0"), "id" := JInt(id), "method" := JStr("tools/call"),
             "params" := JObj(map["name" := JStr(name)])])
  }

  const NoMethodRequest: Json := JObj(map["jsonrpc" := JStr("2.0"), "id" := JInt(1)])
  const NoIdRequest: Json := JObj(map["jsonrpc" := JStr("2.0"), "method" := JStr("tools/list")])

  /** An unknown tool name: api/mcp.py reports method-not-found (-32601) under the request's id. */
  lemma UnknownToolMcp(id: int, name: string, env: V.Env)
    requires name != V.WavTool && name != V.HummingTool
    ensures V.HandleMcpRequest(ToolCallRequest(id, name), env)
            == Answered(Response(JInt(id), Error(MethodNotFound, "Unknown tool: " + name)))
  {
    var data := ToolCallRequest(id, name);
    var params := map["name" := JStr(name)];
    assert V.WellTyped(data.fields);
    var req := V.Validate(data.fields).value;
    assert req.params == params && req.rpcMethod == V.ToolsCall;
    V.DispatchCases(req, env);
    V.CallToolCases(params, env);
    assert Get(params, "name", JNull) == JStr(name);
  }

  /** The same request: api/index.py raises inside its `try` and reports an internal error (-32603). */
  lemma UnknownToolIndex(id: int, name: string, env: I.IndexEnv)
    requires name != I.WavTool && name != I.HummingTool
    ensures I.HandleMcpRequest(ToolCallRequest(id, name), env)
            == Answered(Response(JInt(id), Error(InternalError, "Internal error: " + "Unknown tool: " + name)))
  {
    var params := map["name" := JStr(name)];
    assert Get(params, "name", JNull) == JStr(name);
  }

  /** A request without a method: api/mcp.py rejects it in validation (-32603). */
  lemma MissingMethodMcp(env: V.Env)
    ensures var r := V.HandleMcpRequest(NoMethodRequest, env);
            r.Answered? && r.response.id == JInt(1) && r.response.payload.Error?
            && r.response.payload.code == InternalError
  {
    assert !V.WellTyped(NoMethodRequest.fields);
  }

  /** The same request: api/index.py looks up `None` and reports method-not-found (-32601). */
  lemma MissingMethodIndex(env: I.IndexEnv)
    ensures I.HandleMcpRequest(NoMethodRequest, env)
            == Answered(Response(JInt(1), Error(MethodNotFound, "Method not found: None")))
  {
    assert Get(NoMethodRequest.fields, "method", JNull) == JNull;
  }

  /** A request without an id: api/mcp.py rejects it in validation, answering id 0 and -32603. */
  lemma MissingIdMcp(env: V.Env)
    ensures var r := V.HandleMcpRequest(NoIdRequest, env);
            r.Answered? && r.response.id == JInt(0) && r.response.payload.Error?
            && r.response.payload.code == InternalError
  {
    assert !V.WellTyped(NoIdRequest.fields);
    assert Get(NoIdRequest.fields, "id", JInt(0)) == JInt(0);
  }

  /** The same request: api/index.py serves it, under id 0. */
  lemma MissingIdIndex(env: I.IndexEnv)
    ensures I.HandleMcpRequest(NoIdRequest, env) == Answered(Response(JInt(0), Result(I.ToolsListResult)))
  {
    assert Get(NoIdRequest.fields, "method", JNull) == JStr("tools/list");
    assert Get(NoIdRequest.fields, "id", JInt(0)) == JInt(0);
  }
}
