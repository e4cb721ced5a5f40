/** The component operations of pkg/xrt/xrtcomponent.go: each builds one request
    and picks the send shape for it. */
module Components {
  import opened Errors
  import opened Options
  import opened Messages
  import opened Policy
  import opened Pipeline
  import opened Xrt

  const LuaTransformComponent: string := "lua"
  const ComponentConfigScript: string := "Script"

  const LuaScriptFailed: string := "failed to update the Lua script to Lua transform component"
  const DiscoverComponentsFailed: string := "failed to discover the xrt components"
  const UpdateComponentFailed: string := "failed to update the component"

  /** The request of `UpdateLuaScript`: an update of component "lua" whose config
      holds exactly the key "Script", mapped to the script. */
  function LuaScriptRequest(requestId: string, luaScript: string): (r: Request)
    ensures r.requestId == requestId && r.client == ClientName
    ensures r.operation.ComponentUpdate? && r.operation.component == LuaTransformComponent
    ensures r.operation.config.Keys == {ComponentConfigScript}
    ensures r.operation.config[ComponentConfigScript] == StringValue(luaScript)
  {
    NewComponentUpdateRequest(requestId, LuaTransformComponent, ClientName,
                              map[ComponentConfigScript := StringValue(luaScript)])
  }

  /** A command-shaped operation: the command send of `request`, with any failure
      given the operation's own message and the kind it had. */
  function CommandOperationRun(requestTopic: string, responseTimeout: Duration, clientOptions: Option<ClientOptions>,
                               env: Env, request: Request, failure: string): (r: Run<Outcome>)
    // without command options: a contract error before anything is published
    ensures !HasCommandOptions(clientOptions) ==>
              r.calls == [] && r.result.Fail? && Kind(r.result.error) == KindContractInvalid
    ensures var sent := ShapedRun(Command, requestTopic, responseTimeout, clientOptions, env, request.requestId, request);
            r.calls == sent.calls && (r.result.Pass? <==> sent.result.Pass?)
            && (r.result.Fail? ==> Kind(r.result.error) == Kind(sent.result.error) && r.result.error.message == failure)
    // published on the command topic, awaited for the response timeout
    ensures forall k :: 0 <= k < |r.calls| && r.calls[k].Publish? ==>
              r.calls[k].topic == clientOptions.value.command.value.commandTopic
              && env.marshal(request) == Ok(r.calls[k].data)
    ensures forall k :: 0 <= k < |r.calls| && r.calls[k].Fetch? ==> r.calls[k].budget == responseTimeout
  {
    var sent := ShapedRun(Command, requestTopic, responseTimeout, clientOptions, env, request.requestId, request);
    Run(Annotate(sent.result, failure), sent.calls)
  }

  /** `UpdateLuaScript`. */
  method UpdateLuaScript(c: Client, env: Env, requestId: string, luaScript: string) returns (err: Outcome)
    requires c.Valid()
    modifies c`trace
    ensures var run := CommandOperationRun(c.requestTopic, c.responseTimeout, c.clientOptions, env,
                                           LuaScriptRequest(requestId, luaScript), LuaScriptFailed);
            err == run.result && c.trace == old(c.trace) + run.calls
    ensures c.Valid()
  {
    var config := map[ComponentConfigScript := StringValue(luaScript)];
    var request := NewComponentUpdateRequest(requestId, LuaTransformComponent, ClientName, config);
    err := c.SendXrtCommandRequest(env, request.requestId, request);
    if err.Fail? {
      return Fail(NewCommonEdgeX(Kind(err.error), LuaScriptFailed, Some(err.error)));
    }
    return Pass;
  }

  /** The request of `UpdateComponent`: the caller's name and config, unchanged. */
  function ComponentUpdateRequest(requestId: string, name: string, config: map<string, Any>): (r: Request)
    ensures r.requestId == requestId && r.client == ClientName
    ensures r.operation == ComponentUpdate(name, config)
  {
    NewComponentUpdateRequest(requestId, name, ClientName, config)
  }

  /** `UpdateComponent`. */
  method UpdateComponent(c: Client, env: Env, requestId: string, name: string, config: map<string, Any>)
    returns (err: Outcome)
    requires c.Valid()
    modifies c`trace
    ensures var run := CommandOperationRun(c.requestTopic, c.responseTimeout, c.clientOptions, env,
                                           ComponentUpdateRequest(requestId, name, config), UpdateComponentFailed);
            err == run.result && c.trace == old(c.trace) + run.calls
    ensures c.Valid()
  {
    var request := NewComponentUpdateRequest(requestId, name, ClientName, config);
    err := c.SendXrtCommandRequest(env, request.requestId, request);
    if err.Fail? {
      return Fail(NewCommonEdgeX(Kind(err.error), UpdateComponentFailed, Some(err.error)));
    }
    return Pass;
  }

  /** What `DiscoverComponents` does and returns: a fan-in request on the request
      topic that collects replies for the caller's subscribe timeout. It needs no
      option group and does not depend on the response timeout. */
  function DiscoverComponentsRun(requestTopic: string, env: Env, requestId: string, category: string,
                                 subscribeTimeout: Duration): (r: Run<Result<seq<NodeReply>>>)
    ensures var request := NewComponentDiscoverRequest(requestId, ClientName, category);
            var sent := FanInRun(env, requestTopic, requestId, request, subscribeTimeout);
            r.calls == sent.calls
            && (r.result.Ok? <==> sent.result.Ok?)
            && (r.result.Ok? ==> r.result.value == sent.result.value)
            // on failure no list, and the error keeps its kind
            && (r.result.Err? ==> Kind(r.result.error) == Kind(sent.result.error)
                                  && r.result.error.message == DiscoverComponentsFailed)
    ensures forall k :: 0 <= k < |r.calls| && r.calls[k].Publish? ==> r.calls[k].topic == requestTopic
    ensures forall k :: 0 <= k < |r.calls| ==> !r.calls[k].Fetch?
    ensures forall k :: 0 <= k < |r.calls| && r.calls[k].Collect? ==> r.calls[k].budget == subscribeTimeout
  {
    var request := NewComponentDiscoverRequest(requestId, ClientName, category);
    var sent := FanInRun(env, requestTopic, request.requestId, request, subscribeTimeout);
    match sent.result
    case Err(e) => Run(Err(NewCommonEdgeX(Kind(e), DiscoverComponentsFailed, Some(e))), sent.calls)
    case Ok(replies) => Run(Ok(replies), sent.calls)
  }

  /** `DiscoverComponents`. */
  method DiscoverComponents(c: Client, env: Env, requestId: string, category: string, subscribeTimeout: Duration)
    returns (response: Result<seq<NodeReply>>)
    requires c.Valid()
    modifies c`trace
    ensures var run := DiscoverComponentsRun(c.requestTopic, env, requestId, category, subscribeTimeout);
            response == run.result && c.trace == old(c.trace) + run.calls
    ensures c.Valid()
  {
    var request := NewComponentDiscoverRequest(requestId, ClientName, category);
    var replies := c.SendXrtRequestWithSubTimeout(env, c.requestTopic, request.requestId, request, subscribeTimeout);
    if replies.Err? {
      return Err(NewCommonEdgeX(Kind(replies.error), DiscoverComponentsFailed, Some(replies.error)));
    }
    return replies;
  }
}
