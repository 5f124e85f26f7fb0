/** The tool runtime: which calls may run, and when they must be asked about first. */
module ToolRuntimes {
  import opened Protocol
  import opened Tools

  datatype ToolPermission = Allow | Ask

  datatype ToolApproval = Approved | DeniedBecause(reason: string) | ApprovalCancelled

  /** The registry maps a tool name to its compiled input schema. */
  type ToolRegistry = map<string, Json -> bool>

  datatype ToolRuntime = ToolRuntime(
    registry: ToolRegistry,
    permissions: map<string, ToolPermission>,
    hasApproval: bool)

  datatype RuntimeError = PermissionKeysMismatch | ApprovalHandlerRequired

  /** Construction insists on one permission per registered tool, and on a handler if any of them asks. */
  function NewRuntime(registry: ToolRegistry, permissions: map<string, ToolPermission>, hasApproval: bool)
    : Result<ToolRuntime, RuntimeError>
  {
    if registry.Keys != permissions.Keys then Err(PermissionKeysMismatch)
    else if (exists name | name in permissions :: permissions[name].Ask?) && !hasApproval then Err(ApprovalHandlerRequired)
    else Ok(ToolRuntime(registry, permissions, hasApproval))
  }

  predicate Constructed(runtime: ToolRuntime) {
    NewRuntime(runtime.registry, runtime.permissions, runtime.hasApproval).Ok?
  }

  datatype Gate = NotRegistered | InvalidInput | NotConfigured | NoHandler | MustAsk | MayRun

  /** The decisions made about a call before anybody is asked. */
  function GateOf(runtime: ToolRuntime, call: ToolCall): Gate {
    if call.name !in runtime.registry then NotRegistered
    else if !runtime.registry[call.name](call.input) then InvalidInput
    else if call.name !in runtime.permissions then NotConfigured
    else if runtime.permissions[call.name].Allow? then MayRun
    else if !runtime.hasApproval then NoHandler
    else MustAsk
  }

  predicate RegisteredAndValid(runtime: ToolRuntime, call: ToolCall) {
    call.name in runtime.registry && runtime.registry[call.name](call.input)
  }

  /** A runtime is constructed exactly with one permission per registered tool, and with a handler if any tool asks. */
  lemma ConstructedIff(registry: ToolRegistry, permissions: map<string, ToolPermission>, hasApproval: bool)
    ensures NewRuntime(registry, permissions, hasApproval).Ok? <==>
            && (forall name :: name in registry <==> name in permissions)
            && (hasApproval || forall name :: name in permissions ==> permissions[name].Allow?)
    ensures NewRuntime(registry, permissions, hasApproval).Ok? ==>
            NewRuntime(registry, permissions, hasApproval).value == ToolRuntime(registry, permissions, hasApproval)
  {
    if registry.Keys == permissions.Keys {
      assert forall name :: name in registry.Keys <==> name in permissions.Keys;
    }
    if forall name :: name in registry <==> name in permissions {
      assert registry.Keys == permissions.Keys;
    }
  }

  /** A constructed runtime never reaches the two denial fallbacks: a tool it knows runs on valid input if allowed, and is asked about otherwise. */
  lemma ConstructedRuntimeHasNoFallback(runtime: ToolRuntime, call: ToolCall)
    requires Constructed(runtime)
    ensures !GateOf(runtime, call).NotConfigured? && !GateOf(runtime, call).NoHandler?
    ensures GateOf(runtime, call).NotRegistered? <==> call.name !in runtime.registry
    ensures GateOf(runtime, call).InvalidInput? <==> call.name in runtime.registry && !runtime.registry[call.name](call.input)
    ensures GateOf(runtime, call).MayRun? <==>
              RegisteredAndValid(runtime, call) && call.name in runtime.permissions && runtime.permissions[call.name].Allow?
    ensures GateOf(runtime, call).MustAsk? <==>
              RegisteredAndValid(runtime, call) && call.name in runtime.permissions && runtime.permissions[call.name].Ask?
  {
    ConstructedIff(runtime.registry, runtime.permissions, runtime.hasApproval);
  }

  datatype ExecutionAnswer = Returned(result: ToolResult) | ExecutorFailed

  datatype ToolError = ExecutorError | IdentityMismatch | PipelineOwnedStatus | ApprovalHandlerFailed

  predicate ExecutorStatus(status: ToolResultStatus) {
    status.Succeeded? || status.Failed? || status.OutcomeUnknown?
  }

  /** A tool's answer counts only with the call's identity and a status an executor may report. */
  function CheckedResult(answer: ExecutionAnswer, call: ToolCall): Result<ToolResult, ToolError> {
    match answer
    case ExecutorFailed => Err(ExecutorError)
    case Returned(result) =>
      if !Answers(result, call) then Err(IdentityMismatch)
      else if !ExecutorStatus(result.status) then Err(PipelineOwnedStatus)
      else Ok(result)
  }

  datatype ToolCallOutcome =
    | Completed(result: ToolResult)
    | Abort(result: ToolResult, error: Option<ToolError>)
}
