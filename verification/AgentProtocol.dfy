/** Decisions, tools and runs (src/protocols.py), and the tool registry (src/tools/registry.py). */
module AgentProtocol {
  import opened Prelude
  import opened Json

  datatype DecisionType = Respond | AskUser | CallTool | Handoff | Finish

  datatype Decision = Decision(kind: DecisionType, route: string, tool: Option<string>, args: Object,
                               evidenceIds: seq<string>, response: Option<string>)

  datatype StepStatus = Continue | WaitUser | WaitHuman | Complete | Fail

  datatype RunStatus = Created | Routing | RunningReadonly | RunningWorkflow | WaitingUser | WaitingConfirmation
                     | Committing | Verifying | WaitingHuman | Completed | Failed | Cancelled | Expired

  datatype RunContext = RunContext(status: RunStatus, state: Object, stepCount: nat)

  datatype ToolRisk = ReadOnly | Prepare | LowWrite | Commit

  datatype ToolSpec = ToolSpec(name: string, version: string, inputSchema: Object, risk: ToolRisk,
                               requiredScopes: set<string>, modelVisible: bool,
                               allowedWorkflows: set<string>, allowedSteps: set<string>)

  /** `workflow` is the "id@version" label when both parts are known. */
  datatype ToolContext = ToolContext(scopes: set<string>, workflow: Option<string>, currentStep: Option<string>)

  type Registry = map<(string, string), ToolSpec>

  /** How ToolRegistry.__init__ files its specs. */
  predicate WellFiled(registry: Registry) {
    forall key :: key in registry ==> registry[key].name == key.0 && registry[key].version == key.1
  }

  datatype RegistryError = UnknownTool | NotModelVisible | WrongWorkflow | WrongStep | ScopesUnavailable

  /** ToolRegistry.resolve with require_model_visible. */
  function Resolve(registry: Registry, name: string, version: string, context: ToolContext): Result<ToolSpec, RegistryError> {
    if (name, version) !in registry then Err(UnknownTool)
    else
      var spec := registry[(name, version)];
      if !spec.modelVisible then Err(NotModelVisible)
      else if spec.allowedWorkflows != {} && (context.workflow.None? || context.workflow.value !in spec.allowedWorkflows) then
        Err(WrongWorkflow)
      else if spec.allowedSteps != {} && (context.currentStep.None? || context.currentStep.value !in spec.allowedSteps) then
        Err(WrongStep)
      else if !(spec.requiredScopes <= context.scopes) then Err(ScopesUnavailable)
      else Ok(spec)
  }
}
