/** Reject unsafe model decisions before any tool side effect (src/agent/validation.py). */
module DecisionValidation {
  import opened Prelude
  import opened Json
  import opened AgentProtocol

  const SYSTEM_ARGUMENT_FIELDS: set<string> :=
    {"tenant_id", "actor_id", "owner_id", "scopes", "idempotency_key", "confirmation_token", "policy_version"}

  datatype DecisionBoundary = DecisionBoundary(route: string, allowedTypes: set<DecisionType>, allowedTools: set<string>,
                                               trustedEvidenceIds: set<string>, allowedRoutes: set<string>)

  datatype ValidationError =
    | TypeNotAllowed
    | RouteMismatch
    | UntrustedEvidence
    | SystemArgument
    | ToolNotAllowed
    | SpecificationUnavailable
    | SchemaInvalid
    | ArgumentMissing
    | ArgumentUnknown
    | ArgumentTypeInvalid
    | ToolDataOnOtherDecision

  // ---------------------------------------------------------------- the ordered checks

  function ValidateArguments(args: Object, schema: Object): Option<ValidationError> {
    var required, properties := GetOr(schema, "required", Arr([])), GetOr(schema, "properties", Obj(map[]));
    if !required.Arr? || !properties.Obj? then Some(SchemaInvalid)
    else if exists i :: 0 <= i < |required.items| && !(required.items[i].Str? && required.items[i].s in args) then
      Some(ArgumentMissing)
    else if GetOr(schema, "additionalProperties", Null) == Bool(false) && !(args.Keys <= properties.fields.Keys) then
      Some(ArgumentUnknown)
    else if exists name :: name in args && !TypeFits(args[name], properties.fields, name) then
      Some(ArgumentTypeInvalid)
    else
      None
  }

  /** The declared type of one argument, where only "string" and "integer" are enforced. */
  predicate TypeFits(value: Value, properties: Object, name: string) {
    var definition := GetObject(properties, name);
    definition.Some? ==>
      var expected := GetOr(definition.value, "type", Null);
      && (expected == Str("string") ==> value.Str?)
      && (expected == Str("integer") ==> value.Int?)
  }

  function Validate(decision: Decision, boundary: DecisionBoundary, spec: Option<ToolSpec>): Option<ValidationError> {
    if decision.kind !in boundary.allowedTypes then Some(TypeNotAllowed)
    else if decision.route != boundary.route && decision.route !in boundary.allowedRoutes then Some(RouteMismatch)
    else if exists i :: 0 <= i < |decision.evidenceIds| && decision.evidenceIds[i] !in boundary.trustedEvidenceIds then
      Some(UntrustedEvidence)
    else if decision.args.Keys * SYSTEM_ARGUMENT_FIELDS != {} then Some(SystemArgument)
    else if decision.kind.CallTool? then
      if decision.tool.None? || decision.tool.value !in boundary.allowedTools then Some(ToolNotAllowed)
      else if spec.None? || spec.value.name != decision.tool.value then Some(SpecificationUnavailable)
      else ValidateArguments(decision.args, spec.value.inputSchema)
    else if decision.tool.Some? || decision.args != map[] then Some(ToolDataOnOtherDecision)
    else None
  }

  // ---------------------------------------------------------------- what acceptance means

  /** Independent statement: nothing is outside the trusted boundary. */
  ghost predicate InsideBoundary(decision: Decision, boundary: DecisionBoundary) {
    && decision.kind in boundary.allowedTypes
    && (decision.route == boundary.route || decision.route in boundary.allowedRoutes)
    && (forall id :: id in decision.evidenceIds ==> id in boundary.trustedEvidenceIds)
    && (forall name :: name in decision.args ==> name !in SYSTEM_ARGUMENT_FIELDS)
  }

  /** The type that a schema's properties declare for this name, if they do. */
  ghost predicate Declares(properties: Object, name: string, kind: string) {
    && name in properties && properties[name].Obj?
    && "type" in properties[name].fields && properties[name].fields["type"] == Str(kind)
  }

  /** Every required argument is there, strings and integers are what they are declared to be, and none is unknown if that is forbidden. */
  ghost predicate FitsSchema(args: Object, schema: Object) {
    && ("required" in schema ==>
      schema["required"].Arr? && forall item :: item in schema["required"].items ==> item.Str? && item.s in args)
    && ("properties" in schema ==> schema["properties"].Obj?)
    && var properties := if "properties" in schema then schema["properties"].fields else map[];
    && (forall name :: name in args && Declares(properties, name, "string") ==> args[name].Str?)
    && (forall name :: name in args && Declares(properties, name, "integer") ==> args[name].Int?)
    && ("additionalProperties" in schema && schema["additionalProperties"] == Bool(false) ==>
      forall name :: name in args ==> name in properties)
  }

  ghost predicate SafeToolCall(decision: Decision, boundary: DecisionBoundary, spec: ToolSpec) {
    && InsideBoundary(decision, boundary)
    && decision.kind.CallTool?
    && decision.tool == Some(spec.name) && spec.name in boundary.allowedTools
    && FitsSchema(decision.args, spec.inputSchema)
  }

  ghost predicate SafeAnswer(decision: Decision, boundary: DecisionBoundary) {
    InsideBoundary(decision, boundary) && !decision.kind.CallTool? && decision.tool.None? && decision.args == map[]
  }

  /** The ordered checks accept exactly the safe tool calls and the safe answers. */
  lemma ValidatorAcceptsExactlyTheSafe(decision: Decision, boundary: DecisionBoundary, spec: Option<ToolSpec>)
    ensures Validate(decision, boundary, spec).None?
       <==> SafeAnswer(decision, boundary) || (spec.Some? && SafeToolCall(decision, boundary, spec.value))
  {
    BoundaryChecks(decision, boundary);
    if spec.Some? {
      ArgumentChecks(decision.args, spec.value.inputSchema);
    }
  }

  lemma BoundaryChecks(decision: Decision, boundary: DecisionBoundary)
    ensures InsideBoundary(decision, boundary) <==>
      && decision.kind in boundary.allowedTypes
      && (decision.route == boundary.route || decision.route in boundary.allowedRoutes)
      && !(exists i :: 0 <= i < |decision.evidenceIds| && decision.evidenceIds[i] !in boundary.trustedEvidenceIds)
      && decision.args.Keys * SYSTEM_ARGUMENT_FIELDS == {}
  {
    if decision.args.Keys * SYSTEM_ARGUMENT_FIELDS != {} {
      var name :| name in decision.args.Keys * SYSTEM_ARGUMENT_FIELDS;
      assert name in decision.args && name in SYSTEM_ARGUMENT_FIELDS;
    }
    forall name | name in decision.args && name in SYSTEM_ARGUMENT_FIELDS ensures decision.args.Keys * SYSTEM_ARGUMENT_FIELDS != {} {
      assert name in decision.args.Keys * SYSTEM_ARGUMENT_FIELDS;
    }
  }

  lemma TypesFitAsDeclared(value: Value, properties: Object, name: string)
    ensures TypeFits(value, properties, name)
       <==> (Declares(properties, name, "string") ==> value.Str?) && (Declares(properties, name, "integer") ==> value.Int?)
  {
  }

  lemma ArgumentChecks(args: Object, schema: Object)
    ensures ValidateArguments(args, schema).None? <==> FitsSchema(args, schema)
  {
    var properties := GetOr(schema, "properties", Obj(map[]));
    if properties.Obj? {
      forall name | name in args
        ensures TypeFits(args[name], properties.fields, name) <==>
          ((Declares(properties.fields, name, "string") ==> args[name].Str?)
           && (Declares(properties.fields, name, "integer") ==> args[name].Int?))
      {
        TypesFitAsDeclared(args[name], properties.fields, name);
      }
    }
  }
}
