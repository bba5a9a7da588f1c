/** The shape of the function-calling tool descriptions the backend hands to the language model:
    a tool name, its typed parameters, and the names the model must always supply. The free-text
    descriptions are not modelled. */
module ToolSchemas {

  datatype ParamType = StringParam | IntegerParam

  datatype Param = Param(name: string, kind: ParamType)

  datatype ToolSchema = ToolSchema(name: string, params: seq<Param>, required: seq<string>)

  /** The declared parameter names, in order. */
  function Names(params: seq<Param>): (names: seq<string>)
    ensures |names| == |params| && forall k :: 0 <= k < |params| ==> names[k] == params[k].name
  {
    seq(|params|, k requires 0 <= k < |params| => params[k].name)
  }

  /** `name` is one of the schema's declared parameters. */
  predicate Declares(schema: ToolSchema, name: string) {
    name in Names(schema.params)
  }

  /** `name` must be supplied on every call. */
  predicate Requires(schema: ToolSchema, name: string) {
    name in schema.required
  }

  /** Every required name is a declared parameter, and no parameter is declared twice. */
  predicate WellFormed(schema: ToolSchema) {
    (forall r :: r in schema.required ==> Declares(schema, r))
    && (forall i, j :: 0 <= i < j < |schema.params| ==> schema.params[i].name != schema.params[j].name)
  }

  /** The declared parameters a call may leave out, in declaration order. */
  function OptionalParams(schema: ToolSchema): (opt: seq<string>)
    ensures forall n :: n in opt <==> Declares(schema, n) && !Requires(schema, n)
  {
    OptionalFrom(schema.params, schema.required)
  }

  function OptionalFrom(params: seq<Param>, required: seq<string>): (opt: seq<string>)
    ensures forall n :: n in opt <==> n in Names(params) && n !in required
    decreases |params|
  {
    if params == [] then []
    else
      assert Names(params) == [params[0].name] + Names(params[1..]);
      var rest := OptionalFrom(params[1..], required);
      if params[0].name in required then rest else [params[0].name] + rest
  }
}
