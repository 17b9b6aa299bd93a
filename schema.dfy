/**
 * Operator signatures and the schema builder that adds the synthetic
 * preallocated-outputs argument.
 */
module Schema {
  import opened Wrappers
  import opened Values

  /** One declared argument or return: name, type, fixed list length N, default value, keyword-only flag. */
  datatype Argument = Argument(
    name: string,
    typ: Type,
    n: Option<nat>,
    defaultValue: Option<IValue>,
    kwargOnly: bool)

  /** An operator signature: qualified name, overload name, arguments and returns in declaration order. */
  datatype FunctionSchema = FunctionSchema(
    name: string,
    overloadName: string,
    arguments: seq<Argument>,
    results: seq<Argument>)

  /** The reserved name of the synthetic trailing argument. */
  const PreallocatedOutputArgName: string := "_caffe2_preallocated_outputs"

  /** The namespace every bridged operator name is put in. */
  const Caffe2Namespace: string := "_caffe2::"

  /** The synthetic argument: `Optional[List[Tensor]]`, no fixed length, default `None`. */
  const PreallocatedOutputsArgument: Argument :=
    Argument(PreallocatedOutputArgName, OptionalTensorList, None, Some(NoneV), false)

  /**
   * What the invocation adapter asserts before it touches the stack: the
   * schema has at least one argument and the last one accepts an optional
   * tensor list, that is, it is declared `Optional[List[Tensor]]`,
   * `List[Tensor]` or `None`.
   */
  predicate EndsWithPreallocatedOutputs(schema: FunctionSchema): (ok: bool)
    ensures ok <==>
      |schema.arguments| != 0
      && var t := schema.arguments[|schema.arguments| - 1].typ;
         t == OptionalTensorList || t == ListType(TensorType) || t == NoneType
  {
    |schema.arguments| != 0
    && IsSubtypeOf(schema.arguments[|schema.arguments| - 1].typ, OptionalTensorList)
  }

  /**
   * Builds the dispatcher schema for a legacy operator: the caller's inputs
   * followed by the synthetic argument, the caller's outputs unchanged, and the
   * name put in the `_caffe2::` namespace. No validation is done.
   */
  function MakeFunctionSchemaForC10(operatorName: string, inputs: seq<Argument>, outputs: seq<Argument>)
    : (r: FunctionSchema)
    ensures r.name == Caffe2Namespace + operatorName && r.overloadName == ""
    ensures |r.arguments| == |inputs| + 1
    ensures r.arguments[..|inputs|] == inputs
    ensures r.arguments[|inputs|].name == PreallocatedOutputArgName
    ensures r.arguments[|inputs|].typ == OptionalTensorList
    ensures r.arguments[|inputs|].defaultValue == Some(NoneV)
    ensures r.arguments[|inputs|].n == None && !r.arguments[|inputs|].kwargOnly
    ensures r.results == outputs
    ensures EndsWithPreallocatedOutputs(r)
  {
    FunctionSchema(Caffe2Namespace + operatorName, "", inputs + [PreallocatedOutputsArgument], outputs)
  }

  /**
   * When no caller input uses the reserved name (an unchecked
   * precondition of the builder), the synthetic argument is the only argument
   * with that name, and it is the last one.
   */
  lemma ReservedNameOnlyAtEnd(operatorName: string, inputs: seq<Argument>, outputs: seq<Argument>, i: nat)
    requires forall j :: 0 <= j < |inputs| ==> inputs[j].name != PreallocatedOutputArgName
    requires i < |inputs| + 1
    ensures var s := MakeFunctionSchemaForC10(operatorName, inputs, outputs);
      s.arguments[i].name == PreallocatedOutputArgName <==> i == |s.arguments| - 1
  {
    var s := MakeFunctionSchemaForC10(operatorName, inputs, outputs);
    if i < |inputs| {
      assert s.arguments[i] == s.arguments[..|inputs|][i] == inputs[i];
    }
  }

  /**
   * The builder does not check the reserved name: a caller input that uses it
   * is kept, so the schema then holds the name twice.
   */
  lemma ReservedNameCollisionIsKept(operatorName: string, inputs: seq<Argument>, outputs: seq<Argument>, i: nat)
    requires i < |inputs| && inputs[i].name == PreallocatedOutputArgName
    ensures var s := MakeFunctionSchemaForC10(operatorName, inputs, outputs);
      s.arguments[i].name == PreallocatedOutputArgName && s.arguments[|s.arguments| - 1].name == PreallocatedOutputArgName
      && i != |s.arguments| - 1
  {
    var s := MakeFunctionSchemaForC10(operatorName, inputs, outputs);
    assert s.arguments[i] == s.arguments[..|inputs|][i];
  }
}
