/**
 * The calling-convention bridge: runs a legacy positional Caffe2 operator
 * from the dispatcher's value stack, with optional caller-preallocated outputs.
 */
module Caffe2Bridge {
  import opened Wrappers
  import opened Values
  import opened Schema
  import opened CallStack

  /** Why a bridged call aborts: the two assertions of the adapter, or an exception from the operator. */
  datatype CallError =
    | MisregisteredSchema
    | PreallocatedOutputsNotTensorList
    | OperatorFailed(message: string)

  /**
   * The per-operator "call the legacy operator" function the adapter is handed:
   * (schema, inputs, initial outputs) to final outputs, or the failure it throws.
   */
  type CallOpFunc = (FunctionSchema, seq<IValue>, seq<Tensor>) -> Result<seq<Tensor>, string>

  /**
   * A legacy operator type, kept abstract: how it is constructed from
   * (schema, inputs, outputs), or the exception its constructor throws; what
   * `Run` does to its state (the boolean `Run` returns, or the exception it
   * throws); and which outputs it hands back after it has run.
   */
  datatype LegacyOperator<!S> = LegacyOperator(
    construct: (FunctionSchema, seq<IValue>, seq<Tensor>) -> Result<S, string>,
    run: S -> Result<(S, bool), string>,
    moveNewstyleOutputs: S -> seq<Tensor>)

  /**
   * Constructs the operator from exactly what it is given, runs it once and
   * extracts its outputs. An exception from the constructor or from `Run`
   * propagates; the boolean that `Run` returns is ignored.
   */
  function CallCaffe2Op<S>(op: LegacyOperator<S>, schema: FunctionSchema, inputs: seq<IValue>, outputs: seq<Tensor>)
    : (r: Result<seq<Tensor>, string>)
    ensures var built := op.construct(schema, inputs, outputs);
      (built.Failure? ==> r == Failure(built.error))
      && (built.Success? ==>
            var ran := op.run(built.value);
            (r.Failure? <==> ran.Failure?)
            && (ran.Failure? ==> r.error == ran.error)
            && (ran.Success? ==> r.value == op.moveNewstyleOutputs(ran.value.0)))
  {
    match op.construct(schema, inputs, outputs)
    case Failure(e) => Failure(e)
    case Success(constructed) =>
      match op.run(constructed)
      case Failure(e) => Failure(e)
      case Success((state, _)) => Success(op.moveNewstyleOutputs(state))
  }

  /** The call function bound to one operator type: `CallCaffe2Op` on that operator, for every call. */
  function CallOpFor<S>(op: LegacyOperator<S>): (f: CallOpFunc)
    ensures forall schema, inputs, outputs :: f(schema, inputs, outputs) == CallCaffe2Op(op, schema, inputs, outputs)
  {
    (schema, inputs, outputs) => CallCaffe2Op(op, schema, inputs, outputs)
  }

  /** A vector of tensors resized to `n`: kept prefix, new slots are undefined tensors. */
  function Resized(v: seq<Tensor>, n: nat): (r: seq<Tensor>)
    ensures |r| == n
    ensures forall i :: 0 <= i < n && i < |v| ==> r[i] == v[i]
    ensures forall i :: |v| <= i < n ==> r[i] == UndefinedTensor
  {
    if n <= |v| then v[..n] else v + seq(n - |v|, _ => UndefinedTensor)
  }

  /**
   * The output buffers handed to the operator, from the popped
   * preallocated-outputs value: `None` gives `numOutputs` undefined tensors; a
   * tensor list is taken as it is, whatever its length; anything else fails the
   * assertion.
   */
  function ResolveOutputs(preallocated: IValue, numOutputs: nat): (r: Result<seq<Tensor>, CallError>)
    ensures r.Success? <==> preallocated.NoneV? || preallocated.TensorListV?
    ensures r.Failure? ==> r.error == PreallocatedOutputsNotTensorList
    ensures preallocated.NoneV? ==>
      |r.value| == numOutputs && forall i :: 0 <= i < numOutputs ==> r.value[i] == UndefinedTensor
    ensures preallocated.TensorListV? ==> r.value == preallocated.elements
  {
    if preallocated.NoneV? then Success(Resized([], numOutputs))
    else if preallocated.TensorListV? then Success(preallocated.elements)
    else Failure(PreallocatedOutputsNotTensorList)
  }

  /** Each tensor wrapped as a stack value, in order. */
  function AsIValues(ts: seq<Tensor>): (r: seq<IValue>)
    ensures |r| == |ts|
    ensures forall i :: 0 <= i < |ts| ==> r[i] == TensorV(ts[i])
  {
    if ts == [] then [] else [TensorV(ts[0])] + AsIValues(ts[1..])
  }

  /**
   * The adapter's state just before it calls the operator: what is left below
   * the consumed frame, the inputs it popped and the outputs it resolved; or the
   * assertion that fired and the stack at that moment.
   */
  datatype Prepared =
    | Ready(below: seq<IValue>, inputs: seq<IValue>, outputs: seq<Tensor>)
    | Rejected(error: CallError, stack: seq<IValue>)

  /** Steps 1 to 4 of the adapter: check the schema, pop the slot, resolve the outputs, pop the inputs. */
  function PrepareCall(stack: seq<IValue>, schema: FunctionSchema): (r: Prepared)
    requires |stack| >= |schema.arguments|
    ensures !EndsWithPreallocatedOutputs(schema) <==> r == Rejected(MisregisteredSchema, stack)
    ensures EndsWithPreallocatedOutputs(schema) ==>
      var top := stack[|stack| - 1];
      var frame := |stack| - |schema.arguments|;
      (r.Ready? <==> top.NoneV? || top.TensorListV?)
      && (r.Rejected? ==> r == Rejected(PreallocatedOutputsNotTensorList, stack[..|stack| - 1]))
      && (r.Ready? ==>
            r.below == stack[..frame]
            && r.inputs == stack[frame..|stack| - 1]
            && r.below + r.inputs + [top] == stack)
      && (r.Ready? && top.NoneV? ==>
            |r.outputs| == |schema.results|
            && forall i :: 0 <= i < |r.outputs| ==> r.outputs[i] == UndefinedTensor)
      && (r.Ready? && top.TensorListV? ==> r.outputs == top.elements)
  {
    if !EndsWithPreallocatedOutputs(schema) then
      Rejected(MisregisteredSchema, stack)
    else
      var preallocated := stack[|stack| - 1];
      var rest := stack[..|stack| - 1];
      var numInputs := |schema.arguments| - 1;
      match ResolveOutputs(preallocated, |schema.results|)
      case Failure(e) => Rejected(e, rest)
      case Success(outputs) =>
        assert rest[..|rest| - numInputs] + rest[|rest| - numInputs..] + [preallocated] == stack;
        Ready(rest[..|rest| - numInputs], rest[|rest| - numInputs..], outputs)
  }

  /** How a bridged call ends, with the stack as the caller sees it afterwards. */
  datatype CallOutcome =
    | Completed(stack: seq<IValue>)
    | Aborted(error: CallError, stack: seq<IValue>)

  /**
   * One whole call on a stack value: prepare, call the operator, push its
   * results. Either the call completes and the frame is replaced by the
   * results, or it aborts with nothing pushed.
   */
  function Invoke(stack: seq<IValue>, schema: FunctionSchema, callOp: CallOpFunc): (r: CallOutcome)
    requires |stack| >= |schema.arguments|
    ensures var p := PrepareCall(stack, schema);
      (p.Rejected? ==> r == Aborted(p.error, p.stack))
      && (p.Ready? ==>
            var res := callOp(schema, p.inputs, p.outputs);
            (r.Completed? <==> res.Success?)
            && (res.Failure? ==> r == Aborted(OperatorFailed(res.error), p.below))
            && (res.Success? ==>
                  |r.stack| == |p.below| + |res.value|
                  && r.stack[..|p.below|] == p.below
                  && forall j :: 0 <= j < |res.value| ==> r.stack[|p.below| + j] == TensorV(res.value[j])))
  {
    match PrepareCall(stack, schema)
    case Rejected(e, s) => Aborted(e, s)
    case Ready(below, inputs, outputs) =>
      match callOp(schema, inputs, outputs)
      case Failure(msg) => Aborted(OperatorFailed(msg), below)
      case Success(results) => Completed(below + AsIValues(results))
  }

  /**
   * The shared stack adapter. Asserts the schema shape, pops the
   * preallocated-outputs slot, resolves the outputs, pops the inputs, calls the
   * operator and pushes each result.
   */
  method CallCaffe2OpFromC10Impl(stack: Stack, schema: FunctionSchema, callOp: CallOpFunc)
    returns (outcome: Outcome<CallError>)
    requires |stack.elems| >= |schema.arguments|
    modifies stack
    ensures Invoke(old(stack.elems), schema, callOp)
         == if outcome.Pass? then Completed(stack.elems) else Aborted(outcome.error, stack.elems)
  {
    ghost var original := stack.elems;
    if !EndsWithPreallocatedOutputs(schema) {
      assert PrepareCall(original, schema) == Rejected(MisregisteredSchema, original);
      return Fail(MisregisteredSchema);
    }
    var preallocatedOutputs := stack.Pop();

    var numOutputs := |schema.results|;
    var numInputs := |schema.arguments| - 1;

    var outputs: seq<Tensor> := [];
    if preallocatedOutputs.NoneV? {
      outputs := Resized(outputs, numOutputs);
    } else {
      if !preallocatedOutputs.TensorListV? {
        SlotRejectedAfterPop(original, schema, stack.elems, preallocatedOutputs);
        return Fail(PreallocatedOutputsNotTensorList);
      }
      outputs := preallocatedOutputs.elements;
    }

    var inputs := stack.PopN(numInputs);
    ghost var below := stack.elems;
    ReadyAfterPops(original, schema, below, inputs, preallocatedOutputs);
    assert ResolveOutputs(preallocatedOutputs, numOutputs).value == outputs;

    var called := callOp(schema, inputs, outputs);
    InvokeAfterReady(original, schema, callOp, below, inputs, outputs);
    if called.Failure? {
      return Fail(OperatorFailed(called.error));
    }
    outputs := called.value;

    PushOutputs(stack, outputs);
    return Pass;
  }

  /** Pushes each output onto the stack as a tensor value, in order. */
  method PushOutputs(stack: Stack, outputs: seq<Tensor>)
    modifies stack
    ensures stack.elems == old(stack.elems) + AsIValues(outputs)
  {
    var i := 0;
    while i < |outputs|
      invariant 0 <= i <= |outputs|
      invariant stack.elems == old(stack.elems) + AsIValues(outputs[..i])
    {
      stack.Push(TensorV(outputs[i]));
      AsIValuesPushOne(outputs, i);
      i := i + 1;
    }
    assert outputs[..i] == outputs;
  }

  /** Popping the slot and then the inputs leaves the adapter ready to call, with the outputs the slot resolves to. */
  lemma ReadyAfterPops(original: seq<IValue>, schema: FunctionSchema, below: seq<IValue>, inputs: seq<IValue>, top: IValue)
    requires EndsWithPreallocatedOutputs(schema)
    requires original == below + inputs + [top]
    requires |inputs| == |schema.arguments| - 1
    requires top.NoneV? || top.TensorListV?
    ensures PrepareCall(original, schema) == Ready(below, inputs, ResolveOutputs(top, |schema.results|).value)
  {
    var rest := original[..|original| - 1];
    assert rest == below + inputs;
    assert rest[..|rest| - |inputs|] == below;
    assert rest[|rest| - |inputs|..] == inputs;
  }

  /** A slot that is neither `None` nor a tensor list is rejected after it has been popped. */
  lemma SlotRejectedAfterPop(original: seq<IValue>, schema: FunctionSchema, rest: seq<IValue>, top: IValue)
    requires EndsWithPreallocatedOutputs(schema)
    requires |original| >= |schema.arguments|
    requires original == rest + [top]
    requires !(top.NoneV? || top.TensorListV?)
    ensures PrepareCall(original, schema) == Rejected(PreallocatedOutputsNotTensorList, rest)
  {
    assert original[..|original| - 1] == rest;
  }

  /** Once the adapter is ready, the call ends as the operator does: aborted on a throw, else its results pushed. */
  lemma InvokeAfterReady(original: seq<IValue>, schema: FunctionSchema, callOp: CallOpFunc,
                         below: seq<IValue>, inputs: seq<IValue>, outputs: seq<Tensor>)
    requires |original| >= |schema.arguments|
    requires PrepareCall(original, schema) == Ready(below, inputs, outputs)
    ensures var res := callOp(schema, inputs, outputs);
      Invoke(original, schema, callOp)
      == if res.Success? then Completed(below + AsIValues(res.value)) else Aborted(OperatorFailed(res.error), below)
  {
  }

  /** Wrapping one more result appends exactly its tensor value. */
  lemma AsIValuesPushOne(ts: seq<Tensor>, i: nat)
    requires i < |ts|
    ensures AsIValues(ts[..i + 1]) == AsIValues(ts[..i]) + [TensorV(ts[i])]
  {
    assert ts[..i + 1] == ts[..i] + [ts[i]];
  }

  /** The kernel registered for one operator: the shared adapter with that operator's call function. */
  method CallCaffe2OpFromC10<S>(stack: Stack, opSchema: FunctionSchema, op: LegacyOperator<S>)
    returns (outcome: Outcome<CallError>)
    requires |stack.elems| >= |opSchema.arguments|
    modifies stack
    ensures Invoke(old(stack.elems), opSchema, CallOpFor(op))
         == if outcome.Pass? then Completed(stack.elems) else Aborted(outcome.error, stack.elems)
  {
    outcome := CallCaffe2OpFromC10Impl(stack, opSchema, CallOpFor(op));
  }

  /**
   * On success the values below the consumed frame are untouched, the frame of
   * `|arguments|` values is gone, and the results are on top in order: the
   * stack height changes by `|results| - |arguments|`.
   */
  lemma CompletedCallReplacesFrame(stack: seq<IValue>, schema: FunctionSchema, callOp: CallOpFunc)
    requires |stack| >= |schema.arguments|
    requires Invoke(stack, schema, callOp).Completed?
    ensures var p := PrepareCall(stack, schema);
      var after := Invoke(stack, schema, callOp).stack;
      var frame := |stack| - |schema.arguments|;
      EndsWithPreallocatedOutputs(schema) && p.Ready?
      && callOp(schema, p.inputs, p.outputs).Success?
      && after == stack[..frame] + AsIValues(callOp(schema, p.inputs, p.outputs).value)
  {
    var p := PrepareCall(stack, schema);
    var res := callOp(schema, p.inputs, p.outputs);
    var after := Invoke(stack, schema, callOp).stack;
    assert after == p.below + AsIValues(res.value);
  }

  /**
   * An aborted call never pushes: the stack is the old stack with at most its
   * top frame removed, and which part is removed depends on where it aborted.
   */
  lemma AbortedCallPushesNothing(stack: seq<IValue>, schema: FunctionSchema, callOp: CallOpFunc)
    requires |stack| >= |schema.arguments|
    requires Invoke(stack, schema, callOp).Aborted?
    ensures var r := Invoke(stack, schema, callOp);
      match r.error
      case MisregisteredSchema => r.stack == stack
      case PreallocatedOutputsNotTensorList => r.stack == stack[..|stack| - 1]
      case OperatorFailed(_) => r.stack == stack[..|stack| - |schema.arguments|]
  {
  }

  /**
   * Builder and adapter together: a stack holding values for the caller's
   * inputs and a `None` or tensor-list slot on top passes both assertions; the
   * operator gets exactly those values and the resolved outputs; the frame is
   * replaced by its results, or removed when it throws.
   */
  lemma BuiltSchemaCall(operatorName: string, inputs: seq<Argument>, outputs: seq<Argument>,
                        below: seq<IValue>, args: seq<IValue>, preallocated: IValue, callOp: CallOpFunc)
    requires |args| == |inputs|
    requires preallocated.NoneV? || preallocated.TensorListV?
    ensures var schema := MakeFunctionSchemaForC10(operatorName, inputs, outputs);
      var stack := below + args + [preallocated];
      var outs := if preallocated.NoneV? then Resized([], |outputs|) else preallocated.elements;
      var res := callOp(schema, args, outs);
      PrepareCall(stack, schema) == Ready(below, args, outs)
      && Invoke(stack, schema, callOp)
         == if res.Success? then Completed(below + AsIValues(res.value))
            else Aborted(OperatorFailed(res.error), below)
  {
    var schema := MakeFunctionSchemaForC10(operatorName, inputs, outputs);
    var stack := below + args + [preallocated];
    var outs := if preallocated.NoneV? then Resized([], |outputs|) else preallocated.elements;
    var p := PrepareCall(stack, schema);
    assert stack[..|stack| - |schema.arguments|] == below;
    assert stack[|stack| - |schema.arguments|..|stack| - 1] == args;
    assert p.outputs == outs;
  }

  /**
   * Inputs `[A: Tensor, B: int]`, outputs `[C: Tensor]`, stack
   * `[tensor1, 5, None]`: the operator gets `[tensor1, 5]` and one undefined
   * output, and the stack ends as its one result.
   */
  lemma FreshOutputScenario(callOp: CallOpFunc)
    requires callOp(ExampleSchema(), [TensorV(TensorHandle(1)), IntV(5)], [UndefinedTensor])
          == Success([TensorHandle(2)])
    ensures Invoke([TensorV(TensorHandle(1)), IntV(5), NoneV], ExampleSchema(), callOp)
         == Completed([TensorV(TensorHandle(2))])
  {
    var args := [TensorV(TensorHandle(1)), IntV(5)];
    var stack := [] + args + [NoneV];
    assert stack == [TensorV(TensorHandle(1)), IntV(5), NoneV];
    assert Resized([], 1) == [UndefinedTensor];
    BuiltSchemaCall("Example", ExampleInputs(), ExampleOutputs(), [], args, NoneV, callOp);
    assert Invoke(stack, ExampleSchema(), callOp) == Completed([] + AsIValues([TensorHandle(2)]));
    assert [] + AsIValues([TensorHandle(2)]) == [TensorV(TensorHandle(2))];
  }

  /**
   * The same call with `[bufX]` preallocated: the operator gets `[bufX]` as its
   * outputs, and if it hands `bufX` back the stack ends as `[bufX]`.
   */
  lemma PreallocatedOutputScenario(callOp: CallOpFunc)
    requires callOp(ExampleSchema(), [TensorV(TensorHandle(1)), IntV(5)], [TensorHandle(7)])
          == Success([TensorHandle(7)])
    ensures Invoke([TensorV(TensorHandle(1)), IntV(5), TensorListV([TensorHandle(7)])], ExampleSchema(), callOp)
         == Completed([TensorV(TensorHandle(7))])
  {
    var args := [TensorV(TensorHandle(1)), IntV(5)];
    var slot := TensorListV([TensorHandle(7)]);
    var stack := [] + args + [slot];
    assert stack == [TensorV(TensorHandle(1)), IntV(5), slot];
    BuiltSchemaCall("Example", ExampleInputs(), ExampleOutputs(), [], args, slot, callOp);
    assert Invoke(stack, ExampleSchema(), callOp) == Completed([] + AsIValues([TensorHandle(7)]));
    assert [] + AsIValues([TensorHandle(7)]) == [TensorV(TensorHandle(7))];
  }

  function ExampleInputs(): seq<Argument>
  {
    [Argument("A", TensorType, None, None, false), Argument("B", IntType, None, None, false)]
  }

  function ExampleOutputs(): seq<Argument>
  {
    [Argument("C", TensorType, None, None, false)]
  }

  function ExampleSchema(): FunctionSchema
  {
    MakeFunctionSchemaForC10("Example", ExampleInputs(), ExampleOutputs())
  }
}
