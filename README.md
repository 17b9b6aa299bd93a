# Caffe2 operators behind the c10 dispatcher: a Dafny model

This project models the bridge in `caffe2/core/c10_operator.h`. The bridge lets a
legacy Caffe2 operator be called through the c10 dispatcher. A Caffe2 operator
gets its inputs and output buffers as vectors. The dispatcher passes every
argument and result on one flat stack of type-erased values (IValues).

The model has two parts:

- **The schema builder** `make_function_schema_for_c10` (`Schema.MakeFunctionSchemaForC10`).
  It takes the caller's inputs and appends one synthetic argument,
  `_caffe2_preallocated_outputs`, of type `Optional[List[Tensor]]` with default `None`.
  It keeps the caller's outputs unchanged and puts the name in the `_caffe2::` namespace.
- **The invocation adapter** `_call_caffe2_op_from_c10` (`Caffe2Bridge.CallCaffe2OpFromC10Impl`).
  It is an imperative method on a `CallStack.Stack` object, whose `elems` field is the
  value vector with the top at the end. It does five things in order:
  1. asserts the schema shape;
  2. pops the preallocated-outputs slot;
  3. resolves the output buffers (`None` gives undefined tensors, a tensor list is used as it is);
  4. pops the inputs;
  5. calls the operator and pushes each result, one loop iteration per result
     (`Caffe2Bridge.PushOutputs`).

  The method is proved against the value-level function `Caffe2Bridge.Invoke`. The
  properties of `Invoke`, and of `Caffe2Bridge.PrepareCall` (steps 1 to 4), are proved
  as their own contracts and as lemmas.

Other modelling choices:

- The legacy operator class (the `Caffe2Operator` template parameter) is a
  `LegacyOperator<S>` record of three abstract functions: construct, `Run` and
  `move_newstyle_outputs`. The constructor and `Run` may each throw. The operator's
  state type `S` is left open. `_call_caffe2_op`, which constructs, runs and extracts,
  is `Caffe2Bridge.CallCaffe2Op`.
- The adapter receives its call function as a parameter of type `CallOpFunc`. This
  mirrors the function pointer `_CallCaffe2OpFunc`.
- C++ exceptions become values. `AT_ASSERT` failures and exceptions from the operator are
  `CallError`s. Each abort records the stack as it was at the moment of the throw.

Modules: `Wrappers` (Option/Result/Outcome), `Values` (tensors, IValues, types and a
minimal subtype relation), `Schema` (arguments, schemas, the builder), `CallStack`
(the stack object), `Caffe2Bridge` (adapter, kernel, legacy-operator call).

What the code checks and what it leaves unchecked:

- An abort leaves the stack as it was when the exception was thrown. It is unchanged
  for the schema assertion (line 46). It has lost its top for the tensor-list assertion
  (line 63, after the pop at line 50). It has lost the whole frame when the operator
  throws (line 72).
- The operator's result count is not checked against the declared returns. The model
  pushes whatever the operator returns, and every height statement is in terms of the
  actual number of results.
- A preallocated list's length is not checked against the declared result count
  (lines 62-66). The model keeps this behaviour.

## Model

| member | source | states |
|---|---|---|
| `Values.SubtypesOfOptionalTensorList` | caffe2/core/c10_operator.h:46-49 | the type check on the last argument accepts exactly `Optional[List[Tensor]]`, `List[Tensor]` and `None` |
| `Schema.EndsWithPreallocatedOutputs` | caffe2/core/c10_operator.h:46-49 | the adapter's schema assertion: at least one argument, and the last one's type is a subtype of `Optional[List[Tensor]]`, which holds exactly for `Optional[List[Tensor]]`, `List[Tensor]` and `None` |
| `Schema.MakeFunctionSchemaForC10` | caffe2/core/c10_operator.h:91-106 | name is `"_caffe2::"` + operator name; overload name empty; arguments are the inputs followed by exactly one more, `_caffe2_preallocated_outputs` of type `Optional[List[Tensor]]` with default `None`, no fixed length and not keyword-only, so there is one more argument than there are inputs; returns are the outputs unchanged; every built schema passes the adapter's shape assertion, empty lists included |
| `Schema.ReservedNameOnlyAtEnd` | caffe2/core/c10_operator.h:94-99 | when no input uses the reserved name, an argument of the built schema has that name if and only if it is the last one |
| `Schema.ReservedNameCollisionIsKept` | caffe2/core/c10_operator.h:94-99 | the builder does not reject an input named `_caffe2_preallocated_outputs`: the name then occurs at that input's position and again at the end |
| `CallStack.Stack.Pop` | caffe2/core/c10_operator.h:50 | removes the top value and returns it; the rest of the stack is unchanged |
| `CallStack.Stack.PopN` | caffe2/core/c10_operator.h:70 | removes the top `n` values and returns them in bottom-to-top order; the rest is unchanged |
| `CallStack.Stack.Push` | caffe2/core/c10_operator.h:75 | appends one value on top |
| `Caffe2Bridge.CallCaffe2Op` | caffe2/core/c10_operator.h:19-27 | builds the operator from exactly the given schema, inputs and outputs and runs it once; a constructor exception is returned unchanged and `Run` is then not reached; after a successful construction it fails if and only if `Run` throws, with the same message; otherwise returns the outputs extracted from the state `Run` left, whatever boolean `Run` returned |
| `Caffe2Bridge.CallOpFor` | caffe2/core/c10_operator.h:88 | the call function bound to one operator type (`&_call_caffe2_op<Caffe2Operator>`) is `CallCaffe2Op` on that operator, for every schema, inputs and outputs |
| `Caffe2Bridge.Resized` | caffe2/core/c10_operator.h:61 | resizing to `n` gives length `n`, keeps the existing prefix, and fills new slots with undefined tensors |
| `Caffe2Bridge.ResolveOutputs` | caffe2/core/c10_operator.h:56-66 | succeeds if and only if the slot is `None` or a tensor list; `None` gives exactly `numOutputs` undefined tensors; a tensor list gives its elements unchanged and in order, with no length check; any other value fails the tensor-list assertion |
| `Caffe2Bridge.AsIValues` | caffe2/core/c10_operator.h:74-76 | wrapping results for the stack keeps their number and order: element `i` is result `i` as a tensor value |
| `Caffe2Bridge.PrepareCall` | caffe2/core/c10_operator.h:41-70 | the schema assertion fails if and only if the schema is not shaped right, and then the stack is unchanged; otherwise the call goes ahead if and only if the top value is `None` or a tensor list, and if not the stack has lost only its top; the inputs are exactly the argument count minus one values below the top, in bottom-to-top order; `below + inputs + [top]` is the original stack; outputs are as `ResolveOutputs` states |
| `Caffe2Bridge.Invoke` | caffe2/core/c10_operator.h:37-81 | a rejected preparation aborts with the same error and stack; otherwise the call completes if and only if the operator does not throw; a throw leaves the stack without its frame and nothing pushed; on completion the stack is the part below the frame followed by one tensor value per result, in result order |
| `Caffe2Bridge.CallCaffe2OpFromC10Impl` | caffe2/core/c10_operator.h:37-81 | the imperative adapter on a stack object ends exactly as `Invoke` says: the same outcome and the same final stack, including the stack left by each failure |
| `Caffe2Bridge.PushOutputs` | caffe2/core/c10_operator.h:74-76 | the push loop leaves the old stack unchanged underneath and puts one tensor value per output on top, in output order |
| `Caffe2Bridge.CallCaffe2OpFromC10` | caffe2/core/c10_operator.h:83-89 | the registered kernel behaves as the adapter given the operator's schema and its `CallCaffe2Op` |
| `Caffe2Bridge.CompletedCallReplacesFrame` | caffe2/core/c10_operator.h:72-80 | a completed call passed both assertions and its operator did not throw; the final stack is the original stack minus its top values (one per argument), followed by the results in order, so the values below the frame are unchanged |
| `Caffe2Bridge.AbortedCallPushesNothing` | caffe2/core/c10_operator.h:46-72 | an aborted call pushes nothing: a schema failure leaves the stack unchanged, a slot type failure removes the top only, and an operator failure removes the whole frame |
| `Caffe2Bridge.BuiltSchemaCall` | caffe2/core/c10_operator.h:50-76 | for a schema built from `k` inputs and a stack `below + args + [slot]` with `k` values in `args` and a `None` or tensor-list slot: the operator gets exactly `args` and the resolved outputs; the stack ends as `below` plus its results, or as `below` if it throws |
| `Caffe2Bridge.FreshOutputScenario` | caffe2/core/c10_operator.h:57-61 | inputs `[A: Tensor, B: int]`, outputs `[C: Tensor]`, stack `[tensor1, 5, None]`: the operator gets `[tensor1, 5]` and one undefined output; if it returns `[tensor2]` the stack ends as `[tensor2]` |
| `Caffe2Bridge.PreallocatedOutputScenario` | caffe2/core/c10_operator.h:62-66 | the same call with `[bufX]` preallocated: the operator gets `[bufX]` as its outputs; if it hands `bufX` back the stack ends as `[bufX]` |

## Left out

- The registration macros `C10_DECLARE_CAFFE2_OPERATOR` and `C10_REGISTER_CAFFE2_OPERATOR_CPU/CUDA/HIP`, and their `C10_MOBILE` no-op variants (lines 156-214). They are macro plumbing into a dispatcher registry that is not part of this model.
- Dispatch keys and the unused `KernelCache*` parameter of the kernel. They belong to the registry, and the cache is never read.
- What a legacy operator's constructor, `Run` and `move_newstyle_outputs` do. These are the abstract fields of `LegacyOperator`.
- The dispatcher's type lattice. `Values.IsSubtypeOf` keeps only reflexivity and the `Optional` rules needed for the shape check. The IValue kinds are reduced to None, tensor, tensor list, int, bool and string.
- `FunctionSchema` internals beyond name, overload name, arguments and returns (vararg flags, alias information).
- Move semantics, ownership and the inlining versus binary-size choice behind the function pointer. They do not change behaviour.
- Tensor contents and aliasing of preallocated buffers. A tensor is an opaque handle, so an operator that writes into a preallocated tensor and returns it shows only as the same handle coming back.
- Popping from a stack shorter than the schema's argument count. This is undefined behaviour in the stack library, so the adapter and its specification require `|stack| >= |arguments|`, as the source's precondition comment (lines 41-44) demands of callers.
