/**
 * The dispatcher's type-erased values (IValue) and its types, reduced to what
 * the calling-convention bridge looks at.
 */
module Values {

  /** A tensor handle. Contents are not modelled: a defined tensor is an opaque identifier. */
  datatype Tensor = UndefinedTensor | TensorHandle(id: nat)

  /** A type-erased value as it sits on the dispatcher's stack. */
  datatype IValue =
    | NoneV
    | TensorV(tensor: Tensor)
    | TensorListV(elements: seq<Tensor>)
    | IntV(i: int)
    | BoolV(b: bool)
    | StringV(s: string)

  /** The types a schema argument can declare. */
  datatype Type =
    | TensorType
    | IntType
    | FloatType
    | BoolType
    | StringType
    | NoneType
    | ListType(elem: Type)
    | OptionalType(elem: Type)

  /** `Optional[List[Tensor]]`, the type of the preallocated-outputs argument. */
  const OptionalTensorList: Type := OptionalType(ListType(TensorType))

  /**
   * A minimal subtype relation: every type is a subtype of itself, and
   * `None` and every subtype of `T` are subtypes of `Optional[T]`.
   */
  predicate IsSubtypeOf(sub: Type, super: Type)
    decreases super
  {
    sub == super
    || (super.OptionalType? && (sub == NoneType || IsSubtypeOf(sub, super.elem)))
  }

  /** Exactly three types pass the bridge's check against `Optional[List[Tensor]]`. */
  lemma {:induction false} SubtypesOfOptionalTensorList(t: Type)
    ensures IsSubtypeOf(t, OptionalTensorList)
        <==> t == OptionalTensorList || t == ListType(TensorType) || t == NoneType
  {
    assert IsSubtypeOf(t, ListType(TensorType)) <==> t == ListType(TensorType);
  }
}
