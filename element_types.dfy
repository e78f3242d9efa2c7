/** The element types of tensors (ngraph's element::Type_t). */
module ElementTypes {

  datatype ElementType =
    | Undefined | Dynamic | Boolean
    | BF16 | F16 | F32 | F64
    | I4 | I8 | I16 | I32 | I64
    | U1 | U4 | U8 | U16 | U32 | U64

  /** `element::Type::is_static()`: every type except the dynamic one. */
  predicate IsStatic(t: ElementType) {
    t != Dynamic
  }
}
