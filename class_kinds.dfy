/**
 * The Java class of an inspected property, reduced to the categories the
 * widget builders distinguish. `Unknown` stands for a class that could not be
 * resolved (ClassUtils.niceForName or WidgetBuilderUtils.getActualClassOrType
 * returning null).
 */
module ClassKinds {

  datatype PrimitiveType = BooleanType | ByteType | ShortType | IntType | LongType | FloatType | DoubleType | CharType

  datatype ClassKind =
    | Primitive(primitive: PrimitiveType)   // boolean, byte, ... char
    | Wrapper(wrapped: PrimitiveType)       // java.lang.Boolean, Byte, ... Character
    | OtherNumber                           // a java.lang.Number that is not a primitive wrapper
    | DateClass(exactlyDate: bool)          // java.util.Date itself, or one of its subclasses
    | StringClass                           // java.lang.String
    | ListClass                             // a java.util.List
    | OtherCollection                       // a java.util.Collection that is not a List
    | DataModelClass                        // a javax.faces.model.DataModel
    | ArrayClass                            // an array type
    | OtherClass                            // any other class
    | Unknown                               // no class

  /** Class.isPrimitive. */
  predicate IsPrimitive(k: ClassKind) {
    k.Primitive?
  }

  /** ClassUtils.isPrimitiveWrapper. */
  predicate IsPrimitiveWrapper(k: ClassKind) {
    k.Wrapper?
  }

  predicate IsIntegral(p: PrimitiveType) {
    p == ByteType || p == ShortType || p == IntType || p == LongType
  }

  /** Number.class.isAssignableFrom: the numeric wrappers and every other Number. */
  predicate IsNumber(k: ClassKind) {
    (k.Wrapper? && k.wrapped != BooleanType && k.wrapped != CharType) || k.OtherNumber?
  }

  /** Byte, Short, Integer or Long .class.isAssignableFrom (those four classes are final). */
  predicate IsIntegralWrapper(k: ClassKind) {
    k.Wrapper? && IsIntegral(k.wrapped)
  }

  /** Collection.class.isAssignableFrom. */
  predicate IsCollection(k: ClassKind) {
    k.ListClass? || k.OtherCollection?
  }

  /** Date.class.isAssignableFrom. */
  predicate IsDate(k: ClassKind) {
    k.DateClass?
  }

}
