/** The entities the mock-data manager works with: Java class descriptors,
    generic type descriptors, mock-data generators and interceptors. */
module MockTypes {

  datatype Option<+T> = None | Some(value: T)

  /** A key of the manager's mapping table (a Java String). */
  type Key = string

  /** The reserved key under which the default-null generator is installed. */
  const DEFAULT_KEY: Key := "$_DEFAULT"

  /** The eight Java primitive types. */
  datatype Primitive = Byte | Short | Int | Long | Float | Double | Boolean | Char

  /** A java.lang.Class value: a primitive class, a class or interface named by
      its fully qualified name, or an array class over a component class. */
  datatype JClass =
    | PrimitiveClass(primitive: Primitive)
    | NamedClass(qualifiedName: string)
    | ArrayClass(component: JClass)

  /** A java.lang.reflect.Type: a plain class, or a parameterized type with its
      type arguments (List<String>, Map<K, V>, ...). */
  datatype JType =
    | ClassType(clazz: JClass)
    | ParameterizedType(raw: JClass, arguments: seq<JType>)

  /** The built-in generators the manager's constructor installs, one per
      MockData* class of the mocks package. */
  datatype BuiltIn =
    | MockDataByte | MockDataByteUnboxingArray | MockDataByteBoxingArray
    | MockDataShort | MockDataShortUnboxingArray | MockDataShortBoxingArray
    | MockDataInteger | MockDataIntegerUnboxingArray | MockDataIntegerBoxingArray
    | MockDataLong | MockDataLongUnboxingArray | MockDataLongBoxingArray
    | MockDataFloat | MockDataFloatUnboxingArray | MockDataFloatBoxingArray
    | MockDataDouble | MockDataDoubleUnboxingArray | MockDataDoubleBoxingArray
    | MockDataBoolean | MockDataBooleanUnboxingArray | MockDataBooleanBoxingArray
    | MockDataCharacter | MockDataCharacterUnboxingArray | MockDataCharacterBoxingArray
    | MockDataString | MockDataStringArray
    | MockDataBigDecimal | MockDataBigDecimalArray
    | MockDataBigInteger | MockDataBigIntegerArray
    | MockDataDate | MockDataDateArray

  /** A MockData generator, by what it is rather than by what it produces:
      - BuiltIn: one of the scalar and array generators above;
      - Custom: a generator supplied by a caller of registerMockData;
      - Proxy: a MockDataProxy wrapping another generator (interceptors run around it);
      - Bean: a MockDataBean, the composite generator for an unregistered class,
        with the generic type it was asked for, if any;
      - DefaultNull: a MockDataDefaultNull, which produces null. */
  datatype Gen =
    | BuiltIn(kind: BuiltIn)
    | Custom(id: nat)
    | Proxy(target: Gen)
    | Bean(clazz: JClass, genericType: Option<JType>)
    | DefaultNull

  /** An interceptor instance, created reflectively from its class. */
  datatype Interceptor = Interceptor(clazz: JClass)

  /** The boxed class of a primitive (byte -> java.lang.Byte, ...). */
  function Boxed(p: Primitive): (c: JClass)
    ensures c.NamedClass? && c != PrimitiveClass(p)
  {
    NamedClass(match p
      case Byte => "java.lang.Byte"
      case Short => "java.lang.Short"
      case Int => "java.lang.Integer"
      case Long => "java.lang.Long"
      case Float => "java.lang.Float"
      case Double => "java.lang.Double"
      case Boolean => "java.lang.Boolean"
      case Char => "java.lang.Character")
  }
}
