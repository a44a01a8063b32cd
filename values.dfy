/** Go values as the driver sees them through `interface{}`: the dynamic type
    that `reflect.TypeOf` reports, the elements of a slice, and the errors the
    array code and its collaborators report. */
module Values {

  datatype Option<T> = None | Some(value: T)

  datatype Result<T> = Ok(value: T) | Err(error: Error)

  /** Element types of a slice. `Int` is Go's platform `int`; `Other` stands
      for every element type the driver has nothing for (`bool`, structs, ...). */
  datatype ElemType =
    | Int8 | Int16 | Int32 | Int64
    | UInt8 | UInt16 | UInt32 | UInt64
    | Float32 | Float64
    | String
    | Time
    | Int
    | Other(name: string)

  /** The dynamic type of an `interface{}` value: no type at all for `nil`,
      a slice type, or any other named type. */
  datatype GoType = NilType | SliceOf(elem: ElemType) | Named(name: string)

  /** One element of a slice. Floats are carried as their bit pattern and
      nothing computes with them. */
  datatype Item =
    | IntItem(i: int)
    | FloatItem(bits: nat)
    | TextItem(s: string)
    | TimeItem(unixNano: int, location: string)

  /** A value stored in an `interface{}`: `nil`, a slice with its elements in
      index order, a single `time.Time`, or any other value that cannot be
      indexed (a number, a struct, ...). */
  datatype Value =
    | Nil
    | Slice(elem: ElemType, items: seq<Item>)
    | Timestamp(unixNano: int, location: string)
    | Scalar(typeName: string)

  function TypeOf(v: Value): GoType
  {
    match v
    case Nil => NilType
    case Slice(e, _) => SliceOf(e)
    case Timestamp(_, _) => Named("time.Time")
    case Scalar(n) => Named(n)
  }

  /** The name of the process-local time zone, `time.Local`. */
  const Local: string := "Local"

  datatype Error =
    | UnsupportedArrayType(t: GoType)   // "unsupported array type %T"
    | GobNotRegistered(t: GoType)       // gob cannot decode an unregistered type into interface{}
    | GobConcreteIntoInterface(t: GoType) // gob cannot decode a concrete value into interface{}
    | GobMalformed                      // bytes that are not a gob stream
    | External(code: nat)               // whatever a collaborator reports: I/O, a codec, the column factory
}
