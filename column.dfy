/** The column codecs of `lib/column`, by kind only. Their byte layouts and the
    checks they make on a value are not part of this model: what a codec's
    `Write` decides about one value is the collaborator `Reject`, and
    `column.Factory` is the collaborator `Factory`. */
module Columns {
  import opened Values

  datatype Column =
    | Int8 | Int16 | Int32 | Int64
    | UInt8 | UInt16 | UInt32 | UInt64
    | Float32 | Float64
    | String
    | DateTime(isFull: bool, timezone: string)

  /** The Go element type whose values the codec writes. */
  function ElemOf(c: Column): ElemType
  {
    match c
    case Int8 => ElemType.Int8
    case Int16 => ElemType.Int16
    case Int32 => ElemType.Int32
    case Int64 => ElemType.Int64
    case UInt8 => ElemType.UInt8
    case UInt16 => ElemType.UInt16
    case UInt32 => ElemType.UInt32
    case UInt64 => ElemType.UInt64
    case Float32 => ElemType.Float32
    case Float64 => ElemType.Float64
    case String => ElemType.String
    case DateTime(_, _) => Time
  }

  /** What `Column.Write` reports for one value, given with its Go element
      type, before the encoder sees it (`None` when the codec accepts the
      value). */
  type Reject = (Column, ElemType, Item) -> Option<Error>

  /** `column.Factory(name, chType, timezone)`: resolves a declared
      ClickHouse type name to a codec, or fails. */
  type Factory = (string, string, string) -> Result<Column>
}
