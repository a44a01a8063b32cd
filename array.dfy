/** `lib/types/array.go`: an array parameter, holding a value and either a
    column codec or an error. `NewArray` stores the value with the codec the
    registry holds for its type, or only the error; `NewArrayByType` keeps the
    value whatever the column factory says; `GobDecode` may store an error
    later, or replace the value while an earlier error stays. A stored error is
    never cleared: `Value` and `WriteArray` report it first, while `GobEncode`
    ignores it. */
module Types {
  import opened Values
  import Columns
  import opened Wire

  /** The twelve element types the driver has a column codec for: signed and
      unsigned integers of 8 to 64 bits, both float widths, strings and
      timestamps. Go's platform `int` is not among them. */
  predicate Supported(e: ElemType)
  {
    e in {Int8, Int16, Int32, Int64, UInt8, UInt16, UInt32, UInt64, Float32, Float64, String, Time}
  }

  /** `columnsMap`: the codec for each supported slice type. */
  const ColumnsMap: map<GoType, Columns.Column> := map[
    SliceOf(Int8) := Columns.Int8,
    SliceOf(Int16) := Columns.Int16,
    SliceOf(Int32) := Columns.Int32,
    SliceOf(Int64) := Columns.Int64,
    SliceOf(UInt8) := Columns.UInt8,
    SliceOf(UInt16) := Columns.UInt16,
    SliceOf(UInt32) := Columns.UInt32,
    SliceOf(UInt64) := Columns.UInt64,
    SliceOf(Float32) := Columns.Float32,
    SliceOf(Float64) := Columns.Float64,
    SliceOf(String) := Columns.String,
    SliceOf(Time) := Columns.DateTime(true, Local)
  ]

  /** `columnsMap[t]`, with the miss made explicit. */
  function Lookup(t: GoType): (r: Option<Columns.Column>)
    ensures r.Some? <==> t.SliceOf? && Supported(t.elem)
    ensures r.Some? ==> Columns.ElemOf(r.value) == t.elem
    ensures t == SliceOf(Time) ==> r == Some(Columns.DateTime(true, Local))
  {
    if t in ColumnsMap then Some(ColumnsMap[t]) else None
  }

  /** No two slice types share a codec. */
  lemma RegistryInjective(t1: GoType, t2: GoType)
    requires Lookup(t1).Some? && Lookup(t1) == Lookup(t2)
    ensures t1 == t2
  {
  }

  /** The types registered with gob in `init`: the twelve supported slice
      types and `[]int`. */
  function GobRegistered(t: GoType): (r: bool)
    ensures r <==> Lookup(t).Some? || t == SliceOf(Int)
  {
    t.SliceOf? && (Supported(t.elem) || t.elem == Int)
  }

  /** The names of gob's own basic types, which gob registers for interface
      values itself, as scalars and as slices. */
  const GobBasicNames: set<string> := {
    "bool", "int", "int8", "int16", "int32", "int64",
    "uint", "uint8", "uint16", "uint32", "uint64", "uintptr",
    "float32", "float64", "complex64", "complex128", "string"
  }

  /** The dynamic types an interface value in a gob stream may carry and still
      decode: the nil interface (sent as an empty name), gob's built-in basic
      types and slices of them, and the types registered in `init`. */
  function GobKnown(t: GoType): (r: bool)
    ensures GobRegistered(t) ==> r
    ensures t == NilType ==> r
    ensures t.SliceOf? && t.elem != Time && !t.elem.Other? ==> r
    ensures t == Named("time.Time") ==> !r
  {
    match t
    case NilType => true
    // every named element type but `time.Time` is one of gob's basics, and
    // `[]time.Time` is registered in `init`
    case SliceOf(e) => if e.Other? then e.name in GobBasicNames else true
    case Named(n) => n in GobBasicNames
  }

  /** A persisted array: what gob produced for a value, sent either as a
      concrete value or as an interface value (which carries the registered
      type name), or bytes that are not a gob stream at all. The gob byte
      format is not modelled. */
  datatype Gob = Stream(v: Value, asInterface: bool) | Garbage

  /** Decoding a gob stream into an `interface{}`: the stream must hold an
      interface value, of a type gob knows by name. What decodes may still be
      a type the registry has no codec for (the nil interface, an `int`, a
      `[]bool`); `GobDecode` then stores "unsupported array type". */
  function DecodeGob(data: Gob): (r: Result<Value>)
    ensures r.Ok? <==> data.Stream? && data.asInterface && GobKnown(TypeOf(data.v))
    ensures r.Ok? ==> r.value == data.v
    ensures data.Garbage? ==> r == Err(GobMalformed)
    ensures data.Stream? && !data.asInterface ==> r == Err(GobConcreteIntoInterface(TypeOf(data.v)))
    ensures data.Stream? && data.asInterface && !GobKnown(TypeOf(data.v)) ==>
              r == Err(GobNotRegistered(TypeOf(data.v)))
  {
    match data
    case Garbage => Err(GobMalformed)
    case Stream(v, asInterface) =>
      if !asInterface then Err(GobConcreteIntoInterface(TypeOf(v)))
      else if GobKnown(TypeOf(v)) then Ok(v)
      else Err(GobNotRegistered(TypeOf(v)))
  }

  class Array {
    var err: Option<Error>
    var values: Value
    var column: Option<Columns.Column>

    /** The zero `Array`, as a receiver for `GobDecode`. */
    constructor Zero()
      ensures err == None && values == Nil && column == None
    {
      err, values, column := None, Nil, None;
    }

    /** `NewArray(v)`: the codec is looked up by the dynamic type of `v`. */
    constructor New(v: Value)
      ensures Lookup(TypeOf(v)).Some? ==> err == None && values == v && column == Lookup(TypeOf(v))
      ensures Lookup(TypeOf(v)).None? ==>
                err == Some(UnsupportedArrayType(TypeOf(v))) && values == Nil && column == None
    {
      var c := Lookup(TypeOf(v));
      if c.Some? {
        err, values, column := None, v, c;
      } else {
        err, values, column := Some(UnsupportedArrayType(TypeOf(v))), Nil, None;
      }
    }

    /** `NewArrayByType(chType, v)`: the codec comes from the column factory,
        with the time zone of `v` when `v` is itself a `time.Time`, else the
        local zone. The value is kept whatever the factory says. */
    constructor NewByType(chType: string, v: Value, factory: Columns.Factory)
      ensures values == v
      ensures var r := factory("", chType, if v.Timestamp? then v.location else Local);
              (r.Ok? ==> err == None && column == Some(r.value)) &&
              (r.Err? ==> err == Some(r.error) && column == None)
    {
      var timezone := Local;
      if v.Timestamp? {
        timezone := v.location;
      }
      var r := factory("", chType, timezone);
      values := v;
      if r.Ok? {
        err, column := None, Some(r.value);
      } else {
        err, column := Some(r.error), None;
      }
    }

    /** `GobDecode`: a decoded value is kept, with its codec, only when its
        type is in the registry; any failure is stored. A stored error is
        never cleared, and the stored error is what is returned. */
    method GobDecode(data: Gob) returns (e: Option<Error>)
      modifies this
      ensures e == err
      ensures match DecodeGob(data)
              case Err(x) => err == Some(x) && values == old(values) && column == old(column)
              case Ok(v) =>
                if Lookup(TypeOf(v)).Some?
                then err == old(err) && values == v && column == Lookup(TypeOf(v))
                else err == Some(UnsupportedArrayType(TypeOf(v))) && values == old(values) && column == old(column)
    {
      match DecodeGob(data) {
        case Ok(v) =>
          var c := Lookup(TypeOf(v));
          if c.Some? {
            values, column := v, c;
          } else {
            err := Some(UnsupportedArrayType(TypeOf(v)));
          }
        case Err(x) =>
          err := Some(x);
      }
      e := err;
    }

    /** The type switch of `GobEncode`, which admits exactly the registry's
        slice types whatever the stored error; `asInterface` says how the
        slice is handed to the gob encoder. */
    function GobEncodeWith(asInterface: bool): (r: Result<Gob>)
      reads this
      ensures r.Ok? <==> Lookup(TypeOf(values)).Some?
      ensures r.Ok? ==> r.value == Stream(values, asInterface)
      ensures r.Err? ==> r.error == UnsupportedArrayType(TypeOf(values))
    {
      match values
      case Slice(Int8, _) => Ok(Stream(values, asInterface))
      case Slice(Int16, _) => Ok(Stream(values, asInterface))
      case Slice(Int32, _) => Ok(Stream(values, asInterface))
      case Slice(Int64, _) => Ok(Stream(values, asInterface))
      case Slice(UInt8, _) => Ok(Stream(values, asInterface))
      case Slice(UInt16, _) => Ok(Stream(values, asInterface))
      case Slice(UInt32, _) => Ok(Stream(values, asInterface))
      case Slice(UInt64, _) => Ok(Stream(values, asInterface))
      case Slice(Float32, _) => Ok(Stream(values, asInterface))
      case Slice(Float64, _) => Ok(Stream(values, asInterface))
      case Slice(String, _) => Ok(Stream(values, asInterface))
      case Slice(Time, _) => Ok(Stream(values, asInterface))
      case _ => Err(UnsupportedArrayType(TypeOf(values)))
    }

    /** `GobEncode` as written: each case encodes the concrete slice `t`,
        so the stream holds a concrete value, which `GobDecode` cannot
        decode into its `interface{}`. */
    function GobEncodeAsWritten(): (r: Result<Gob>)
      reads this
      ensures r.Ok? <==> Lookup(TypeOf(values)).Some?
      ensures r.Ok? ==> DecodeGob(r.value) == Err(GobConcreteIntoInterface(TypeOf(values)))
      ensures r.Err? ==> r.error == UnsupportedArrayType(TypeOf(values))
    {
      GobEncodeWith(false)
    }

    /** `GobEncode` with the slice sent as an interface value, as the type
        registrations in `init` are for: what it produces decodes back to
        the stored values. */
    function GobEncode(): (r: Result<Gob>)
      reads this
      ensures r.Ok? <==> Lookup(TypeOf(values)).Some?
      ensures r.Ok? ==> DecodeGob(r.value) == Ok(values)
      ensures r.Err? ==> r.error == UnsupportedArrayType(TypeOf(values))
    {
      GobEncodeWith(true)
    }

    /** `Value()`: a fresh buffer holding the element count and then every
        element, written by the array's own codec; the first value the codec
        refuses discards the buffer and its error is returned. */
    method Value(reject: Columns.Reject) returns (r: Result<seq<Token>>)
      requires err.None? ==> values.Slice? && column.Some?
      ensures err.Some? ==> r == Err(err.value)
      ensures err.None? ==>
                (r.Ok? <==> forall i :: 0 <= i < |values.items| ==> reject(column.value, values.elem, values.items[i]).None?)
      ensures err.None? && r.Ok? ==>
                r.value == [Token.Uvarint(|values.items|)] + Elems(column.value, values.items)
      ensures err.None? && r.Err? ==>
                exists i :: 0 <= i < |values.items| && reject(column.value, values.elem, values.items[i]) == Some(r.error) &&
                            forall j :: 0 <= j < i ==> reject(column.value, values.elem, values.items[j]).None?
    {
      if err.Some? {
        return Err(err.value);
      }
      var xs, ty, col := values.items, values.elem, column.value;
      var buff := new Encoder(map[]);
      var _ := buff.Uvarint(|xs|);
      var i := 0;
      while i < |xs|
        invariant 0 <= i <= |xs|
        invariant buff.faults == map[]
        invariant buff.log == [Token.Uvarint(|xs|)] + Elems(col, xs[..i])
        invariant forall j :: 0 <= j < i ==> reject(col, ty, xs[j]).None?
      {
        var e := WriteElem(buff, col, ty, xs[i], reject);
        if e.Some? {
          buff.Reset();
          return Err(e.value);
        }
        assert Elems(col, xs[..i + 1]) == Elems(col, xs[..i]) + [Elem(col, xs[i])];
        i := i + 1;
      }
      assert xs[..i] == xs;
      return Ok(buff.log);
    }

    /** `WriteArray(encoder, column)`: only the elements, with the caller's
        codec and onto the caller's encoder; the element count is returned.
        Elements written before a failure stay written. */
    method WriteArray(enc: Encoder, col: Columns.Column, reject: Columns.Reject)
      returns (n: nat, e: Option<Error>)
      requires err.None? ==> values.Slice?
      modifies enc
      ensures err.Some? ==> n == 0 && e == err && unchanged(enc)
      ensures err.None? ==>
                var xs, ty, k := values.items, values.elem, old(enc.attempts);
                (e.None? <==> forall i :: 0 <= i < |xs| ==> ElemFault(reject, col, ty, xs[i], enc.faults, k + i).None?) &&
                (e.None? ==> n == |xs| && enc.attempts == k + |xs| && enc.log == old(enc.log) + Elems(col, xs)) &&
                (e.Some? ==>
                   n == 0 &&
                   exists i :: 0 <= i < |xs| && e == ElemFault(reject, col, ty, xs[i], enc.faults, k + i) &&
                               (forall j :: 0 <= j < i ==> ElemFault(reject, col, ty, xs[j], enc.faults, k + j).None?) &&
                               enc.attempts == k + i + (if reject(col, ty, xs[i]).None? then 1 else 0) &&
                               enc.log == old(enc.log) + Elems(col, xs[..i]))
    {
      if err.Some? {
        return 0, err;
      }
      var xs, ty := values.items, values.elem;
      var i := 0;
      while i < |xs|
        invariant 0 <= i <= |xs|
        invariant enc.attempts == old(enc.attempts) + i
        invariant enc.log == old(enc.log) + Elems(col, xs[..i])
        invariant forall j :: 0 <= j < i ==> ElemFault(reject, col, ty, xs[j], enc.faults, old(enc.attempts) + j).None?
      {
        e := WriteElem(enc, col, ty, xs[i], reject);
        if e.Some? {
          return 0, e;
        }
        assert Elems(col, xs[..i + 1]) == Elems(col, xs[..i]) + [Elem(col, xs[i])];
        i := i + 1;
      }
      assert xs[..i] == xs;
      return |xs|, None;
    }
  }

  /** Persisting an array and decoding it into a zero `Array` gives back the
      values, with the codec the registry holds for their type. */
  method PersistRoundTrip(a: Array) returns (b: Array, e: Option<Error>)
    requires a.GobEncode().Ok?
    ensures fresh(b)
    ensures e == None && b.err == None
    ensures b.values == a.values && b.column == Lookup(TypeOf(a.values))
  {
    var data := a.GobEncode().value;
    b := new Array.Zero();
    e := b.GobDecode(data);
  }

  /** With `GobEncode` as written, the same round trip fails for every
      supported array: the decoder stores and returns the error, and the
      values are lost. */
  method PersistRoundTripAsWritten(a: Array) returns (b: Array, e: Option<Error>)
    requires a.GobEncodeAsWritten().Ok?
    ensures fresh(b)
    ensures e == Some(GobConcreteIntoInterface(TypeOf(a.values))) && b.err == e
    ensures b.values == Nil && b.column == None
  {
    var data := a.GobEncodeAsWritten().value;
    b := new Array.Zero();
    e := b.GobDecode(data);
  }
}
