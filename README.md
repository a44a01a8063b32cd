# ClickHouse Go client: array parameters and the query packet

This project models two parts of a Go client for the ClickHouse database.

The first part is the array parameter type of `lib/types/array.go`. An `Array`
holds a value and either a column codec or an error:

- `NewArray` stores the value with the codec the registry holds for its
  type, or, for a type the registry lacks, only the error;
- `NewArrayByType` takes the codec from the column factory by ClickHouse type
  name, and keeps the value whatever the factory says;
- `GobDecode` can store an error later, and can replace the value and codec
  while an earlier error stays stored; a stored error is never cleared;
  `Value` and `WriteArray` report it first, while `GobEncode` ignores it.

The model covers:

- the `columnsMap` registry;
- both constructors;
- gob persistence (`GobEncode` / `GobDecode`);
- the two ways of serialising the elements: `Value`, which writes into a fresh
  buffer, and `WriteArray`, which writes onto the caller's encoder.

The second part is `sendQuery` of `clickhouse_send_query.go`. It writes the
client's query packet field by field. The packet has:

- the packet type and the query id;
- the client-info block;
- the quota key, for new enough servers;
- the settings, the query state, the compression flag and the query text;
- an empty data block and a flush.

Some of those writes are checked, meaning an error ends the send and is
returned. The others drop their error.

Modules:

- `Values` (values.dfy): Go values as seen through `interface{}`, their dynamic
  types, and the errors.
- `Columns` (column.dfy): column codecs by kind. A codec's verdict on one value,
  given with its Go element type (`Reject`), and `column.Factory` (`Factory`)
  are parameters.
- `Wire` (wire.dfy): the binary encoder and its buffer, at the level of tokens.
  Which write fails is fixed by a fault oracle keyed by attempt number. A failed
  write stages nothing.
- `Types` (array.dfy): `lib/types/array.go`.
- `Protocol` (protocol.dfy): the protocol constants `sendQuery` uses.
- `Clickhouse` (send_query.dfy): the query frame and `Connection.SendQuery`.

`sendQuery` is specified by a reference definition. `Frame` lists the packet's
fields and says which are checked. `StopFrom` gives where a send stops under a
fault oracle, and `Staged` gives which tokens then reach the buffer.
`Connection.SendQuery` is proved to end in exactly that state (`Sent`), and
lemmas about the reference definition prove what the source promises:

- the send stops at the first checked failure and returns it;
- the flush happens exactly when no error is returned;
- a fault-free send writes the whole frame.

## Model

| member | source | states |
|---|---|---|
| Types.Lookup | lib/types/array.go:156-172 | the registry has a codec exactly for slices of the twelve supported element types (not `[]int`); each slice type's codec writes that slice's element type; `[]time.Time` maps to a full DateTime in the local zone |
| Types.RegistryInjective | lib/types/array.go:156-172 | no two slice types share a codec, so the codec determines the slice type |
| Types.GobRegistered | lib/types/array.go:49-63 | the types registered in `init` are exactly the registry's twelve slice types plus `[]int` |
| Types.GobKnown | lib/types/array.go:49-63 | the names gob can decode for an interface value include every type registered in `init`, the nil interface and gob's own basic types and their slices, but not a bare `time.Time` |
| Types.DecodeGob | lib/types/array.go:66-69 | decoding into an `interface{}` succeeds exactly for a stream holding an interface value of a type gob knows by name, and then yields that value (which may be one the registry lacks, such as nil or `int`); bytes that are not gob fail as malformed; a concrete value is refused; an interface type gob does not know fails as not registered |
| Types.Array.New | lib/types/array.go:17-27 | a registered slice type gives an array holding the value and its codec with no error; any other type gives the "unsupported array type" error and nothing stored |
| Types.Array.NewByType | lib/types/array.go:29-40 | the factory is asked with the value's own zone when the value is a `time.Time`, else the local zone; the value is always kept, and the factory's codec or error is stored |
| Types.Array.GobDecode | lib/types/array.go:65-80 | a decode failure is stored; a decoded value of a registered slice type replaces values and codec; any other decoded type stores "unsupported array type"; a stored error is never cleared, and the returned error is the stored one |
| Types.Array.GobEncodeWith | lib/types/array.go:82-118 | the type switch accepts exactly the registry's slice types, whatever the stored error; anything else fails with "unsupported array type" |
| Types.Array.GobEncodeAsWritten | lib/types/array.go:82-118 | as written, every stream it produces is a concrete value, which decoding into `interface{}` refuses |
| Types.Array.GobEncode | lib/types/array.go:82-118 | corrected encoding (see Findings): exactly the registry's slice types encode, and what is produced decodes back to the stored values |
| Types.PersistRoundTrip | lib/types/array.go:65-118 | with the corrected encoding, encoding an array and decoding into a zero `Array` restores the values and the registry codec with no error |
| Types.PersistRoundTripAsWritten | lib/types/array.go:65-118 | with the encoding as written, the same round trip stores and returns the decode error and restores nothing |
| Types.Array.Value | lib/types/array.go:120-138 | a stored error is returned first; otherwise the result is the element count then every element, in order, exactly when the codec accepts every element; else the error is the one for the first refused element |
| Types.Array.WriteArray | lib/types/array.go:140-154 | a stored error is returned with count 0 and the encoder untouched; otherwise success iff every element write succeeds, and then the count is the length, one encoder attempt was made per element, and exactly the elements were appended; on failure the count is 0, the error is the first failing element's, the elements before it stay written, and the attempts made are one per element before it plus one for it unless its codec refused it |
| Wire.WriteElem | lib/types/array.go:132 | a value the codec refuses is reported without touching the encoder; an accepted one costs one encoder attempt and is staged exactly when that attempt succeeds |
| Wire.ElemsRoundTrip | lib/types/array.go:131-136 | the element tokens written for a slice read back as the slice |
| Wire.CountedRoundTrip | lib/types/array.go:130-137 | a count followed by the elements, as `Value` produces, reads back as exactly the elements |
| Wire.Encoder.Emit | clickhouse_send_query.go:10 | one write is one attempt; it reports the oracle's verdict for that attempt and stages its token only on success |
| Wire.Encoder.Uvarint | lib/types/array.go:130 | a varint write, with the same contract as any other write |
| Wire.Encoder.Reset | lib/types/array.go:133 | the buffer is emptied |
| Clickhouse.CompressionFlag | clickhouse_send_query.go:38-41 | the flag is "enable" exactly when the connection compresses and "disable" exactly when it does not |
| Clickhouse.Frame | clickhouse_send_query.go:10-51 | the packet field by field: 16 fields, or 17 from the quota-key revision on; which of them are checked; the client-info constants; the query text, the empty block, and the flush only as the very last field |
| Clickhouse.QuotaKeyInsertion | clickhouse_send_query.go:28-30 | crossing the quota-key revision inserts one unchecked empty string right after the client info and changes nothing else |
| Clickhouse.StopFrom | clickhouse_send_query.go:10-51 | the number of fields a send attempts lies between where it resumes and the whole frame |
| Clickhouse.Staged | clickhouse_send_query.go:10-51 | the first n attempts stage at most n tokens |
| Clickhouse.StopsAtFirstCheckedFailure | clickhouse_send_query.go:10-50 | a send that returns an error stopped right after the checked field whose write failed, and returns that failure; every field it passed was written or unchecked; a send with no error attempted every field |
| Clickhouse.StagedMember | clickhouse_send_query.go:10-51 | a token is staged exactly when some field carrying it was written without failure |
| Clickhouse.NoFaultNoStop | clickhouse_send_query.go:10-51 | with no fault ahead, the send runs to the end and returns no error |
| Clickhouse.StagedAllOk | clickhouse_send_query.go:10-51 | with no fault among the first n attempts, the first n fields are staged in order |
| Clickhouse.FlushOnlyOnSuccess | clickhouse_send_query.go:48-51 | after a send, the buffer was flushed exactly when the send returned no error |
| Clickhouse.FaultFreeSend | clickhouse_send_query.go:8-52 | a send in which no write fails returns no error, attempts every field once and stages the whole frame in order |
| Clickhouse.Connection.Checked | clickhouse_send_query.go:10-15 | a checked write either lets the send go on to the next field, or ends it with the error of the first failing checked field |
| Clickhouse.Connection.Unchecked | clickhouse_send_query.go:17-23 | an unchecked write's error is dropped and the send always goes on |
| Clickhouse.Connection.ClientInfoPreamble | clickhouse_send_query.go:16-24 | the client-info block writes frame fields 2 to 8 and never ends the send |
| Clickhouse.Connection.QueryAndFlush | clickhouse_send_query.go:32-51 | the settings, state, compression, query, empty block and flush are each checked, and the send ends as the reference definition says |
| Clickhouse.Connection.SendQuery | clickhouse_send_query.go:8-52 | the encoder ends exactly as the reference definition `Sent` says: attempts up to the first checked failure, the tokens of all successful writes staged in order, and that failure (or none) returned |

## Left out

- Logging (`ch.logf`) is left out: it has no effect on the packet.
- Byte layouts are not modelled: varints, strings, column values and gob streams are abstract tokens and values.
- A failed write stages nothing. A write that fails after putting part of its bytes in the buffer is not modelled.
- `ClientInfo.Write` and `writeBlock` each become one token. Their internal fields and their own error points are not modelled.
- The flush goes to `ch.buffer` in the source. The model records it as a `Flush` token written through the same encoder, with its own attempt number.
- `hostname` is computed once at start-up by `os.Hostname`. Here it is a field of the connection.
- The protocol constants come from `lib/protocol`, which is not part of this model. Their values (`ClientQuery` 1, `StateComplete` 2, `CompressEnable` 1, `CompressDisable` 0, quota-key revision 54060) are those of the ClickHouse native protocol.
- `reflect` is reduced to `TypeOf` over the modelled kinds of value, and `v.Index(i).Interface()` is reduced to the slice's items.
- `column.Factory` and the codecs' value checks are parameters (`Factory`, `Reject`). A check sees the codec, the element's Go type and the element, which is what the codecs' type switches look at. A factory that returns both a codec and an error is not modelled; the model stores only the error.
- Gob encoding failures other than the type switch's default (an encoder I/O error) are not modelled.
- Types.Array.Value: requires a slice and a codec when no error is stored. The model's `Value` type has no strings-as-sequences, fixed-size arrays, maps or channels, so the source's `reflect` iteration over Go strings and arrays (which `NewArrayByType` can store) is not modelled. Named slice types (such as `type IDs []int64`), which `reflect` also iterates and `NewArrayByType` can store, are not among the model's values either; `Scalar` stands only for non-indexable values. The source panics for the other non-slices the model has: `nil`, a `time.Time` and those scalars.
- Types.Array.Value: the error of the count write is ignored in the source. The model's fresh in-memory buffer never fails, so this is not observable.
- Types.Array.WriteArray: requires a slice when no error is stored, for the same reason as `Value`: Go strings, fixed-size arrays and named slice types, which `reflect` would iterate, are not among the model's values, and `nil` or a scalar makes `reflect.Value.Len` panic.
- Types.PersistRoundTrip: a decoded `time.Time` keeps only its zone offset in gob, so it comes back in `UTC`, `Local` or an unnamed fixed zone. The model's decoder returns each `TimeItem` unchanged, location included.
- Concurrency is not modelled: one goroutine owns a connection.

## Findings

| source | as written | input that shows it | evidently intended | confidence | as-written member | corrected member |
|---|---|---|---|---|---|---|
| lib/types/array.go:86-110 | each case calls `enc.Encode(t)` on the concrete slice, so the stream holds a concrete value; `GobDecode` decodes into an `interface{}`, which gob accepts only from a stream that holds an interface value | `NewArray([]int8{1})`, then `GobEncode`, then `GobDecode` of the bytes on a zero `Array`: the decode fails and the error is stored | encoding the slice as an interface value, which is what the `gob.Register` calls in `init` are for, so the round trip restores the array | not executed; follows from gob's documented rule for interface values | Types.PersistRoundTripAsWritten | Types.PersistRoundTrip |
