/** The binary encoder of `lib/binary` together with the buffer it writes into,
    at the level of abstract tokens: what is written is a sequence of `Token`s,
    not bytes. A write either succeeds, and its token is staged, or fails, and
    nothing is staged; which attempt fails is fixed by a fault oracle. */
module Wire {
  import opened Values
  import Columns

  datatype Token =
    | Uvarint(n: nat)                             // an unsigned varint
    | Str(s: string)                              // a length-prefixed string
    | Elem(column: Columns.Column, item: Item)    // one value written by a column codec
    | ClientInfo                                  // the fields ClientInfo.Write owns
    | EmptyBlock                                  // an empty data block
    | Flush                                       // the buffer handed to the transport

  /** The tokens a codec writes for items `xs`, one per item, in index order. */
  function Elems(col: Columns.Column, xs: seq<Item>): (r: seq<Token>)
  {
    seq(|xs|, i requires 0 <= i < |xs| => Elem(col, xs[i]))
  }

  /** Reads back a run of element tokens; the decoding partner of `Elems`. */
  function ElemsOf(ts: seq<Token>): (r: Option<seq<Item>>)
    decreases |ts|
  {
    if ts == [] then Some([])
    else if !ts[0].Elem? then None
    else
      match ElemsOf(ts[1..])
      case None => None
      case Some(rest) => Some([ts[0].item] + rest)
  }

  /** Reads back a varint count followed by exactly that many element tokens. */
  function CountedElems(ts: seq<Token>): (r: Option<seq<Item>>)
  {
    if ts == [] || !ts[0].Uvarint? then None
    else
      match ElemsOf(ts[1..])
      case None => None
      case Some(xs) => if |xs| == ts[0].n then Some(xs) else None
  }

  lemma {:induction false} ElemsRoundTrip(col: Columns.Column, xs: seq<Item>)
    ensures ElemsOf(Elems(col, xs)) == Some(xs)
    decreases |xs|
  {
    if xs != [] {
      assert Elems(col, xs)[1..] == Elems(col, xs[1..]);
      ElemsRoundTrip(col, xs[1..]);
      assert [xs[0]] + xs[1..] == xs;
    }
  }

  /** A counted run of elements reads back as the items that were written. */
  lemma CountedRoundTrip(col: Columns.Column, xs: seq<Item>)
    ensures CountedElems([Uvarint(|xs|)] + Elems(col, xs)) == Some(xs)
  {
    ElemsRoundTrip(col, xs);
    assert ([Uvarint(|xs|)] + Elems(col, xs))[1..] == Elems(col, xs);
  }

  /** What attempt number k reports under the fault oracle `faults`. */
  function FaultAt(faults: map<nat, Error>, k: nat): Option<Error>
  {
    if k in faults then Some(faults[k]) else None
  }

  class Encoder {
    /** The tokens staged in the buffer, in order. */
    var log: seq<Token>
    /** How many writes have been attempted on this encoder. */
    var attempts: nat
    /** The fault oracle: attempt number k fails with `faults[k]`. */
    const faults: map<nat, Error>

    constructor (faults: map<nat, Error>)
      ensures this.faults == faults && log == [] && attempts == 0
    {
      this.faults := faults;
      log, attempts := [], 0;
    }

    /** One write; its token is staged only when the write succeeds. */
    method Emit(t: Token) returns (err: Option<Error>)
      modifies this
      ensures err == FaultAt(faults, old(attempts))
      ensures attempts == old(attempts) + 1
      ensures log == old(log) + (if err.None? then [t] else [])
    {
      err := FaultAt(faults, attempts);
      attempts := attempts + 1;
      if err.None? {
        log := log + [t];
      }
    }

    /** `Encoder.Uvarint(n)`: one varint write. */
    method Uvarint(n: nat) returns (err: Option<Error>)
      modifies this
      ensures err == FaultAt(faults, old(attempts))
      ensures attempts == old(attempts) + 1
      ensures log == old(log) + (if err.None? then [Token.Uvarint(n)] else [])
    {
      err := Emit(Token.Uvarint(n));
    }

    /** Discards everything staged. */
    method Reset()
      modifies this
      ensures log == [] && attempts == old(attempts)
    {
      log := [];
    }
  }

  /** What writing item `x` with codec `col` reports when it is attempt `k`:
      the codec's own verdict first, then the encoder's. */
  function ElemFault(reject: Columns.Reject, col: Columns.Column, ty: ElemType, x: Item,
                     faults: map<nat, Error>, k: nat): Option<Error>
  {
    if reject(col, ty, x).Some? then reject(col, ty, x) else FaultAt(faults, k)
  }

  /** `Column.Write(encoder, x)` for an element `x` of Go type `ty`: the codec
      checks the value and, if it accepts it, writes one element token. */
  method WriteElem(enc: Encoder, col: Columns.Column, ty: ElemType, x: Item, reject: Columns.Reject)
    returns (err: Option<Error>)
    modifies enc
    ensures err == ElemFault(reject, col, ty, x, enc.faults, old(enc.attempts))
    ensures reject(col, ty, x).Some? ==> unchanged(enc)
    ensures reject(col, ty, x).None? ==> enc.attempts == old(enc.attempts) + 1
    ensures enc.log == old(enc.log) + (if err.None? then [Elem(col, x)] else [])
  {
    err := reject(col, ty, x);
    if err.None? {
      err := enc.Emit(Elem(col, x));
    }
  }
}
