/** `clickhouse_send_query.go`: the client's query packet. The packet is a
    fixed list of fields, the frame. Some writes are checked: their failure
    ends the send and is returned. The writes of the client-info preamble and
    of the quota key are not checked. */
module Clickhouse {
  import opened Values
  import opened Wire
  import opened Protocol

  /** The peer address the client reports for itself. */
  const PeerAddress: string := "[::ffff:127.0.0.1]:0"
  /** Query kind "initial query". */
  const InitialQuery: nat := 1
  /** Interface type TCP. */
  const InterfaceTCP: nat := 1

  /** One field of the frame, and whether its write error is acted on. */
  datatype Field = Field(token: Token, checked: bool)

  /** The compression field follows the connection's preference. */
  function CompressionFlag(compress: bool): (c: nat)
    ensures c == CompressEnable <==> compress
    ensures c == CompressDisable <==> !compress
  {
    if compress then CompressEnable else CompressDisable
  }

  /** The query frame, field by field, for a server of the given revision. */
  function Frame(revision: nat, compress: bool, hostname: string, query: string): (f: seq<Field>)
    ensures |f| == if revision >= QuotaKeyRevision then 17 else 16
    // the packet type and the query id
    ensures f[0] == Field(Uvarint(ClientQuery), true) && f[1] == Field(Str(""), true)
    // the client-info preamble, none of it checked
    ensures f[2] == Field(Uvarint(InitialQuery), false) && f[3] == Field(Str(""), false)
    ensures f[4] == Field(Str(""), false) && f[5] == Field(Str(PeerAddress), false)
    ensures f[6] == Field(Uvarint(InterfaceTCP), false)
    ensures f[7] == Field(Str(hostname), false) && f[8] == Field(Str(hostname), false)
    ensures f[9] == Field(ClientInfo, true)
    // the quota key, unchecked, sits right after the client info, and only from its revision on
    ensures revision >= QuotaKeyRevision <==> !f[10].checked
    ensures !f[10].checked ==> f[10].token == Str("")
    // the settings, the query state, compression, the query text, an empty data block, the flush
    ensures f[|f| - 6] == Field(Str(""), true) && f[|f| - 5] == Field(Uvarint(StateComplete), true)
    ensures f[|f| - 4] == Field(Uvarint(CompressionFlag(compress)), true) && f[|f| - 3] == Field(Str(query), true)
    ensures f[|f| - 2] == Field(EmptyBlock, true) && f[|f| - 1] == Field(Flush, true)
    ensures forall j :: 0 <= j < |f| - 1 ==> f[j].token != Flush
  {
    [Field(Uvarint(ClientQuery), true), Field(Str(""), true)] +
    [Field(Uvarint(InitialQuery), false), Field(Str(""), false), Field(Str(""), false),
     Field(Str(PeerAddress), false), Field(Uvarint(InterfaceTCP), false),
     Field(Str(hostname), false), Field(Str(hostname), false)] +
    [Field(ClientInfo, true)] +
    (if revision >= QuotaKeyRevision then [Field(Str(""), false)] else []) +
    [Field(Str(""), true), Field(Uvarint(StateComplete), true),
     Field(Uvarint(CompressionFlag(compress)), true), Field(Str(query), true),
     Field(EmptyBlock, true), Field(Flush, true)]
  }

  /** The tokens of a frame, as written when no write fails. */
  function FieldTokens(fr: seq<Field>): (r: seq<Token>)
  {
    seq(|fr|, j requires 0 <= j < |fr| => fr[j].token)
  }

  /** Crossing the quota-key revision inserts exactly one unchecked empty
      string after the client info and changes nothing else. */
  lemma QuotaKeyInsertion(older: nat, newer: nat, compress: bool, hostname: string, query: string)
    requires older < QuotaKeyRevision <= newer
    ensures var a, b := Frame(older, compress, hostname, query), Frame(newer, compress, hostname, query);
            b == a[..10] + [Field(Str(""), false)] + a[10..]
  {
  }

  /** Where a send that has reached field j stops: at the first checked
      field from j on whose write fails, with that failure, or after the last
      field with no error. The result is the number of fields attempted and
      the error returned. Attempt k0 + i writes field i. */
  function StopFrom(fr: seq<Field>, faults: map<nat, Error>, k0: nat, j: nat): (r: (nat, Option<Error>))
    requires j <= |fr|
    ensures j <= r.0 <= |fr|
    decreases |fr| - j
  {
    if j == |fr| then (|fr|, None)
    else if FaultAt(faults, k0 + j).Some? && fr[j].checked then (j + 1, FaultAt(faults, k0 + j))
    else StopFrom(fr, faults, k0, j + 1)
  }

  /** The tokens the first n attempts staged: those of the fields whose
      write did not fail. */
  function Staged(fr: seq<Field>, faults: map<nat, Error>, k0: nat, n: nat): (r: seq<Token>)
    requires n <= |fr|
    ensures |r| <= n
  {
    if n == 0 then []
    else Staged(fr, faults, k0, n - 1) + (if FaultAt(faults, k0 + n - 1).None? then [fr[n - 1].token] else [])
  }

  /** The send ends at the first checked field whose write fails and returns
      that failure: every field it passed either was written or is
      unchecked, and a send that returns no error attempted every field. */
  lemma {:induction false} StopsAtFirstCheckedFailure(fr: seq<Field>, faults: map<nat, Error>, k0: nat, j: nat)
    requires j <= |fr|
    ensures var (n, e) := StopFrom(fr, faults, k0, j);
            (e.Some? ==> j < n && fr[n - 1].checked && e == FaultAt(faults, k0 + n - 1)) &&
            (e.None? ==> n == |fr|) &&
            forall i :: j <= i < n && (e.None? || i < n - 1) ==> FaultAt(faults, k0 + i).None? || !fr[i].checked
    decreases |fr| - j
  {
    if j < |fr| && !(FaultAt(faults, k0 + j).Some? && fr[j].checked) {
      StopsAtFirstCheckedFailure(fr, faults, k0, j + 1);
    }
  }

  /** A token is staged exactly when the write of some field carrying it
      did not fail. */
  lemma {:induction false} StagedMember(fr: seq<Field>, faults: map<nat, Error>, k0: nat, n: nat, t: Token)
    requires n <= |fr|
    ensures t in Staged(fr, faults, k0, n) <==>
            exists i :: 0 <= i < n && FaultAt(faults, k0 + i).None? && fr[i].token == t
  {
    if n > 0 {
      StagedMember(fr, faults, k0, n - 1, t);
    }
  }

  /** With no fault from field j on, the send runs to the end and succeeds. */
  lemma {:induction false} NoFaultNoStop(fr: seq<Field>, faults: map<nat, Error>, k0: nat, j: nat)
    requires j <= |fr|
    requires forall k :: k0 + j <= k < k0 + |fr| ==> k !in faults
    ensures StopFrom(fr, faults, k0, j) == (|fr|, None)
    decreases |fr| - j
  {
    if j < |fr| {
      NoFaultNoStop(fr, faults, k0, j + 1);
    }
  }

  /** With no fault among the first n attempts, they staged the first n fields. */
  lemma {:induction false} StagedAllOk(fr: seq<Field>, faults: map<nat, Error>, k0: nat, n: nat)
    requires n <= |fr|
    requires forall k :: k0 <= k < k0 + n ==> k !in faults
    ensures Staged(fr, faults, k0, n) == FieldTokens(fr)[..n]
  {
    if n > 0 {
      StagedAllOk(fr, faults, k0, n - 1);
      assert FieldTokens(fr)[..n] == FieldTokens(fr)[..n - 1] + [fr[n - 1].token];
    }
  }

  /** An encoder with `attempts`, `log` and oracle `faults` is part-way
      through a send of frame `fr` that began at attempt k0 on the staged
      tokens log0: it has attempted the first n fields, and none of them
      ended the send. */
  ghost predicate Sending(attempts: nat, log: seq<Token>, faults: map<nat, Error>,
                         fr: seq<Field>, k0: nat, log0: seq<Token>, n: nat)
  {
    n <= |fr| && attempts == k0 + n && log == log0 + Staged(fr, faults, k0, n) &&
    StopFrom(fr, faults, k0, 0) == StopFrom(fr, faults, k0, n)
  }

  /** The encoder has finished that send, which returned `err`: it attempted
      the fields up to where the send stops, staged the tokens of those whose
      write succeeded, and `err` is the failure the send stopped on. */
  ghost predicate Sent(attempts: nat, log: seq<Token>, faults: map<nat, Error>,
                      fr: seq<Field>, k0: nat, log0: seq<Token>, err: Option<Error>)
  {
    var (n, e) := StopFrom(fr, faults, k0, 0);
    err == e && attempts == k0 + n && log == log0 + Staged(fr, faults, k0, n)
  }

  /** After a query send, the transport has been handed a flush exactly when
      the send returned no error. */
  lemma FlushOnlyOnSuccess(revision: nat, compress: bool, hostname: string, query: string,
                           attempts: nat, log: seq<Token>, faults: map<nat, Error>,
                           k0: nat, log0: seq<Token>, err: Option<Error>)
    requires Sent(attempts, log, faults, Frame(revision, compress, hostname, query), k0, log0, err)
    ensures |log0| <= |log| && (Flush in log[|log0|..] <==> err.None?)
  {
    var fr := Frame(revision, compress, hostname, query);
    var (n, e) := StopFrom(fr, faults, k0, 0);
    StopsAtFirstCheckedFailure(fr, faults, k0, 0);
    StagedMember(fr, faults, k0, n, Flush);
    assert log[|log0|..] == Staged(fr, faults, k0, n);
    if e.None? {
      assert FaultAt(faults, k0 + |fr| - 1).None? && fr[|fr| - 1].token == Flush;
    }
  }

  /** A send in which no write fails returns no error, attempts every field
      and stages the whole frame. */
  lemma FaultFreeSend(fr: seq<Field>, attempts: nat, log: seq<Token>, faults: map<nat, Error>,
                      k0: nat, log0: seq<Token>, err: Option<Error>)
    requires Sent(attempts, log, faults, fr, k0, log0, err)
    requires forall k :: k0 <= k < k0 + |fr| ==> k !in faults
    ensures err.None? && attempts == k0 + |fr| && log == log0 + FieldTokens(fr)
  {
    NoFaultNoStop(fr, faults, k0, 0);
    StagedAllOk(fr, faults, k0, |fr|);
    assert FieldTokens(fr)[..|fr|] == FieldTokens(fr);
  }

  /** The connection state `sendQuery` uses. */
  class Connection {
    const encoder: Encoder
    /** The revision the server announced at handshake. */
    const revision: nat
    /** The client's compression preference. */
    const compress: bool
    /** The local host name, found once at start-up. */
    const hostname: string

    constructor (encoder: Encoder, revision: nat, compress: bool, hostname: string)
      ensures this.encoder == encoder && this.revision == revision
      ensures this.compress == compress && this.hostname == hostname
    {
      this.encoder, this.revision, this.compress, this.hostname := encoder, revision, compress, hostname;
    }

    /** `if err := write; err != nil { return err }`: the write of field n,
        whose error ends the send. */
    method Checked(t: Token, ghost fr: seq<Field>, ghost k0: nat, ghost log0: seq<Token>, ghost n: nat)
      returns (err: Option<Error>)
      requires Sending(encoder.attempts, encoder.log, encoder.faults, fr, k0, log0, n)
      requires n < |fr| && fr[n] == Field(t, true)
      modifies encoder
      ensures err.None? ==> Sending(encoder.attempts, encoder.log, encoder.faults, fr, k0, log0, n + 1)
      ensures err.Some? || n + 1 == |fr| ==> Sent(encoder.attempts, encoder.log, encoder.faults, fr, k0, log0, err)
    {
      err := encoder.Emit(t);
    }

    /** A bare write, whose error is dropped: the write of field n. */
    method Unchecked(t: Token, ghost fr: seq<Field>, ghost k0: nat, ghost log0: seq<Token>, ghost n: nat)
      requires Sending(encoder.attempts, encoder.log, encoder.faults, fr, k0, log0, n)
      requires n < |fr| && fr[n] == Field(t, false)
      modifies encoder
      ensures Sending(encoder.attempts, encoder.log, encoder.faults, fr, k0, log0, n + 1)
    {
      var ignored := encoder.Emit(t);
    }

    /** The client-info block before `ClientInfo.Write`: fields 2 to 8 of
        the frame, none of them checked. */
    method ClientInfoPreamble(ghost fr: seq<Field>, ghost k0: nat, ghost log0: seq<Token>, ghost query: string)
      requires fr == Frame(revision, compress, hostname, query)
      requires Sending(encoder.attempts, encoder.log, encoder.faults, fr, k0, log0, 2)
      modifies encoder
      ensures Sending(encoder.attempts, encoder.log, encoder.faults, fr, k0, log0, 9)
    {
      Unchecked(Uvarint(InitialQuery), fr, k0, log0, 2);
      Unchecked(Str(""), fr, k0, log0, 3);  // initial user
      Unchecked(Str(""), fr, k0, log0, 4);  // initial query id
      Unchecked(Str(PeerAddress), fr, k0, log0, 5);
      Unchecked(Uvarint(InterfaceTCP), fr, k0, log0, 6);
      Unchecked(Str(hostname), fr, k0, log0, 7);
      Unchecked(Str(hostname), fr, k0, log0, 8);
    }

    /** The rest of the send after the client info: the last six fields,
        every one checked, ending with the flush. */
    method QueryAndFlush(query: string, ghost fr: seq<Field>, ghost k0: nat, ghost log0: seq<Token>)
      returns (err: Option<Error>)
      requires fr == Frame(revision, compress, hostname, query)
      requires Sending(encoder.attempts, encoder.log, encoder.faults, fr, k0, log0, |fr| - 6)
      modifies encoder
      ensures Sent(encoder.attempts, encoder.log, encoder.faults, fr, k0, log0, err)
    {
      ghost var n := |fr| - 6;
      err := Checked(Str(""), fr, k0, log0, n);  // settings
      if err.Some? { return; }
      err := Checked(Uvarint(StateComplete), fr, k0, log0, n + 1);
      if err.Some? { return; }
      var flag := CompressDisable;
      if compress {
        flag := CompressEnable;
      }
      err := Checked(Uvarint(flag), fr, k0, log0, n + 2);
      if err.Some? { return; }
      err := Checked(Str(query), fr, k0, log0, n + 3);
      if err.Some? { return; }
      err := Checked(EmptyBlock, fr, k0, log0, n + 4);  // writeBlock of an empty block
      if err.Some? { return; }
      err := Checked(Flush, fr, k0, log0, n + 5);  // buffer.Flush
    }

    /** `sendQuery(query)`: writes the query frame for this connection and
        returns what the send stopped on; see `Sent`. */
    method SendQuery(query: string) returns (err: Option<Error>)
      modifies encoder
      ensures Sent(encoder.attempts, encoder.log, encoder.faults, Frame(revision, compress, hostname, query),
                   old(encoder.attempts), old(encoder.log), err)
    {
      ghost var fr, k0, log0 := Frame(revision, compress, hostname, query), encoder.attempts, encoder.log;
      err := Checked(Uvarint(ClientQuery), fr, k0, log0, 0);
      if err.Some? { return; }
      err := Checked(Str(""), fr, k0, log0, 1);  // query id
      if err.Some? { return; }
      ClientInfoPreamble(fr, k0, log0, query);
      err := Checked(ClientInfo, fr, k0, log0, 9);  // ClientInfo.Write
      if err.Some? { return; }
      if revision >= QuotaKeyRevision {
        Unchecked(Str(""), fr, k0, log0, 10);  // quota key
      }
      err := QueryAndFlush(query, fr, k0, log0);
    }
  }
}
