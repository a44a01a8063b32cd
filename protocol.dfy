/** The wire constants of the ClickHouse native protocol that the query frame
    uses (the values the server's protocol definition gives them). */
module Protocol {
  /** Packet type of a client query. */
  const ClientQuery: nat := 1
  /** Query processing stage "complete": the server runs the whole query. */
  const StateComplete: nat := 2
  const CompressDisable: nat := 0
  const CompressEnable: nat := 1
  /** First server revision whose client info carries a quota key. */
  const QuotaKeyRevision: nat := 54060
}
