/** Identifiers shared by the protocol machines, the swarm and the transport. */
module Ids {
  import opened Bytes

  type ConnId = u64
  type StreamId = u64

  /** A peer is named by the multihash of its key, or, while a connection's identity is unknown, by
      the placeholder that crates/swarm/src/core.rs:753-763 derives from the connection id. The two
      kinds are kept apart and placeholders of different connections differ, which in the source
      rests on no public key encoding being the text of a placeholder. */
  datatype PeerId = Verified(multihash: Blob) | Placeholder(conn: ConnId)

  /** A stream is named by its connection and its id there. */
  type Key = (ConnId, StreamId)
}
