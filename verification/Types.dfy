/** Values shared by every module: log entries, RPC messages, snapshots and durable records.

    Node identifiers are numbers and "no vote" is `None`, which stands for the source's
    convention that identifiers are non-empty and "" means "no vote". Terms and indices are
    natural numbers: 64-bit overflow is not modelled. The cluster configuration is static, so
    it is a parameter of the operations rather than a field of a message or of the hard state.
  */
module Types {

  type NodeId = nat

  datatype Option<+T> = None | Some(value: T)

  datatype Role = Follower | Candidate | Leader

  type Store = map<string, string>

  /** A KV command after decoding. `Unknown` decodes but names no known operation;
      `Malformed` is a payload that does not decode. */
  datatype Command = Put(key: string, value: string) | Delete(key: string) | Unknown | Malformed

  /** Serialized application state: no bytes at all, the encoding of a store, or bytes that do not decode. */
  datatype Blob = NoBytes | Encoded(store: Store) | Garbage

  datatype LogEntry = LogEntry(term: nat, command: Command)

  datatype Snapshot = Snapshot(lastIncludedIndex: nat, lastIncludedTerm: nat, data: Blob)

  datatype HardState = HardState(currentTerm: nat, votedFor: Option<NodeId>, commitIndex: nat)

  datatype VoteRequest = VoteRequest(term: nat, candidate: NodeId, lastLogIndex: nat, lastLogTerm: nat)

  datatype VoteResponse = VoteResponse(term: nat, granted: bool)

  datatype AppendRequest = AppendRequest(
    term: nat, leader: NodeId, prevLogIndex: nat, prevLogTerm: nat, entries: seq<LogEntry>, leaderCommit: nat)

  datatype AppendResponse = AppendResponse(term: nat, success: bool, conflictTerm: nat, conflictIndex: nat)

  datatype SnapshotRequest = SnapshotRequest(term: nat, leader: NodeId, snapshot: Snapshot)

  datatype SnapshotResponse = SnapshotResponse(term: nat)

  /** What the consensus layer hands to the state machine. */
  datatype ApplyMsg = ApplyCommand(index: nat, command: Command) | ApplySnapshot(index: nat, data: Blob)

  /** The identity of a node and its remote peers; fixed for the life of a cluster. */
  datatype Config = Config(id: NodeId, peers: set<NodeId>) {
    function Members(): set<NodeId> { peers + {id} }

    function QuorumSize(): nat { |Members()| / 2 + 1 }
  }

  function Max(a: nat, b: nat): nat { if a < b then b else a }

  function Min(a: nat, b: nat): nat { if a < b then a else b }

  /** A Go map read: a missing key yields zero. */
  function Get(m: map<NodeId, nat>, k: NodeId): nat { if k in m then m[k] else 0 }
}
