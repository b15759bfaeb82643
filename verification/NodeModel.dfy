/** One function per locked section of a Raft node, on values.

    A `Replica` is the volatile node together with its durable storage. Every storage call has a
    boolean verdict passed in: a call that fails changes nothing on disk. Because a crash between
    two storage calls leaves the same disk as a run in which the later calls fail, these verdicts
    also describe every point at which a locked section can be cut short by a crash.
  */
module NodeModel {
  import opened Types

  datatype Node = Node(
    role: Role,
    currentTerm: nat,
    votedFor: Option<NodeId>,
    degraded: bool,
    log: seq<LogEntry>,
    snapshotIndex: nat,
    snapshotTerm: nat,
    snapshot: Option<Snapshot>,
    pendingSnapshot: Option<Snapshot>,
    commitIndex: nat,
    lastApplied: nat,
    nextIndex: map<NodeId, nat>,
    matchIndex: map<NodeId, nat>,
    inFlight: set<NodeId>,
    replicatePending: set<NodeId>)
  {
    function LastIndex(): nat { snapshotIndex + |log| }

    function LastTerm(): nat { if log == [] then snapshotTerm else log[|log| - 1].term }

    /** The entry at a Raft index above the snapshot. */
    function EntryAt(index: nat): LogEntry
      requires snapshotIndex < index <= LastIndex()
    {
      log[index - snapshotIndex - 1]
    }

    function Hard(): HardState { HardState(currentTerm, votedFor, commitIndex) }
  }

  /** Three independently written records: hard state, log with its base index, snapshot. */
  datatype Disk = Disk(hard: HardState, base: nat, log: seq<LogEntry>, snap: Option<Snapshot>)

  datatype Replica = Replica(node: Node, disk: Disk)

  // ---------------------------------------------------------------- storage calls

  function SaveHard(r: Replica, ok: bool): Replica {
    if ok then r.(disk := r.disk.(hard := r.node.Hard())) else r
  }

  function AppendLog(d: Disk, entries: seq<LogEntry>): Disk { d.(log := d.log + entries) }

  function TruncateLog(d: Disk, keep: nat): Disk { d.(log := d.log[..Min(keep, |d.log|)]) }

  function SetLog(d: Disk, base: nat, entries: seq<LogEntry>): Disk { d.(base := base, log := entries) }

  // ---------------------------------------------------------------- recovery

  /** The entries a restart keeps: leading entries already covered by the snapshot are dropped. */
  function TrimmedLog(d: Disk, snapshotIndex: nat): seq<LogEntry> {
    d.log[Min(if snapshotIndex < d.base then 0 else snapshotIndex - d.base, |d.log|)..]
  }

  function NewNode(d: Disk): Node {
    var snapIndex := if d.snap.Some? then d.snap.value.lastIncludedIndex else 0;
    var snapTerm := if d.snap.Some? then d.snap.value.lastIncludedTerm else 0;
    var log := TrimmedLog(d, snapIndex);
    var commit := if d.snap.Some? then snapIndex else d.hard.commitIndex;
    Node(
      Follower, d.hard.currentTerm, d.hard.votedFor, false,
      log, snapIndex, snapTerm, d.snap, d.snap,
      Min(Max(commit, snapIndex), snapIndex + |log|),
      if d.snap.Some? then snapIndex else 0,
      map[], map[], {}, {})
  }

  // ---------------------------------------------------------------- election

  /** The timeout step of the follower loop. */
  function Timeout(n: Node): Node { n.(role := Candidate) }

  /** Bump the term and vote for oneself; the role is left as it is. */
  function StartElection(id: NodeId, r: Replica, ok: bool): Replica {
    var n := r.node;
    if ok then SaveHard(r.(node := n.(currentTerm := n.currentTerm + 1, votedFor := Some(id))), true)
    else r.(node := n.(degraded := true, role := Follower))
  }

  /** Adopt a higher term seen in a reply. A failed write leaves the term in memory and degrades the node. */
  function StepDown(r: Replica, term: nat, ok: bool): Replica {
    var n := r.node.(currentTerm := term, votedFor := None, role := Follower);
    if ok then SaveHard(r.(node := n), true) else r.(node := n.(degraded := true))
  }

  function SetAll(m: map<NodeId, nat>, keys: set<NodeId>, value: nat): map<NodeId, nat> {
    m + map p | p in keys :: value
  }

  function BecomeLeader(cfg: Config, n: Node): Node {
    n.(role := Leader,
       nextIndex := SetAll(n.nextIndex, cfg.Members(), n.LastIndex() + 1),
       matchIndex := SetAll(n.matchIndex, cfg.Members(), 0))
  }

  /** The log-freshness comparison of a vote request. */
  predicate UpToDate(req: VoteRequest, n: Node) {
    req.lastLogTerm > n.LastTerm() || (req.lastLogTerm == n.LastTerm() && req.lastLogIndex >= n.LastIndex())
  }

  /** Adopt the term of a request, forgetting the vote; only called for a higher term. */
  function AdoptTerm(r: Replica, term: nat): Replica {
    SaveHard(r.(node := r.node.(currentTerm := term, votedFor := None)), true)
  }

  function HandleRequestVote(r: Replica, req: VoteRequest, termOk: bool, voteOk: bool)
    : (Replica, Option<VoteResponse>)
  {
    if r.node.degraded then (r, None)
    else if req.term < r.node.currentTerm then (r, Some(VoteResponse(r.node.currentTerm, false)))
    else if req.term > r.node.currentTerm && !termOk then (r, None)
    else
      var a := if req.term > r.node.currentTerm then AdoptTerm(r, req.term) else r;
      var r1 := if req.term > r.node.currentTerm then a.(node := a.node.(role := Follower)) else r;
      if r1.node.votedFor in {None, Some(req.candidate)} && UpToDate(req, r1.node) then
        if voteOk then
          (SaveHard(r1.(node := r1.node.(votedFor := Some(req.candidate))), true), Some(VoteResponse(req.term, true)))
        else (r1, None)
      else (r1, Some(VoteResponse(req.term, false)))
  }

  // ---------------------------------------------------------------- replication, follower side

  /** The first Raft index holding an entry of `term`, or 0. */
  function FirstIndexOfTerm(log: seq<LogEntry>, offset: nat, term: nat): nat {
    if log == [] then 0
    else if log[0].term == term then offset + 1
    else FirstIndexOfTerm(log[1..], offset + 1, term)
  }

  /** The last Raft index holding an entry of `term`, or 0. */
  function LastIndexOfTerm(log: seq<LogEntry>, offset: nat, term: nat): nat {
    if log == [] then 0
    else if log[|log| - 1].term == term then offset + |log|
    else LastIndexOfTerm(log[..|log| - 1], offset, term)
  }

  /** How far the incoming entries repeat the terms already stored from position `at`. */
  function Repeated(log: seq<LogEntry>, at: nat, entries: seq<LogEntry>): (k: nat)
    requires at <= |log|
    ensures k <= |entries| && at + k <= |log|
    decreases |entries|
  {
    if entries != [] && at < |log| && log[at].term == entries[0].term
    then 1 + Repeated(log, at + 1, entries[1..])
    else 0
  }

  /** The consistency check on the entry before the new ones: `None` accepts, `Some` is the refusal. */
  function Refusal(n: Node, req: AppendRequest): Option<AppendResponse> {
    if req.prevLogIndex > n.LastIndex() then
      Some(AppendResponse(req.term, false, 0, n.LastIndex() + 1))
    else if req.prevLogIndex > n.snapshotIndex && n.EntryAt(req.prevLogIndex).term != req.prevLogTerm then
      var t := n.EntryAt(req.prevLogIndex).term;
      Some(AppendResponse(req.term, false, t, FirstIndexOfTerm(n.log, n.snapshotIndex, t)))
    else if req.prevLogIndex == n.snapshotIndex && req.prevLogTerm != n.snapshotTerm then
      Some(AppendResponse(req.term, false, 0, n.snapshotIndex + 1))
    else None
  }

  /** The incoming entries above our snapshot. */
  function Fresh(n: Node, req: AppendRequest): seq<LogEntry> {
    if req.prevLogIndex >= n.snapshotIndex then req.entries
    else req.entries[Min(n.snapshotIndex - req.prevLogIndex, |req.entries|)..]
  }

  /** The position in our log at which the incoming entries start. */
  function Start(n: Node, req: AppendRequest): nat {
    if req.prevLogIndex >= n.snapshotIndex then req.prevLogIndex - n.snapshotIndex else 0
  }

  /** Merge the incoming entries: nothing to do if all repeat stored terms, otherwise drop the
      conflicting suffix and append. A failed append after a durable truncation leaves the shorter log.
      The flag tells whether every storage call succeeded. */
  function Merge(r: Replica, req: AppendRequest, truncateOk: bool, appendOk: bool): (Replica, bool)
    requires req.prevLogIndex <= r.node.LastIndex()
  {
    var n := r.node;
    var at := Start(n, req);
    var incoming := Fresh(n, req);
    var k := Repeated(n.log, at, incoming);
    if k == |incoming| then (r, true)
    else if at + k == |n.log| then
      if appendOk then (Replica(n.(log := n.log + incoming[k..]), AppendLog(r.disk, incoming[k..])), true) else (r, false)
    else if !truncateOk then (r, false)
    else
      var cut := Replica(n.(log := n.log[..at + k]), TruncateLog(r.disk, at + k));
      if appendOk then
        (Replica(cut.node.(log := cut.node.log + incoming[k..]), AppendLog(cut.disk, incoming[k..])), true)
      else (cut, false)
  }

  /** The commit index a follower adopts: never past its own last entry. */
  function FollowerCommit(n: Node, leaderCommit: nat): nat {
    if leaderCommit > n.commitIndex then Min(leaderCommit, n.LastIndex()) else n.commitIndex
  }

  datatype AppendFaults = AppendFaults(termOk: bool, truncateOk: bool, appendOk: bool, commitOk: bool)

  function HandleAppendEntries(r: Replica, req: AppendRequest, f: AppendFaults): (Replica, Option<AppendResponse>) {
    if r.node.degraded then (r, None)
    else if req.term < r.node.currentTerm then (r, Some(AppendResponse(r.node.currentTerm, false, 0, 0)))
    else if req.term > r.node.currentTerm && !f.termOk then (r, None)
    else
      var a := if req.term > r.node.currentTerm then AdoptTerm(r, req.term) else r;
      var r1 := a.(node := a.node.(role := Follower));
      var refusal := Refusal(r1.node, req);
      if refusal.Some? then (r1, refusal)
      else
        var (r2, merged) := Merge(r1, req, f.truncateOk, f.appendOk);
        if !merged then (r2, None)
        else
          var r3 := r2.(node := r2.node.(commitIndex := FollowerCommit(r2.node, req.leaderCommit)));
          if req.leaderCommit <= r2.node.commitIndex then (r3, Some(AppendResponse(req.term, true, 0, 0)))
          else if f.commitOk then (SaveHard(r3, true), Some(AppendResponse(req.term, true, 0, 0)))
          else (r3, None)
  }

  // ---------------------------------------------------------------- replication, leader side

  function NextFor(n: Node, peer: NodeId): nat { Max(Get(n.nextIndex, peer), 1) }

  /** The log accesses of the request builder stay inside the retained log. */
  predicate SliceInBounds(n: Node, peer: NodeId) {
    n.snapshotIndex < NextFor(n, peer) <= n.LastIndex() + 1
  }

  /** The AppendEntries request for a peer: the whole log from the peer's next index. */
  function AppendRequestFor(id: NodeId, n: Node, peer: NodeId): AppendRequest
    requires SliceInBounds(n, peer)
  {
    var prev := NextFor(n, peer) - 1;
    AppendRequest(
      n.currentTerm, id, prev,
      if prev > n.snapshotIndex then n.EntryAt(prev).term else n.snapshotTerm,
      n.log[prev - n.snapshotIndex..],
      n.commitIndex)
  }

  /** The builder gets to the log: the node leads and no request to the peer is in flight. */
  predicate Builds(n: Node, peer: NodeId) { n.role == Leader && peer !in n.inFlight }

  function BuildAppend(id: NodeId, n: Node, peer: NodeId): (Node, Option<AppendRequest>)
    requires Builds(n, peer) ==> SliceInBounds(n, peer)
  {
    if n.role != Leader then (n, None)
    else if peer in n.inFlight then (n.(replicatePending := n.replicatePending + {peer}), None)
    else (n.(inFlight := n.inFlight + {peer}), Some(AppendRequestFor(id, n, peer)))
  }

  function RpcDone(n: Node, peer: NodeId): Node {
    n.(inFlight := n.inFlight - {peer}, replicatePending := n.replicatePending - {peer})
  }

  /** The next index after a refusal, before the rule that a refusal must make progress. */
  function HintedNext(n: Node, next: nat, resp: AppendResponse): nat {
    if resp.conflictTerm > 0 then
      var last := LastIndexOfTerm(n.log, n.snapshotIndex, resp.conflictTerm);
      if last > 0 then last + 1
      else if resp.conflictIndex > 0 then resp.conflictIndex
      else if next > 1 then next - 1 else next
    else if resp.conflictIndex > 0 then resp.conflictIndex
    else if next > 1 then next - 1 else 1
  }

  function BackOff(n: Node, next: nat, resp: AppendResponse): nat {
    var hinted := Max(HintedNext(n, next, resp), 1);
    if hinted >= next && next > 1 then next - 1 else hinted
  }

  /** The peers known to hold the log up to `index`. */
  function Holders(cfg: Config, n: Node, index: nat): set<NodeId> {
    set p | p in cfg.peers && Get(n.matchIndex, p) >= index
  }

  /** The leader may commit `index`: it holds an entry of the current term and a quorum has it. */
  predicate Committable(cfg: Config, n: Node, index: nat) {
    && n.snapshotIndex < index <= n.LastIndex()
    && n.EntryAt(index).term == n.currentTerm
    && 1 + |Holders(cfg, n, index)| >= cfg.QuorumSize()
  }

  /** The greatest committable index at most `from`, or the present commit index. */
  function CommitTarget(cfg: Config, n: Node, from: nat): nat {
    if from <= n.commitIndex then n.commitIndex
    else if Committable(cfg, n, from) then from
    else CommitTarget(cfg, n, from - 1)
  }

  /** Advance the leader's commit index; a failed write degrades the node but keeps the new index. */
  function AdvanceCommit(cfg: Config, r: Replica, ok: bool): Replica {
    var target := CommitTarget(cfg, r.node, r.node.LastIndex());
    if target == r.node.commitIndex then r
    else
      var n := r.node.(commitIndex := target);
      if ok then SaveHard(r.(node := n), true) else r.(node := n.(degraded := true))
  }

  function RecordMatch(n: Node, peer: NodeId, index: nat): Node {
    n.(matchIndex := n.matchIndex[peer := Max(Get(n.matchIndex, peer), index)],
       nextIndex := n.nextIndex[peer := Max(Get(n.nextIndex, peer), index + 1)])
  }

  function OnAppendReply(cfg: Config, r: Replica, peer: NodeId, req: AppendRequest, resp: AppendResponse, ok: bool)
    : Replica
  {
    var n := r.node;
    if resp.term > n.currentTerm then StepDown(r, resp.term, ok)
    else if n.role != Leader || req.term != n.currentTerm then r
    else if !resp.success then
      r.(node := n.(nextIndex := n.nextIndex[peer := BackOff(n, Get(n.nextIndex, peer), resp)]))
    else
      AdvanceCommit(cfg, r.(node := RecordMatch(n, peer, req.prevLogIndex + |req.entries|)), ok)
  }

  /** Append a command to the leader's log; the second component is the index, `None` when refused. */
  function StartCommand(cfg: Config, r: Replica, command: Command, appendOk: bool, commitOk: bool)
    : (Replica, Option<nat>)
  {
    var n := r.node;
    if n.degraded || n.role != Leader || !appendOk then (r, None)
    else
      var entry := LogEntry(n.currentTerm, command);
      var index := n.LastIndex() + 1;
      var n1 := n.(log := n.log + [entry],
                   matchIndex := n.matchIndex[cfg.id := index],
                   nextIndex := n.nextIndex[cfg.id := index + 1]);
      (AdvanceCommit(cfg, Replica(n1, AppendLog(r.disk, [entry])), commitOk), Some(index))
  }

  // ---------------------------------------------------------------- snapshots

  /** Compact the log after the application serialized its state at `index`. */
  function TakeSnapshot(r: Replica, index: nat, data: Blob, saveOk: bool, setLogOk: bool): (Replica, bool) {
    var n := r.node;
    if index <= n.snapshotIndex then (r, true)
    else if index > n.LastIndex() || !saveOk then (r, false)
    else
      var snap := Snapshot(index, n.EntryAt(index).term, data);
      var log := n.log[index - n.snapshotIndex..];
      var d := r.disk.(snap := Some(snap));
      (Replica(
         n.(log := log, snapshotIndex := index, snapshotTerm := snap.lastIncludedTerm, snapshot := Some(snap)),
         if setLogOk then SetLog(d, index, log) else d),
       true)
  }

  /** The log kept under an installed snapshot: everything after its index, whatever the boundary term. */
  function KeptLog(n: Node, index: nat): seq<LogEntry> {
    if index < n.LastIndex() then n.log[if index <= n.snapshotIndex then 0 else index - n.snapshotIndex..] else []
  }

  /** A node in memory that is reset to an installed snapshot. */
  function ResetTo(n: Node, snap: Snapshot): Node {
    n.(log := KeptLog(n, snap.lastIncludedIndex),
       snapshotIndex := snap.lastIncludedIndex,
       snapshotTerm := snap.lastIncludedTerm,
       snapshot := Some(snap),
       commitIndex := Max(n.commitIndex, snap.lastIncludedIndex),
       pendingSnapshot := if snap.lastIncludedIndex > n.lastApplied then Some(snap) else n.pendingSnapshot)
  }

  /** Reset the node to an installed snapshot that is already on disk. */
  function ApplySnapshotTo(r: Replica, snap: Snapshot, hardOk: bool, setLogOk: bool): Replica {
    var n1 := ResetTo(r.node, snap);
    var r1 := SaveHard(r.(node := n1), hardOk);
    if setLogOk then r1.(disk := SetLog(r1.disk, n1.snapshotIndex, n1.log)) else r1
  }

  datatype SnapshotFaults = SnapshotFaults(termOk: bool, saveOk: bool, hardOk: bool, setLogOk: bool)

  function HandleInstallSnapshot(r: Replica, req: SnapshotRequest, f: SnapshotFaults)
    : (Replica, Option<SnapshotResponse>)
  {
    var n := r.node;
    var snap := req.snapshot;
    if n.degraded then (r, None)
    else if req.term < n.currentTerm then (r, Some(SnapshotResponse(n.currentTerm)))
    else if req.term > n.currentTerm && !f.termOk then (r, None)
    else
      var a := if req.term > n.currentTerm then AdoptTerm(r, req.term) else r;
      var r1 := a.(node := a.node.(role := Follower));
      if snap.lastIncludedIndex < n.snapshotIndex
         || (snap.lastIncludedIndex == n.snapshotIndex && snap.lastIncludedTerm == n.snapshotTerm)
      then (r1, Some(SnapshotResponse(req.term)))
      else if !f.saveOk then (r1, None)
      else
        (ApplySnapshotTo(r1.(disk := r1.disk.(snap := Some(snap))), snap, f.hardOk, f.setLogOk),
         Some(SnapshotResponse(req.term)))
  }

  /** The snapshot request for a peer that has fallen behind the compacted log. */
  function BuildSnapshot(id: NodeId, n: Node, peer: NodeId): (Node, Option<SnapshotRequest>)
    requires n.snapshotIndex != 0 ==> n.snapshot.Some?
  {
    if n.role != Leader || n.snapshotIndex == 0 || Get(n.nextIndex, peer) > n.snapshotIndex then (n, None)
    else if peer in n.inFlight then (n.(replicatePending := n.replicatePending + {peer}), None)
    else (n.(inFlight := n.inFlight + {peer}), Some(SnapshotRequest(n.currentTerm, id, n.snapshot.value)))
  }

  function OnSnapshotReply(r: Replica, peer: NodeId, req: SnapshotRequest, resp: SnapshotResponse, ok: bool): Replica {
    var n := r.node;
    if resp.term > n.currentTerm then StepDown(r, resp.term, ok)
    else if n.role != Leader || req.term != n.currentTerm then r
    else r.(node := RecordMatch(n, peer, req.snapshot.lastIncludedIndex))
  }

  // ---------------------------------------------------------------- apply loop

  /** Hand the pending snapshot to the state machine. */
  function DeliverSnapshot(n: Node): (Node, ApplyMsg)
    requires n.pendingSnapshot.Some?
  {
    var snap := n.pendingSnapshot.value;
    (n.(pendingSnapshot := None, lastApplied := Max(n.lastApplied, snap.lastIncludedIndex)),
     ApplySnapshot(snap.lastIncludedIndex, snap.data))
  }

  /** The apply loop has a committed entry to deliver. */
  predicate HasWork(n: Node) { n.lastApplied < n.commitIndex && n.lastApplied < n.LastIndex() }

  /** Reading the next entry stays inside the retained log. */
  predicate ReadInBounds(n: Node) { n.snapshotIndex <= n.lastApplied }

  /** Hand the next committed entry to the state machine. */
  function DeliverEntry(n: Node): (Node, ApplyMsg)
    requires HasWork(n) && ReadInBounds(n)
  {
    (n.(lastApplied := n.lastApplied + 1), ApplyCommand(n.lastApplied + 1, n.EntryAt(n.lastApplied + 1).command))
  }
}
