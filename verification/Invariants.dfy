/** The inductive invariant of the cluster: one part about the history alone, one part per server,
    one part per message. */
module Invariants {
  import opened Types
  import opened NodeModel
  import opened StateMachine
  import opened Cluster

  // ---------------------------------------------------------------- vocabulary

  /** Two logs hold the same entries at positions lo..hi-1, and both reach that far. */
  predicate Agree(x: seq<LogEntry>, y: seq<LogEntry>, lo: nat, hi: nat) {
    hi <= |x| && hi <= |y| && forall j :: lo <= j < hi ==> x[j] == y[j]
  }

  /** The log-freshness order on last positions. */
  predicate AtLeast(p: Position, q: Position) { p.term > q.term || (p.term == q.term && p.index >= q.index) }

  function LastPosition(log: seq<LogEntry>): Position {
    if log == [] then Position(0, 0) else Position(log[|log| - 1].term, |log|)
  }

  function TermAt(log: seq<LogEntry>, index: nat): nat {
    if 0 < index <= |log| then log[index - 1].term else 0
  }

  /** Some leader of a term up to `term` committed at least `index`. */
  ghost predicate Covered(h: History, index: nat, term: nat) {
    index == 0 || exists t :: t in h.decisions && t <= term && index <= h.decisions[t].index
  }

  /** `id` acknowledged to the leader of term `t` an entry of that term at `index`. */
  predicate AckedAt(h: History, id: NodeId, t: nat, index: nat) {
    && Key(id, t) in h.acks
    && t in h.logs
    && 1 <= index <= h.acks[Key(id, t)]
    && index <= |h.logs[t]|
    && h.logs[t][index - 1].term == t
  }

  /** A leader of a term strictly between `t` and `bound` started without the entry that term t has at `index`. */
  ghost predicate Lost(h: History, t: nat, index: nat, bound: nat) {
    t in h.logs && exists u :: t < u < bound && u in h.elections && !Agree(h.elections[u].log, h.logs[t], 0, index)
  }

  /** A log still has the acknowledged entry, all before it, and ends at least as late. */
  predicate Retained(h: History, full: seq<LogEntry>, t: nat, index: nat) {
    t in h.logs && Agree(full, h.logs[t], 0, index) && AtLeast(LastPosition(full), Position(t, index))
  }

  predicate IsQuorum(members: set<NodeId>, q: set<NodeId>) { q <= members && 2 * |q| > |members| }

  /** A quorum acknowledged the entry of term `t` at `index`. */
  predicate Chosen(h: History, members: set<NodeId>, t: nat, index: nat, q: set<NodeId>) {
    IsQuorum(members, q) && forall x {:trigger AckedAt(h, x, t, index)} :: x in q ==> AckedAt(h, x, t, index)
  }

  // ---------------------------------------------------------------- history

  /** Entry k of a log comes from the leader of its term, together with everything from `from` up to it. */
  predicate Traced(h: History, log: seq<LogEntry>, from: nat, k: nat)
    requires k < |log|
  {
    log[k].term in h.logs && Agree(log, h.logs[log[k].term], from, k + 1)
  }

  /** An entry of a leader's log is of an older term exactly when the leader was elected with it. */
  predicate LeaderEntryInv(h: History, t: nat, k: nat)
    requires t in h.logs && t in h.elections && k < |h.logs[t]|
  {
    && Traced(h, h.logs[t], 0, k)
    && (k < |h.elections[t].log| ==> h.logs[t][k].term < t)
    && (k >= |h.elections[t].log| ==> h.logs[t][k].term == t)
  }

  /** A leader's log: the log it was elected with, holding older terms, then entries of its own term. */
  predicate LeaderLogInv(h: History, t: nat)
    requires t in h.logs
  {
    && 0 < t
    && t in h.elections
    && Agree(h.logs[t], h.elections[t].log, 0, |h.elections[t].log|)
    && (forall k {:trigger LeaderEntryInv(h, t, k)} :: 0 <= k < |h.logs[t]| ==> LeaderEntryInv(h, t, k))
  }

  predicate LogsInv(h: History) {
    && h.elections.Keys == h.logs.Keys
    && forall t {:trigger LeaderLogInv(h, t)} :: t in h.logs ==> LeaderLogInv(h, t)
  }

  predicate AcksInv(h: History) {
    forall k :: k in h.acks ==> k.term in h.logs && h.acks[k] <= |h.logs[k.term]|
  }

  /** Each entry of an older term that `x` acknowledged is no later than `pos`, or was lost before `bound`. */
  ghost predicate Justified(h: History, x: NodeId, term: nat, pos: Position, bound: nat) {
    forall u: nat, i: nat {:trigger AckedAt(h, x, u, i)} :: u < term && AckedAt(h, x, u, i) ==>
      AtLeast(pos, Position(u, i)) || Lost(h, u, i, bound)
  }

  /** Every voter of a winner had lost, or found matched by the winner, each entry it had acknowledged. */
  ghost predicate VoterInv(h: History, t: nat, x: NodeId)
    requires t in h.elections
  {
    && Key(x, t) in h.votes
    && h.votes[Key(x, t)] == h.elections[t].leader
    && Justified(h, x, t, LastPosition(h.elections[t].log), t)
  }

  ghost predicate ElectionInv(h: History, members: set<NodeId>, t: nat)
    requires t in h.elections
  {
    && IsQuorum(members, h.elections[t].quorum)
    && forall x {:trigger VoterInv(h, t, x)} :: x in h.elections[t].quorum ==> VoterInv(h, t, x)
  }

  ghost predicate ElectionsInv(h: History, members: set<NodeId>) {
    forall t {:trigger ElectionInv(h, members, t)} :: t in h.elections ==> ElectionInv(h, members, t)
  }

  predicate DecisionInv(h: History, members: set<NodeId>, t: nat)
    requires t in h.decisions
  {
    && t in h.logs
    && 0 < h.decisions[t].index
    && Chosen(h, members, t, h.decisions[t].index, h.decisions[t].quorum)
    && Agree(h.logs[t], h.committed, 0, h.decisions[t].index)
  }

  ghost predicate DecisionsInv(h: History, members: set<NodeId>) {
    && (forall t {:trigger DecisionInv(h, members, t)} :: t in h.decisions ==> DecisionInv(h, members, t))
    && (h.committed == [] || exists t :: t in h.decisions && h.decisions[t].index == |h.committed|)
  }

  predicate DeliveredInv(h: History) {
    forall d :: d in h.delivered ==>
      1 <= d.index <= |h.committed| && h.committed[d.index - 1].command == d.command
  }

  ghost predicate HistInv(h: History, members: set<NodeId>) {
    && LogsInv(h)
    && AcksInv(h)
    && ElectionsInv(h, members)
    && DecisionsInv(h, members)
    && DeliveredInv(h)
  }

  // ---------------------------------------------------------------- servers

  /** Terms and votes in memory are the durable ones, unless the node stopped on a storage failure. */
  predicate TermsInv(s: Server) {
    var n := s.rep.node;
    var d := s.rep.disk.hard;
    && d.currentTerm <= n.currentTerm
    && (!n.degraded || n.role == Leader || (n.role == Candidate && s.tally.Some?) ==>
          d.currentTerm == n.currentTerm && d.votedFor == n.votedFor)
  }

  /** Entry k of a node's log traces to the leader of its term, from `from` on, and is of a term up to `term`. */
  predicate EntryInv(h: History, full: seq<LogEntry>, from: nat, k: nat, term: nat)
    requires k < |full|
  {
    full[k].term <= term && Traced(h, full, from, k)
  }

  predicate LogInv(h: History, full: seq<LogEntry>, from: nat, term: nat) {
    forall k {:trigger EntryInv(h, full, from, k, term)} :: from <= k < |full| ==> EntryInv(h, full, from, k, term)
  }

  /** The node may rely on `index` being committed. */
  ghost predicate KnownInv(h: History, full: seq<LogEntry>, index: nat, term: nat) {
    Covered(h, index, term) && Agree(full, h.committed, 0, index)
  }

  ghost predicate AckInv(h: History, id: NodeId, full: seq<LogEntry>, term: nat) {
    && (forall k :: k in h.acks && k.node == id ==> k.term <= term)
    && forall t: nat, i: nat {:trigger AckedAt(h, id, t, i)} :: AckedAt(h, id, t, i) ==>
         Retained(h, full, t, i) || Lost(h, t, i, term + 1)
  }

  ghost predicate VoteInv(h: History, id: NodeId, d: HardState) {
    && (forall k :: k in h.votes && k.node == id ==>
          && k.term <= d.currentTerm
          && (k.term == d.currentTerm ==> d.votedFor == Some(h.votes[k]))
          && Key(h.votes[k], k.term) in h.ballots
          && Justified(h, id, k.term, h.ballots[Key(h.votes[k], k.term)], k.term + 1))
    && (d.votedFor.Some? ==> Key(id, d.currentTerm) in h.votes && h.votes[Key(id, d.currentTerm)] == d.votedFor.value)
  }

  /** Elections and candidacies the node took part in are not in its future. */
  predicate PastInv(h: History, id: NodeId, term: nat) {
    && (forall t :: t in h.elections && id in h.elections[t].quorum ==> t <= term)
    && (forall t :: t in h.elections && h.elections[t].leader == id ==> t <= term)
    && (forall k :: k in h.ballots && k.node == id ==> k.term <= term)
  }

  predicate SnapshotInv(h: History, s: Server) {
    var n := s.rep.node;
    && n.snapshotIndex <= |h.committed|
    && n.snapshotIndex <= n.commitIndex
    && n.snapshotTerm == TermAt(h.committed, n.snapshotIndex)
    && (n.snapshot.None? ==> n.snapshotIndex == 0 && s.rep.disk.hard.commitIndex <= n.commitIndex)
    && (n.snapshot.Some? ==>
          && 0 < n.snapshotIndex
          && n.snapshot.value ==
             Snapshot(n.snapshotIndex, n.snapshotTerm, Encoded(Replay(h.committed[..n.snapshotIndex]))))
  }

  /** Counting index `i` for peer `p` is justified: either it is committed already or `p` acknowledged it. */
  predicate MatchInv(h: History, p: NodeId, n: Node) {
    && Get(n.matchIndex, p) <= n.LastIndex()
    && forall i :: n.commitIndex < i <= Get(n.matchIndex, p) && i <= |LogOf(h, n.currentTerm)|
                   && LogOf(h, n.currentTerm)[i - 1].term == n.currentTerm
                   ==> AckedAt(h, p, n.currentTerm, i)
  }

  predicate LeaderInv(h: History, members: set<NodeId>, id: NodeId, n: Node) {
    n.role == Leader ==>
      && n.currentTerm in h.logs
      && n.currentTerm in h.elections
      && h.elections[n.currentTerm].leader == id
      && Full(h, n) == h.logs[n.currentTerm]
      && (forall i :: 1 <= i <= |h.logs[n.currentTerm]| && h.logs[n.currentTerm][i - 1].term == n.currentTerm
                      ==> AckedAt(h, id, n.currentTerm, i))
      && (n.currentTerm in h.decisions ==> h.decisions[n.currentTerm].index <= n.commitIndex)
      && (forall p :: p in members && p != id ==>
            MatchInv(h, p, n) && 1 <= Get(n.nextIndex, p) <= n.LastIndex() + 1)
  }

  predicate CandidateInv(h: History, members: set<NodeId>, id: NodeId, s: Server) {
    var n := s.rep.node;
    n.role == Candidate && s.tally.Some? ==>
      var t := s.tally.value;
      && t.term == n.currentTerm
      && 0 < n.currentTerm
      && n.votedFor == Some(id)
      && (n.currentTerm in h.elections ==> h.elections[n.currentTerm].leader != id)
      && Key(id, n.currentTerm) in h.ballots
      && h.ballots[Key(id, n.currentTerm)] == LastPosition(Full(h, n))
      && t.granted <= members - {id}
      && (forall x :: x in t.granted ==> Key(x, n.currentTerm) in h.votes && h.votes[Key(x, n.currentTerm)] == id)
  }

  /** The index reached after the first k messages of a stream. */
  function Reached(stream: seq<ApplyMsg>, k: nat): nat
    requires k <= |stream|
  {
    if k == 0 then 0 else stream[k - 1].index
  }

  /** Message k of a stream carries what the committed log says and comes in order: a command right after
      the index before it, a snapshot after the first message beyond it. */
  predicate InOrder(committed: seq<LogEntry>, stream: seq<ApplyMsg>, k: nat)
    requires k < |stream|
  {
    && stream[k].index <= |committed|
    && (stream[k].ApplyCommand? ==>
          stream[k].index == Reached(stream, k) + 1 && stream[k].command == committed[stream[k].index - 1].command)
    && (stream[k].ApplySnapshot? ==>
          && (k > 0 ==> Reached(stream, k) < stream[k].index)
          && stream[k].data == Encoded(Replay(committed[..stream[k].index])))
  }

  predicate StreamInv(committed: seq<LogEntry>, stream: seq<ApplyMsg>) {
    forall k {:trigger InOrder(committed, stream, k)} :: 0 <= k < |stream| ==> InOrder(committed, stream, k)
  }

  /** Positions of the apply loop and of the service consuming its stream. */
  predicate ApplyInv(h: History, s: Server) {
    var n := s.rep.node;
    && n.lastApplied <= n.commitIndex
    && StreamInv(h.committed, s.stream)
    && Reached(s.stream, |s.stream|) <= n.lastApplied
    && (n.pendingSnapshot.None? ==> n.snapshotIndex <= n.lastApplied == Reached(s.stream, |s.stream|))
    && (n.pendingSnapshot.Some? ==>
          && n.pendingSnapshot == n.snapshot
          && n.lastApplied <= n.snapshotIndex
          && (s.stream == [] || Reached(s.stream, |s.stream|) < n.snapshotIndex))
    && s.handled <= |s.stream|
    && s.service.lastAppliedIndex == Reached(s.stream, s.handled)
    && s.service.lastAppliedIndex <= |h.committed|
    && s.service.store == Replay(h.committed[..s.service.lastAppliedIndex])
  }

  /** What a log and a durable record have to do with the history: it traces to leaders, its persisted
      commit index is committed, and no acknowledgement, vote or candidacy is forgotten. */
  ghost predicate DurableInv(h: History, id: NodeId, full: seq<LogEntry>, from: nat, d: HardState) {
    && LogInv(h, full, from, d.currentTerm)
    && KnownInv(h, full, d.commitIndex, d.currentTerm)
    && AckInv(h, id, full, d.currentTerm)
    && VoteInv(h, id, d)
    && PastInv(h, id, d.currentTerm)
  }

  ghost predicate ServerInv(h: History, members: set<NodeId>, id: NodeId, s: Server) {
    var full := Full(h, s.rep.node);
    var d := s.rep.disk.hard;
    && TermsInv(s)
    && SnapshotInv(h, s)
    && DurableInv(h, id, full, s.rep.node.snapshotIndex, d)
    && KnownInv(h, full, s.rep.node.commitIndex, d.currentTerm)
    && Saved(s.rep)
    && LeaderInv(h, members, id, s.rep.node)
    && CandidateInv(h, members, id, s)
    && ApplyInv(h, s)
  }

  // ---------------------------------------------------------------- messages

  ghost predicate AppendReqInv(h: History, req: AppendRequest) {
    && req.term in h.logs
    && req.term in h.elections
    && h.elections[req.term].leader == req.leader
    && req.prevLogIndex + |req.entries| <= |h.logs[req.term]|
    && req.entries == h.logs[req.term][req.prevLogIndex..req.prevLogIndex + |req.entries|]
    && req.prevLogTerm == TermAt(h.logs[req.term], req.prevLogIndex)
    && req.leaderCommit <= req.prevLogIndex + |req.entries|
    && Covered(h, req.leaderCommit, req.term)
  }

  ghost predicate SnapReqInv(h: History, req: SnapshotRequest) {
    var i := req.snapshot.lastIncludedIndex;
    && req.term in h.logs
    && 0 < i <= |h.committed|
    && Covered(h, i, req.term)
    && req.snapshot == Snapshot(i, TermAt(h.committed, i), Encoded(Replay(h.committed[..i])))
  }

  /** `from` may be counted for every entry of term `t` up to `last`. */
  predicate Acknowledged(h: History, from: NodeId, t: nat, last: nat) {
    forall i :: 1 <= i <= last && i <= |LogOf(h, t)| && LogOf(h, t)[i - 1].term == t ==>
      AckedAt(h, from, t, i) || (t in h.decisions && i <= h.decisions[t].index)
  }

  ghost predicate MessageInv(h: History, members: set<NodeId>, m: Message) {
    match m
    case VoteReq(req) =>
      && Key(req.candidate, req.term) in h.ballots
      && h.ballots[Key(req.candidate, req.term)] == Position(req.lastLogTerm, req.lastLogIndex)
    case VoteResp(from, req, resp) =>
      && from in members
      && from != req.candidate
      && (resp.granted ==> Key(from, req.term) in h.votes && h.votes[Key(from, req.term)] == req.candidate)
    case AppendReq(_, req) => AppendReqInv(h, req)
    case AppendResp(from, req, resp) =>
      && from in members
      && AppendReqInv(h, req)
      && resp.conflictIndex <= req.prevLogIndex + 1
      && (resp.success ==> Acknowledged(h, from, req.term, req.prevLogIndex + |req.entries|))
    case SnapReq(_, req) => SnapReqInv(h, req)
    case SnapResp(from, req, _) => from in members && SnapReqInv(h, req)
  }

  ghost predicate Inv(c: Cluster) {
    && HistInv(c.history, c.servers.Keys)
    && (forall id {:trigger ServerInv(c.history, c.servers.Keys, id, c.servers[id])} :: id in c.servers ==>
          ServerInv(c.history, c.servers.Keys, id, c.servers[id]))
    && (forall m :: m in c.net ==> MessageInv(c.history, c.servers.Keys, m))
  }
}
