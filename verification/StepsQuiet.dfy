/** Steps that touch neither the log nor the durable state: timeouts, building requests, replies that
    do not commit, delivery to the state machine, the service and restarts. */
module StepsQuiet {
  import opened Types
  import opened NodeModel
  import opened StateMachine
  import opened Cluster
  import opened Invariants
  import opened Safety
  import opened Frames

  /** The part of a node that its uncompacted log and commit knowledge depend on. */
  predicate SameLog(n: Node, n': Node) {
    && n'.log == n.log
    && n'.snapshotIndex == n.snapshotIndex
    && n'.snapshotTerm == n.snapshotTerm
    && n'.snapshot == n.snapshot
    && n'.commitIndex == n.commitIndex
  }

  lemma QuietServer(h: History, members: set<NodeId>, id: NodeId, s: Server, s': Server)
    requires ServerInv(h, members, id, s)
    requires s'.rep.disk == s.rep.disk && SameLog(s.rep.node, s'.rep.node)
    requires TermsInv(s')
    requires LeaderInv(h, members, id, s'.rep.node) && CandidateInv(h, members, id, s')
    requires ApplyInv(h, s')
    ensures ServerInv(h, members, id, s')
  {
    assert Full(h, s'.rep.node) == Full(h, s.rep.node);
  }

  lemma TimeoutStep(h: History, members: set<NodeId>, id: NodeId, s: Server)
    requires ServerInv(h, members, id, s) && s.rep.node.role == Follower
    ensures ServerInv(h, members, id, s.(rep := s.rep.(node := Timeout(s.rep.node)), tally := None))
  {
    QuietServer(h, members, id, s, s.(rep := s.rep.(node := Timeout(s.rep.node)), tally := None));
  }

  /** The in-flight flags have no bearing on the invariant. */
  lemma FlightStep(h: History, members: set<NodeId>, id: NodeId, s: Server, a: set<NodeId>, b: set<NodeId>)
    requires ServerInv(h, members, id, s)
    ensures ServerInv(h, members, id, s.(rep := s.rep.(node := s.rep.node.(inFlight := a, replicatePending := b))))
  {
    var s' := s.(rep := s.rep.(node := s.rep.node.(inFlight := a, replicatePending := b)));
    LeaderSame(h, members, id, s.rep.node, s'.rep.node);
    assert Full(h, s'.rep.node) == Full(h, s.rep.node);
    QuietServer(h, members, id, s, s');
  }

  lemma LeaderSame(h: History, members: set<NodeId>, id: NodeId, n: Node, n': Node)
    requires LeaderInv(h, members, id, n) && SameLog(n, n')
    requires n'.role == n.role && n'.currentTerm == n.currentTerm
    requires n'.matchIndex == n.matchIndex && n'.nextIndex == n.nextIndex
    ensures LeaderInv(h, members, id, n')
  {
    if n.role == Leader {
      assert Full(h, n') == Full(h, n);
      forall p | p in members && p != id
        ensures MatchInv(h, p, n') && 1 <= Get(n'.nextIndex, p) <= n'.LastIndex() + 1
      {
        assert MatchInv(h, p, n);
      }
    }
  }

  /** Every AppendEntries request carries the leader's whole suffix and a commit index inside it. */
  lemma AppendRequestSound(h: History, id: NodeId, n: Node, peer: NodeId)
    requires SliceInBounds(n, peer)
    requires n.snapshotIndex <= |h.committed| && n.snapshotTerm == TermAt(h.committed, n.snapshotIndex)
    requires n.currentTerm in h.logs && n.currentTerm in h.elections && h.elections[n.currentTerm].leader == id
    requires Full(h, n) == h.logs[n.currentTerm]
    requires Covered(h, n.commitIndex, n.currentTerm) && n.commitIndex <= n.LastIndex()
    ensures AppendReqInv(h, AppendRequestFor(id, n, peer))
  {
    var prev := NextFor(n, peer) - 1;
    SuffixOf(h.committed, n.snapshotIndex, n.log, prev);
    TermInside(h.committed, n.snapshotIndex, n.log, prev);
  }

  lemma SuffixOf(x: seq<LogEntry>, s: nat, y: seq<LogEntry>, k: nat)
    requires s <= |x| && s <= k <= s + |y|
    ensures (x[..s] + y)[k..s + |y|] == y[k - s..]
  {
  }

  lemma TermInside(x: seq<LogEntry>, s: nat, y: seq<LogEntry>, k: nat)
    requires s <= |x| && s <= k <= s + |y|
    ensures TermAt(x[..s] + y, k) == if k > s then y[k - s - 1].term else TermAt(x, s)
  {
  }

  lemma SnapshotRequestSound(h: History, members: set<NodeId>, id: NodeId, s: Server)
    requires SnapshotInv(h, s) && s.rep.node.currentTerm in h.logs
    requires Covered(h, s.rep.node.commitIndex, s.rep.node.currentTerm)
    requires s.rep.node.snapshotIndex != 0 && s.rep.node.snapshot.Some?
    ensures SnapReqInv(h, SnapshotRequest(s.rep.node.currentTerm, id, s.rep.node.snapshot.value))
  {
    var n := s.rep.node;
    ExtendsSelf(h);
    CoveredGrows(h, h, n.commitIndex, n.snapshotIndex, n.currentTerm, n.currentTerm);
  }

  // ---------------------------------------------------------------- progress records

  lemma LastIndexOfTermBound(log: seq<LogEntry>, offset: nat, term: nat)
    ensures LastIndexOfTerm(log, offset, term) <= offset + |log|
  {
  }

  /** The progress records differ for `peer` only. */
  ghost predicate DiffersAt(x: map<NodeId, nat>, y: map<NodeId, nat>, peer: NodeId) {
    forall p :: p != peer ==> Get(y, p) == Get(x, p)
  }

  /** A new record for one peer keeps the leader's invariant when that record is justified. */
  lemma LeaderProgress(
    h: History, members: set<NodeId>, id: NodeId, n: Node, peer: NodeId, nx: map<NodeId, nat>, mx: map<NodeId, nat>)
    requires LeaderInv(h, members, id, n) && n.role == Leader && |Full(h, n)| == n.LastIndex()
    requires DiffersAt(n.nextIndex, nx, peer) && DiffersAt(n.matchIndex, mx, peer)
    requires peer in members && peer != id ==>
      1 <= Get(nx, peer) <= n.LastIndex() + 1 && MatchInv(h, peer, n.(matchIndex := mx))
    ensures LeaderInv(h, members, id, n.(nextIndex := nx, matchIndex := mx))
  {
    var n' := n.(nextIndex := nx, matchIndex := mx);
    assert Full(h, n') == Full(h, n);
    forall p | p in members && p != id
      ensures MatchInv(h, p, n') && 1 <= Get(n'.nextIndex, p) <= n'.LastIndex() + 1
    {
      if p != peer {
        assert MatchInv(h, p, n);
        assert Get(nx, p) == Get(n.nextIndex, p) && Get(mx, p) == Get(n.matchIndex, p);
      }
    }
  }

  /** Setting the progress record of a peer, on the server. */
  lemma ProgressStep(
    h: History, members: set<NodeId>, id: NodeId, s: Server, peer: NodeId, nx: map<NodeId, nat>, mx: map<NodeId, nat>)
    requires ServerInv(h, members, id, s) && s.rep.node.role == Leader
    requires DiffersAt(s.rep.node.nextIndex, nx, peer) && DiffersAt(s.rep.node.matchIndex, mx, peer)
    requires peer in members && peer != id ==>
      1 <= Get(nx, peer) <= s.rep.node.LastIndex() + 1 && MatchInv(h, peer, s.rep.node.(matchIndex := mx))
    ensures ServerInv(h, members, id, s.(rep := s.rep.(node := s.rep.node.(nextIndex := nx, matchIndex := mx))))
  {
    var n := s.rep.node;
    assert |Full(h, n)| == n.LastIndex();
    LeaderProgress(h, members, id, n, peer, nx, mx);
    QuietServer(h, members, id, s, s.(rep := s.rep.(node := n.(nextIndex := nx, matchIndex := mx))));
  }

  /** A refusal keeps the next index between 1 and the end of the log. */
  lemma BackOffBound(n: Node, next: nat, resp: AppendResponse, last: nat)
    requires resp.conflictIndex <= last + 1 && next <= last + 1 && n.LastIndex() <= last
    ensures 1 <= BackOff(n, next, resp) <= last + 1
  {
    LastIndexOfTermBound(n.log, n.snapshotIndex, resp.conflictTerm);
  }

  /** Progress up to an index for which the peer may be counted. */
  lemma MatchJustified(h: History, n: Node, peer: NodeId, last: nat)
    requires n.role == Leader && n.currentTerm in h.logs && Full(h, n) == h.logs[n.currentTerm]
    requires |Full(h, n)| == n.LastIndex() && MatchInv(h, peer, n)
    requires n.currentTerm in h.decisions ==> h.decisions[n.currentTerm].index <= n.commitIndex
    requires last <= |LogOf(h, n.currentTerm)| && Acknowledged(h, peer, n.currentTerm, last)
    ensures MatchInv(h, peer, n.(matchIndex := n.matchIndex[peer := Max(Get(n.matchIndex, peer), last)]))
  {
  }

  /** A snapshot acknowledgement only speaks of indices the leader has committed already. */
  lemma SnapshotAcknowledged(h: History, members: set<NodeId>, peer: NodeId, req: SnapshotRequest)
    requires HistInv(h, members) && SnapReqInv(h, req)
    ensures req.snapshot.lastIncludedIndex <= |LogOf(h, req.term)|
    ensures Acknowledged(h, peer, req.term, req.snapshot.lastIncludedIndex)
  {
    var last := req.snapshot.lastIncludedIndex;
    CommittedInLeader(h, members, last, req.term, req.term);
    forall i | 1 <= i <= last && i <= |LogOf(h, req.term)| && LogOf(h, req.term)[i - 1].term == req.term
      ensures AckedAt(h, peer, req.term, i) || (req.term in h.decisions && i <= h.decisions[req.term].index)
    {
      CommittedByOwnTerm(h, members, last, req.term, i);
    }
  }

  // ---------------------------------------------------------------- apply loop and service

  lemma StreamAppend(committed: seq<LogEntry>, stream: seq<ApplyMsg>, msg: ApplyMsg)
    requires StreamInv(committed, stream)
    requires msg.index <= |committed|
    requires msg.ApplyCommand? ==>
      msg.index == Reached(stream, |stream|) + 1 && msg.command == committed[msg.index - 1].command
    requires msg.ApplySnapshot? ==>
      && (stream != [] ==> Reached(stream, |stream|) < msg.index)
      && msg.data == Encoded(Replay(committed[..msg.index]))
    ensures StreamInv(committed, stream + [msg])
  {
    var next := stream + [msg];
    forall k {:trigger InOrder(committed, next, k)} | 0 <= k < |next| ensures InOrder(committed, next, k) {
      assert Reached(next, k) == Reached(stream, k);
      if k < |stream| {
        assert InOrder(committed, stream, k);
      }
    }
  }

  lemma DeliverSnapshotStep(h: History, members: set<NodeId>, id: NodeId, s: Server)
    requires ServerInv(h, members, id, s) && s.rep.node.pendingSnapshot.Some?
    ensures ServerInv(h, members, id, DeliverSnapshotEffect(h, s).server)
  {
    var e := DeliverSnapshotEffect(h, s);
    var (n, msg) := DeliverSnapshot(s.rep.node);
    StreamAppend(h.committed, s.stream, msg);
    LeaderSame(h, members, id, s.rep.node, n);
    assert Full(h, n) == Full(h, s.rep.node);
    QuietServer(h, members, id, s, e.server);
  }

  /** Delivering an entry hands over the committed command of that index. */
  lemma DeliverEntryApplyInv(h: History, s: Server, id: NodeId)
    requires ApplyInv(h, s) && Agree(Full(h, s.rep.node), h.committed, 0, s.rep.node.commitIndex)
    requires s.rep.node.snapshotIndex <= |h.committed|
    requires s.rep.node.pendingSnapshot.None? && HasWork(s.rep.node) && ReadInBounds(s.rep.node)
    ensures ApplyInv(h, DeliverEntryEffect(h, s, id).server)
    ensures DeliveredInv(h) ==> DeliveredInv(DeliverEntryEffect(h, s, id).history)
  {
    var n := s.rep.node;
    var k := n.lastApplied;
    assert Full(h, n)[k] == h.committed[k];
    assert Full(h, n)[k] == n.EntryAt(k + 1);
    StreamAppend(h.committed, s.stream, DeliverEntry(n).1);
  }

  lemma DeliverEntryStep(h: History, members: set<NodeId>, id: NodeId, s: Server)
    requires ServerInv(h, members, id, s)
    requires s.rep.node.pendingSnapshot.None? && HasWork(s.rep.node) && ReadInBounds(s.rep.node)
    ensures ServerInv(h, members, id, DeliverEntryEffect(h, s, id).server)
  {
    var s' := DeliverEntryEffect(h, s, id).server;
    var n, n' := s.rep.node, s'.rep.node;
    DeliverEntryApplyInv(h, s, id);
    LeaderSame(h, members, id, n, n');
    assert Full(h, n') == Full(h, n);
    QuietServer(h, members, id, s, s');
  }

  lemma ServeApplyInv(h: History, s: Server)
    requires ApplyInv(h, s) && s.handled < |s.stream|
    ensures ApplyInv(h, ServeEffect(h, s).server)
  {
    var msg := s.stream[s.handled];
    assert InOrder(h.committed, s.stream, s.handled);
    if msg.ApplyCommand? {
      ReplayStep(h.committed, msg.index - 1);
    }
  }

  lemma ServeStep(h: History, members: set<NodeId>, id: NodeId, s: Server)
    requires ServerInv(h, members, id, s) && s.handled < |s.stream|
    ensures ServerInv(h, members, id, ServeEffect(h, s).server)
  {
    ServeApplyInv(h, s);
    var s' := ServeEffect(h, s).server;
    assert s'.rep == s.rep && s'.tally == s.tally;
    QuietServer(h, members, id, s, s');
  }

  // ---------------------------------------------------------------- restart

  /** Recovery restores term, vote, snapshot and log, so no vote or acknowledgement is forgotten. */
  lemma RestartStep(h: History, members: set<NodeId>, id: NodeId, s: Server)
    requires ServerInv(h, members, id, s) && Mirror(s.rep)
    ensures ServerInv(h, members, id, Restarted(s.rep.disk))
  {
    var s' := Restarted(s.rep.disk);
    var n, n' := s.rep.node, s'.rep.node;
    assert n'.log == n.log && n'.snapshotIndex == n.snapshotIndex;
    assert Full(h, n') == Full(h, n);
    ExtendsSelf(h);
    CoveredGrows(h, h, n.commitIndex, n.snapshotIndex, s.rep.disk.hard.currentTerm, s.rep.disk.hard.currentTerm);
    assert |Full(h, n)| == n.LastIndex();
    assert h.committed[..0] == [];
  }
}
