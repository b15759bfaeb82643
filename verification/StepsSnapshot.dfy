/** Steps of log compaction: local snapshots and snapshots installed by a leader. */
module StepsSnapshot {
  import opened Types
  import opened NodeModel
  import opened ServiceModel
  import opened StateMachine
  import opened Cluster
  import opened Invariants
  import opened Safety
  import opened StepsElection
  import opened StepsReplication

  lemma LogInvFrom(h: History, full: seq<LogEntry>, from: nat, from': nat, t: nat)
    requires LogInv(h, full, from, t) && from <= from'
    ensures LogInv(h, full, from', t)
  {
    forall k {:trigger EntryInv(h, full, from', k, t)} | from' <= k < |full| ensures EntryInv(h, full, from', k, t) {
      assert EntryInv(h, full, from, k, t);
    }
  }

  // ---------------------------------------------------------------- local compaction

  /** A stream never goes back. */
  lemma {:induction false} ReachedGrows(committed: seq<LogEntry>, stream: seq<ApplyMsg>, j: nat, k: nat)
    requires StreamInv(committed, stream) && j <= k <= |stream|
    ensures Reached(stream, j) <= Reached(stream, k)
  {
    if j < k {
      ReachedGrows(committed, stream, j, k - 1);
      assert InOrder(committed, stream, k - 1);
    }
  }

  /** Compaction is taken at an index that is applied, hence committed, and with the state that belongs to it. */
  lemma CompactionPoint(h: History, s: Server)
    requires ApplyInv(h, s) && s.rep.node.snapshotIndex < s.service.lastAppliedIndex
    ensures s.service.lastAppliedIndex <= s.rep.node.lastApplied <= s.rep.node.commitIndex
    ensures s.rep.node.pendingSnapshot.None?
    ensures s.service.store == Replay(h.committed[..s.service.lastAppliedIndex])
  {
    ReachedGrows(h.committed, s.stream, s.handled, |s.stream|);
  }

  /** Compacting a committed prefix leaves the uncompacted log as it is. */
  lemma CompactFull(h: History, n: Node, index: nat)
    requires n.snapshotIndex < index <= n.LastIndex() && n.snapshotIndex <= |h.committed|
    requires Agree(Full(h, n), h.committed, 0, index)
    ensures h.committed[..index] + n.log[index - n.snapshotIndex..] == Full(h, n)
    ensures n.EntryAt(index).term == TermAt(h.committed, index)
  {
    var full := Full(h, n);
    assert full[index - 1] == n.EntryAt(index);
    assert full[..index] == h.committed[..index];
    assert full[index..] == n.log[index - n.snapshotIndex..];
  }

  /** The node after a successful compaction at `index`. */
  function Compacted(n: Node, index: nat, data: Blob): Node
    requires n.snapshotIndex < index <= n.LastIndex()
  {
    var snap := Snapshot(index, n.EntryAt(index).term, data);
    n.(log := n.log[index - n.snapshotIndex..], snapshotIndex := index,
       snapshotTerm := snap.lastIncludedTerm, snapshot := Some(snap))
  }

  lemma CompactLeader(h: History, members: set<NodeId>, id: NodeId, n: Node, n': Node)
    requires LeaderInv(h, members, id, n) && Full(h, n') == Full(h, n) && n'.LastIndex() == n.LastIndex()
    requires n'.role == n.role && n'.currentTerm == n.currentTerm && n'.commitIndex == n.commitIndex
    requires n'.matchIndex == n.matchIndex && n'.nextIndex == n.nextIndex
    ensures LeaderInv(h, members, id, n')
  {
    if n.role == Leader {
      forall p | p in members && p != id
        ensures MatchInv(h, p, n') && 1 <= Get(n'.nextIndex, p) <= n'.LastIndex() + 1
      {
        assert MatchInv(h, p, n);
      }
    }
  }

  lemma CompactRest(h: History, s: Server, r: Replica, index: nat)
    requires TermsInv(s) && SnapshotInv(h, s) && ApplyInv(h, s)
    requires s.rep.node.snapshotIndex < index <= s.rep.node.LastIndex()
    requires index <= s.rep.node.lastApplied && s.rep.node.pendingSnapshot.None? && index <= |h.committed|
    requires r.node == Compacted(s.rep.node, index, Encoded(Replay(h.committed[..index])))
    requires s.rep.node.EntryAt(index).term == TermAt(h.committed, index)
    requires r.disk.hard == s.rep.disk.hard
    ensures TermsInv(s.(rep := r)) && SnapshotInv(h, s.(rep := r)) && ApplyInv(h, s.(rep := r))
  {
  }

  lemma CompactServer(h: History, members: set<NodeId>, id: NodeId, s: Server, r: Replica, index: nat)
    requires ServerInv(h, members, id, s)
    requires s.rep.node.snapshotIndex < index <= s.rep.node.LastIndex() && index == s.service.lastAppliedIndex
    requires r.node == Compacted(s.rep.node, index, Encoded(s.service.store)) && r.disk.hard == s.rep.disk.hard
    requires Saved(s.rep) ==> Saved(r)
    ensures ServerInv(h, members, id, s.(rep := r))
  {
    var n := s.rep.node;
    var d := s.rep.disk.hard;
    CompactionPoint(h, s);
    CompactFull(h, n, index);
    assert Full(h, r.node) == Full(h, n);
    LogInvFrom(h, Full(h, n), n.snapshotIndex, index, d.currentTerm);
    CompactLeader(h, members, id, n, r.node);
    CompactRest(h, s, r, index);
    assert CandidateInv(h, members, id, s.(rep := r));
    hide TermsInv;
    hide SnapshotInv;
    hide Saved;
    hide LeaderInv;
    hide CandidateInv;
    hide ApplyInv;
    hide KnownInv;
    hide LogInv;
    hide AckInv;
    hide VoteInv;
    hide PastInv;
  }

  lemma CompactCases(r: Replica, index: nat, data: Blob, saveOk: bool, setLogOk: bool)
    ensures var r' := TakeSnapshot(r, index, data, saveOk, setLogOk).0;
      if r.node.snapshotIndex < index <= r.node.LastIndex() && saveOk then
        && r'.node == Compacted(r.node, index, data)
        && r'.disk.hard == r.disk.hard
        && (Saved(r) ==> Saved(r'))
      else r' == r
  {
  }

  lemma CompactStep(h: History, members: set<NodeId>, id: NodeId, s: Server, saveOk: bool, setLogOk: bool)
    requires ServerInv(h, members, id, s)
    ensures ServerInv(h, members, id, CompactEffect(h, s, saveOk, setLogOk).server)
  {
    hide ServerInv;
    hide TakeSnapshot;
    hide Saved;
    var n := s.rep.node;
    var index := s.service.lastAppliedIndex;
    CompactCases(s.rep, index, Encoded(s.service.store), saveOk, setLogOk);
    var r := CompactEffect(h, s, saveOk, setLogOk).server.rep;
    if n.snapshotIndex < index <= n.LastIndex() && saveOk {
      CompactServer(h, members, id, s, r, index);
    }
    CountersDoNotMatter(h, members, id, s.(rep := r), s.service.(appliedSinceSnap := 0), s.stopped);
    CountersDoNotMatter(h, members, id, s.(rep := r), s.service, true);
  }

  lemma CountersDoNotMatter(h: History, members: set<NodeId>, id: NodeId, s: Server, svc: Service, stopped: bool)
    requires ServerInv(h, members, id, s) && svc == s.service.(appliedSinceSnap := svc.appliedSinceSnap)
    ensures ServerInv(h, members, id, s.(service := svc, stopped := stopped))
  {
  }

  // ---------------------------------------------------------------- installed snapshots

  /** The uncompacted log after installing a snapshot at `index`: the committed prefix, then whatever the
      log held above it. */
  function Installed(h: History, full: seq<LogEntry>, index: nat): seq<LogEntry>
    requires index <= |h.committed|
  {
    h.committed[..index] + if index < |full| then full[index..] else []
  }

  lemma InstallFull(h: History, n: Node, index: nat)
    requires n.snapshotIndex < index <= |h.committed|
    ensures h.committed[..index] + KeptLog(n, index) == Installed(h, Full(h, n), index)
  {
    if index < n.LastIndex() {
      assert Full(h, n)[index..] == n.log[index - n.snapshotIndex..];
    }
  }

  lemma InstallLogInv(h: History, full: seq<LogEntry>, from: nat, index: nat, t: nat)
    requires LogInv(h, full, from, t) && from <= index <= |h.committed|
    ensures LogInv(h, Installed(h, full, index), index, t)
  {
    var full' := Installed(h, full, index);
    forall k {:trigger EntryInv(h, full', index, k, t)} | index <= k < |full'| ensures EntryInv(h, full', index, k, t) {
      assert EntryInv(h, full, from, k, t);
      assert forall j :: index <= j <= k ==> full'[j] == full[j];
    }
  }

  /** An acknowledged entry survives installing a snapshot of a leader that has it. */
  lemma InstallRetains(h: History, full: seq<LogEntry>, index: nat, t: nat, u: nat, i: nat)
    requires LogsInv(h) && t in h.logs && index <= |h.committed| && Agree(h.logs[t], h.committed, 0, index)
    requires Retained(h, full, u, i) && 1 <= i && h.logs[u][i - 1].term == u
    requires Agree(h.logs[t], h.logs[u], 0, i)
    ensures Retained(h, Installed(h, full, index), u, i)
  {
    var full' := Installed(h, full, index);
    assert forall j :: index <= j < |full| ==> full'[j] == full[j];
    if index >= |full| {
      LeaderTermsOrdered(h, t, i - 1, index - 1);
      assert full'[index - 1] == h.committed[index - 1];
    } else {
      assert LastPosition(full') == LastPosition(full);
    }
  }

  lemma InstallAckInv(h: History, id: NodeId, full: seq<LogEntry>, index: nat, t: nat)
    requires LogsInv(h) && AcksInv(h) && t in h.logs && AckInv(h, id, full, t)
    requires index <= |h.committed| && Agree(h.logs[t], h.committed, 0, index)
    ensures AckInv(h, id, Installed(h, full, index), t)
  {
    forall u: nat, i: nat {:trigger AckedAt(h, id, u, i)} | AckedAt(h, id, u, i)
      ensures Retained(h, Installed(h, full, index), u, i) || Lost(h, u, i, t + 1)
    {
      if Retained(h, full, u, i) && !Lost(h, u, i, t + 1) {
        assert LeaderLogInv(h, t);
        if u != t {
          assert Key(id, u) in h.acks && u < t;
          assert Agree(h.elections[t].log, h.logs[u], 0, i);
        }
        InstallRetains(h, full, index, t, u, i);
      }
    }
  }

  lemma InstallKnown(h: History, full: seq<LogEntry>, index: nat, k: nat, t: nat)
    requires KnownInv(h, full, k, t) && index <= |h.committed| && Covered(h, index, t)
    ensures KnownInv(h, Installed(h, full, index), k, t)
    ensures KnownInv(h, Installed(h, full, index), Max(k, index), t)
  {
    var full' := Installed(h, full, index);
    assert forall j :: index <= j < |full| ==> full'[j] == full[j];
  }

  lemma InstallDurable(
    h: History, members: set<NodeId>, id: NodeId, full: seq<LogEntry>, from: nat, d: HardState, index: nat)
    requires HistInv(h, members) && DurableInv(h, id, full, from, d) && d.currentTerm in h.logs
    requires from <= index <= |h.committed| && Covered(h, index, d.currentTerm)
    ensures DurableInv(h, id, Installed(h, full, index), index, d)
  {
    CommittedInLeader(h, members, index, d.currentTerm, d.currentTerm);
    InstallLogInv(h, full, from, index, d.currentTerm);
    InstallKnown(h, full, index, d.commitIndex, d.currentTerm);
    InstallAckInv(h, id, full, index, d.currentTerm);
  }

  lemma InstallRest(h: History, s: Server, snap: Snapshot, hardOk: bool, setLogOk: bool)
    requires TermsInv(s) && SnapshotInv(h, s) && ApplyInv(h, s) && !s.rep.node.degraded
    requires s.rep.node.snapshotIndex < snap.lastIncludedIndex <= |h.committed|
    requires var i := snap.lastIncludedIndex;
      snap == Snapshot(i, TermAt(h.committed, i), Encoded(Replay(h.committed[..i])))
    ensures var s' := s.(rep := ApplySnapshotTo(s.rep.(disk := s.rep.disk.(snap := Some(snap))), snap, hardOk, setLogOk));
      TermsInv(s') && SnapshotInv(h, s') && ApplyInv(h, s')
  {
  }

  lemma InstalledState(h: History, r: Replica, snap: Snapshot, hardOk: bool, setLogOk: bool)
    requires r.node.snapshotIndex < snap.lastIncludedIndex <= |h.committed|
    ensures var r' := ApplySnapshotTo(r.(disk := r.disk.(snap := Some(snap))), snap, hardOk, setLogOk);
      && r'.node.role == r.node.role && r'.node.snapshotIndex == snap.lastIncludedIndex
      && r'.node.commitIndex == Max(r.node.commitIndex, snap.lastIncludedIndex)
      && Full(h, r'.node) == Installed(h, Full(h, r.node), snap.lastIncludedIndex)
      && r'.disk.hard == if hardOk then HardState(r.node.currentTerm, r.node.votedFor, r'.node.commitIndex) else r.disk.hard
  {
    InstallFull(h, r.node, snap.lastIncludedIndex);
  }

  /** Installing a snapshot keeps the follower's invariant. The kept suffix is not compared with the
      snapshot's term: it stays traced to its own leaders above the snapshot, which is all the invariant asks. */
  lemma InstallServer(
    h: History, members: set<NodeId>, id: NodeId, s: Server, req: SnapshotRequest, hardOk: bool, setLogOk: bool)
    requires HistInv(h, members) && ServerInv(h, members, id, s) && SnapReqInv(h, req)
    requires s.rep.node.role == Follower && !s.rep.node.degraded && s.rep.node.currentTerm == req.term
    requires s.rep.node.snapshotIndex < req.snapshot.lastIncludedIndex
    ensures var saved := s.rep.(disk := s.rep.disk.(snap := Some(req.snapshot)));
      ServerInv(h, members, id, s.(rep := ApplySnapshotTo(saved, req.snapshot, hardOk, setLogOk)))
  {
    var n := s.rep.node;
    var d := s.rep.disk.hard;
    var i := req.snapshot.lastIncludedIndex;
    var r := ApplySnapshotTo(s.rep.(disk := s.rep.disk.(snap := Some(req.snapshot))), req.snapshot, hardOk, setLogOk);
    var s' := s.(rep := r);
    var full' := Installed(h, Full(h, n), i);
    assert TermsInv(s) && SnapshotInv(h, s) && Saved(s.rep) && ApplyInv(h, s);
    assert DurableInv(h, id, Full(h, n), n.snapshotIndex, d);
    assert KnownInv(h, Full(h, n), n.commitIndex, d.currentTerm) && d.currentTerm == req.term;
    InstalledState(h, s.rep, req.snapshot, hardOk, setLogOk);
    hide ServerInv;
    hide HistInv;
    hide ApplySnapshotTo;
    InstallRest(h, s, req.snapshot, hardOk, setLogOk);
    hide TermsInv;
    hide Saved;
    hide ApplyInv;
    hide SnapshotInv;
    hide DurableInv;
    hide KnownInv;
    hide Installed;
    InstallDurable(h, members, id, Full(h, n), n.snapshotIndex, d, i);
    InstallKnown(h, Full(h, n), i, n.commitIndex, d.currentTerm);
    DurableNewCommit(h, id, full', i, d, r.node.commitIndex);
    FollowerServer(h, members, id, s', full');
  }

  /** What an InstallSnapshot request can do to a replica. */
  lemma InstallCases(r: Replica, req: SnapshotRequest, f: SnapshotFaults)
    ensures var r' := HandleInstallSnapshot(r, req, f).0;
      var r1 := Follow(r, req.term);
      var snap := req.snapshot;
      || r' == r
      || (!r.node.degraded && r.node.currentTerm <= req.term && r' == r1)
      || (&& !r.node.degraded && r.node.currentTerm <= req.term
          && (r.node.snapshotIndex < snap.lastIncludedIndex
              || (r.node.snapshotIndex == snap.lastIncludedIndex && r.node.snapshotTerm != snap.lastIncludedTerm))
          && r' == ApplySnapshotTo(r1.(disk := r1.disk.(snap := Some(snap))), snap, f.hardOk, f.setLogOk))
  {
  }

  lemma InstallIsForward(h: History, members: set<NodeId>, id: NodeId, s: Server, req: SnapshotRequest)
    requires ServerInv(h, members, id, s) && SnapReqInv(h, req)
    requires s.rep.node.snapshotIndex == req.snapshot.lastIncludedIndex
    ensures s.rep.node.snapshotTerm == req.snapshot.lastIncludedTerm
  {
  }

  lemma InstallStep(h: History, members: set<NodeId>, id: NodeId, s: Server, req: SnapshotRequest, f: SnapshotFaults)
    requires HistInv(h, members) && ServerInv(h, members, id, s) && SnapReqInv(h, req)
    ensures ServerInv(h, members, id, InstallEffect(h, s, id, req, f).server)
  {
    hide HistInv;
    hide ServerInv;
    hide SnapReqInv;
    hide HandleInstallSnapshot;
    hide ApplySnapshotTo;
    InstallCases(s.rep, req, f);
    var n := s.rep.node;
    if !n.degraded && n.currentTerm <= req.term {
      FollowStep(h, members, id, s, req.term);
      if n.snapshotIndex == req.snapshot.lastIncludedIndex {
        InstallIsForward(h, members, id, s, req);
      } else if n.snapshotIndex < req.snapshot.lastIncludedIndex {
        InstallServer(h, members, id, s.(rep := Follow(s.rep, req.term)), req, f.hardOk, f.setLogOk);
      }
    }
  }
}
