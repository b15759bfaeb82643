/** What the storage of a node is worth after a crash: where a crash between two storage calls does no harm,
    which log writes keep the stored log in step with the running one, and what the others do. */
module Durability {
  import opened Types
  import opened NodeModel
  import opened Cluster
  import opened Invariants
  import opened LogChanges
  import Preservation
  import StateMachine
  import StepsElection
  import StepsReplication
  import StepsSnapshot

  // ---------------------------------------------------------------- crashes around SetLog

  /** A crash after the snapshot is saved and before the log is rewritten restores the same node as a crash
      after both, and the log of the node that went on running. */
  lemma CompactCrash(r: Replica, index: nat, data: Blob)
    requires Mirror(r) && r.node.snapshotIndex < index <= r.node.LastIndex()
    ensures var early, late := TakeSnapshot(r, index, data, true, false).0, TakeSnapshot(r, index, data, true, true).0;
      && Mirror(early) && Mirror(late)
      && NewNode(early.disk) == NewNode(late.disk)
      && NewNode(early.disk).log == late.node.log == early.node.log
      && NewNode(early.disk).snapshotIndex == late.node.snapshotIndex
      && NewNode(early.disk).snapshotTerm == late.node.snapshotTerm
  {
    var early, late := TakeSnapshot(r, index, data, true, false).0, TakeSnapshot(r, index, data, true, true).0;
    CompactedIsTrimmed(r, early.disk, index);
    TrimNothing(late.disk);
    hide TrimmedLog;
    SameRecovery(early.disk, late.disk, early.disk.snap.value);
    hide NewNode;
  }

  lemma CompactedIsTrimmed(r: Replica, d: Disk, index: nat)
    requires Mirror(r) && r.node.snapshotIndex < index <= r.node.LastIndex()
    requires d.base == r.disk.base && d.log == r.disk.log
    ensures TrimmedLog(d, index) == r.node.log[index - r.node.snapshotIndex..]
  {
    TrimTwice(d, r.node.snapshotIndex, index);
  }

  /** Trimming a stored log to one snapshot and then cutting it at a later index is trimming it to the latter. */
  lemma TrimTwice(d: Disk, from: nat, index: nat)
    requires d.base <= from <= index
    ensures var log := TrimmedLog(d, from);
      TrimmedLog(d, index) == if index - from < |log| then log[index - from..] else []
  {
  }

  lemma TrimNothing(d: Disk)
    ensures TrimmedLog(d, d.base) == d.log
  {
  }

  /** The same for an installed snapshot, shorter or longer than the log: hard state and log may both be old. */
  lemma InstallCrash(r: Replica, snap: Snapshot, hardOk: bool)
    requires Mirror(r) && r.node.snapshotIndex < snap.lastIncludedIndex
    ensures var saved := r.(disk := r.disk.(snap := Some(snap)));
      var early, late := ApplySnapshotTo(saved, snap, hardOk, false), ApplySnapshotTo(saved, snap, hardOk, true);
      && Mirror(early) && Mirror(late)
      && NewNode(early.disk) == NewNode(late.disk)
      && NewNode(early.disk).log == late.node.log == early.node.log == KeptLog(r.node, snap.lastIncludedIndex)
      && NewNode(saved.disk).log == late.node.log
      && NewNode(saved.disk).snapshotIndex == late.node.snapshotIndex == snap.lastIncludedIndex
      && NewNode(saved.disk).commitIndex == snap.lastIncludedIndex <= late.node.commitIndex
  {
    var saved := r.(disk := r.disk.(snap := Some(snap)));
    var early, late := ApplySnapshotTo(saved, snap, hardOk, false), ApplySnapshotTo(saved, snap, hardOk, true);
    KeptIsTrimmed(r, saved.disk, snap.lastIncludedIndex);
    KeptIsTrimmed(r, early.disk, snap.lastIncludedIndex);
    TrimNothing(late.disk);
    hide KeptLog;
    hide TrimmedLog;
    Recovered(saved.disk, snap);
    SameRecovery(early.disk, late.disk, snap);
    hide NewNode;
  }

  /** What an installed snapshot keeps of the log is what trimming the old stored log to it leaves. */
  lemma KeptIsTrimmed(r: Replica, d: Disk, index: nat)
    requires Mirror(r) && r.node.snapshotIndex < index && d.base == r.disk.base && d.log == r.disk.log
    ensures TrimmedLog(d, index) == KeptLog(r.node, index)
  {
    TrimTwice(d, r.node.snapshotIndex, index);
  }

  lemma Recovered(d: Disk, snap: Snapshot)
    requires d.snap == Some(snap)
    ensures var n := NewNode(d);
      && n.log == TrimmedLog(d, snap.lastIncludedIndex) && n.snapshotIndex == snap.lastIncludedIndex == n.commitIndex
  {
    hide TrimmedLog;
  }

  lemma SameRecovery(d: Disk, d': Disk, snap: Snapshot)
    requires d.snap == d'.snap == Some(snap) && d.hard == d'.hard
    requires TrimmedLog(d, snap.lastIncludedIndex) == TrimmedLog(d', snap.lastIncludedIndex)
    ensures NewNode(d) == NewNode(d') && NewNode(d).log == TrimmedLog(d, snap.lastIncludedIndex)
    ensures NewNode(d).snapshotIndex == snap.lastIncludedIndex && NewNode(d).snapshotTerm == snap.lastIncludedTerm
  {
    hide TrimmedLog;
  }

  // ---------------------------------------------------------------- which log writes land

  /** The stored log starts right after the snapshot. */
  predicate Aligned(r: Replica) { r.disk.base == r.node.snapshotIndex }

  /** The stored log extends at least to the snapshot. */
  predicate Reaches(r: Replica) { r.node.snapshotIndex <= r.disk.base + |r.disk.log| }

  function Extended(r: Replica, tail: seq<LogEntry>): Replica {
    Replica(r.node.(log := r.node.log + tail), AppendLog(r.disk, tail))
  }

  function Cut(r: Replica, keep: nat): Replica
    requires keep <= |r.node.log|
  {
    Replica(r.node.(log := r.node.log[..keep]), TruncateLog(r.disk, keep))
  }

  /** Appending to a store whose base may lag behind the snapshot keeps log and store in step exactly when the
      store reaches up to the snapshot. */
  lemma AppendMirrors(r: Replica, tail: seq<LogEntry>)
    requires Mirror(r) && tail != []
    ensures Mirror(Extended(r, tail)) <==> Reaches(r)
  {
    var lag := r.node.snapshotIndex - r.disk.base;
    if lag <= |r.disk.log| {
      assert (r.disk.log + tail)[lag..] == r.disk.log[lag..] + tail;
    } else {
      assert |TrimmedLog(AppendLog(r.disk, tail), r.node.snapshotIndex)| < |tail|;
    }
  }

  /** Cutting a log and appending keeps log and store in step exactly when the store starts at the snapshot;
      a cut whose append fails also when it leaves nothing. */
  lemma CutMirrors(r: Replica, cut: nat, tail: seq<LogEntry>)
    requires Mirror(r) && cut < |r.node.log|
    ensures Mirror(Extended(Cut(r, cut), tail)) <==> Aligned(r) || (cut == 0 && tail == [])
  {
    var d := AppendLog(TruncateLog(r.disk, cut), tail);
    assert d.log == r.disk.log[..cut] + tail;
    if Aligned(r) {
      assert r.disk.log[0..] == r.disk.log && d.log[0..] == d.log;
    } else if cut + |tail| > 0 {
      assert |TrimmedLog(d, r.node.snapshotIndex)| < cut + |tail|;
    }
  }

  /** The writes of a merge land: there is nothing to write, or entries are appended to a store that reaches the
      snapshot, or a cut is made in a store that starts at the snapshot or leaves nothing at all. */
  predicate MergeLands(r: Replica, req: AppendRequest, truncateOk: bool, appendOk: bool)
    requires req.prevLogIndex <= r.node.LastIndex()
  {
    var n := r.node;
    var k := Repeated(n.log, Start(n, req), Fresh(n, req));
    || k == |Fresh(n, req)|
    || if Start(n, req) + k == |n.log| then appendOk ==> Reaches(r)
       else truncateOk ==> Aligned(r) || (Start(n, req) + k == 0 && !appendOk)
  }

  /** For every outcome of its storage calls, a merge leaves a log that a restart restores exactly when its
      writes land. */
  lemma MergeMirrors(r: Replica, req: AppendRequest, truncateOk: bool, appendOk: bool)
    requires Mirror(r) && req.prevLogIndex <= r.node.LastIndex()
    ensures Mirror(Merge(r, req, truncateOk, appendOk).0) <==> MergeLands(r, req, truncateOk, appendOk)
  {
    hide Fresh;
    hide Repeated;
    hide Mirror;
    MergeWrites(r, req, truncateOk, appendOk);
    hide Merge;
    var n := r.node;
    var at, k, incoming := Start(n, req), Repeated(n.log, Start(n, req), Fresh(n, req)), Fresh(n, req);
    hide Start;
    hide Extended;
    hide Cut;
    if k < |incoming| {
      if at + k == |n.log| {
        AppendMirrors(r, incoming[k..]);
      } else {
        CutMirrors(r, at + k, incoming[k..]);
        CutMirrors(r, at + k, []);
      }
    }
  }

  lemma MergeWrites(r: Replica, req: AppendRequest, truncateOk: bool, appendOk: bool)
    requires req.prevLogIndex <= r.node.LastIndex()
    ensures var n := r.node;
      var at, k, incoming := Start(n, req), Repeated(n.log, Start(n, req), Fresh(n, req)), Fresh(n, req);
      Merge(r, req, truncateOk, appendOk).0 ==
        if k == |incoming| then r
        else if at + k == |n.log| then (if appendOk then Extended(r, incoming[k..]) else r)
        else if !truncateOk then r
        else Extended(Cut(r, at + k), if appendOk then incoming[k..] else [])
  {
    hide Fresh;
    hide Repeated;
  }

  /** A request that gets as far as the merge. */
  predicate Merges(r: Replica, req: AppendRequest, f: AppendFaults) {
    && !r.node.degraded
    && r.node.currentTerm <= req.term
    && (r.node.currentTerm < req.term ==> f.termOk)
    && Refusal(r.node, req).None?
  }

  /** The log writes of an action land. */
  predicate Lands(c: Cluster, a: Action)
    requires Enabled(c, a)
  {
    var r := c.servers[a.id].rep;
    match a
    case DoStartCommand(_, _, appendOk, _) => r.node.role == Leader && !r.node.degraded && appendOk ==> Reaches(r)
    case DoAppend(_, req, f) => Merges(r, req, f) ==> MergeLands(r, req, f.truncateOk, f.appendOk)
    case _ => true
  }

  /** Two replicas with the same log and the same stores apart from the hard state. */
  predicate SameStore(r: Replica, r': Replica) { KeepsLog(r, r') && r'.node.snapshotTerm == r.node.snapshotTerm }

  lemma SameStoreMirrors(r: Replica, r': Replica)
    requires KeepsLog(r, r')
    ensures Mirror(r') <==> Mirror(r)
  {
  }

  lemma SameStoreMerges(r: Replica, r1: Replica, req: AppendRequest, truncateOk: bool, appendOk: bool)
    requires SameStore(r, r1)
    ensures Refusal(r1.node, req).None? <==> Refusal(r.node, req).None?
    ensures req.prevLogIndex <= r.node.LastIndex() ==>
      (MergeLands(r1, req, truncateOk, appendOk) <==> MergeLands(r, req, truncateOk, appendOk))
  {
    hide Repeated;
  }

  lemma AppendHandlerMirrors(r: Replica, req: AppendRequest, f: AppendFaults)
    requires Mirror(r)
    ensures Mirror(HandleAppendEntries(r, req, f).0) <==>
      (Merges(r, req, f) ==> MergeLands(r, req, f.truncateOk, f.appendOk))
  {
    var r1 := StepsElection.Follow(r, req.term);
    var r' := HandleAppendEntries(r, req, f).0;
    StepsReplication.AppendCases(r, req, f);
    SameStoreMirrors(r, r1);
    SameStoreMerges(r, r1, req, f.truncateOk, f.appendOk);
    hide HandleAppendEntries;
    hide MergeLands;
    hide Mirror;
    hide Refusal;
    if Merges(r, req, f) {
      AcceptedInLog(r1.node, req);
      MergeMirrors(r1, req, f.truncateOk, f.appendOk);
      SameStoreMirrors(Merge(r1, req, f.truncateOk, f.appendOk).0, r');
    }
  }

  lemma AcceptedInLog(n: Node, req: AppendRequest)
    requires Refusal(n, req).None?
    ensures req.prevLogIndex <= n.LastIndex()
  {
  }

  lemma CommandMirrors(cfg: Config, r: Replica, command: Command, appendOk: bool, commitOk: bool)
    requires Mirror(r)
    ensures Mirror(NodeModel.StartCommand(cfg, r, command, appendOk, commitOk).0) <==>
      (r.node.role == Leader && !r.node.degraded && appendOk ==> Reaches(r))
  {
    hide CommitTarget;
    AppendMirrors(r, [LogEntry(r.node.currentTerm, command)]);
  }

  lemma CompactMirrors(r: Replica, index: nat, data: Blob, saveOk: bool, setLogOk: bool)
    requires Mirror(r)
    ensures Mirror(TakeSnapshot(r, index, data, saveOk, setLogOk).0)
  {
    if r.node.snapshotIndex < index <= r.node.LastIndex() && saveOk {
      CompactCrash(r, index, data);
    }
  }

  lemma InstallMirrors(r: Replica, req: SnapshotRequest, f: SnapshotFaults)
    requires Mirror(r)
    requires r.node.snapshotIndex == req.snapshot.lastIncludedIndex ==> r.node.snapshotTerm == req.snapshot.lastIncludedTerm
    ensures Mirror(HandleInstallSnapshot(r, req, f).0)
  {
    var r1 := StepsElection.Follow(r, req.term);
    SameStoreMirrors(r, r1);
    StepsSnapshot.InstallCases(r, req, f);
    hide HandleInstallSnapshot;
    hide Mirror;
    hide ApplySnapshotTo;
    if r.node.snapshotIndex < req.snapshot.lastIncludedIndex {
      InstallCrash(r1, req.snapshot, f.hardOk);
    }
  }

  /** A restart, and every successful rewrite of the stored log, puts log and store in step whatever they were. */
  lemma RewriteMirrors(r: Replica, index: nat, data: Blob, snap: Snapshot, hardOk: bool)
    requires Saved(r)
    requires r.node.snapshot.Some? ==> r.node.snapshot.value.lastIncludedIndex == r.node.snapshotIndex
    requires r.node.snapshot.None? ==> r.node.snapshotIndex == 0
    ensures Mirror(Replica(NewNode(r.disk), r.disk))
    ensures r.node.snapshotIndex < index <= r.node.LastIndex() ==> Mirror(TakeSnapshot(r, index, data, true, true).0)
    ensures Mirror(ApplySnapshotTo(r.(disk := r.disk.(snap := Some(snap))), snap, hardOk, true))
  {
    hide KeptLog;
  }

  /** From a state in which its store is in step, an action leaves the acting server's store in step exactly when
      its log writes land. */
  lemma MirrorStep(c: Cluster, a: Action)
    requires Inv(c) && Enabled(c, a) && Mirror(c.servers[a.id].rep)
    ensures Mirror(EffectOf(c, a).server.rep) <==> Lands(c, a)
  {
    hide Mirror;
    hide MergeLands;
    if LogAction(a) {
      Preservation.Unpack(c, a.id);
      CommittedSnapshot(c.history, c.servers.Keys, a.id, c.servers[a.id]);
      assert a.DoInstall? ==> MessageInv(c.history, c.servers.Keys, SnapReq(a.id, a.sreq));
      hide Inv;
      hide HistInv;
      hide ServerInv;
      LogActionMirrors(c, a);
    } else {
      hide Inv;
      OtherActionsKeepLog(c, a);
      hide EffectOf;
      SameStoreMirrors(c.servers[a.id].rep, EffectOf(c, a).server.rep);
    }
  }

  lemma LogActionMirrors(c: Cluster, a: Action)
    requires Enabled(c, a) && LogAction(a) && Mirror(c.servers[a.id].rep) && SnapshotInv(c.history, c.servers[a.id])
    requires a.DoInstall? ==> SnapReqInv(c.history, a.sreq)
    ensures Mirror(EffectOf(c, a).server.rep) <==> Lands(c, a)
  {
    hide Mirror;
    hide MergeLands;
    hide HandleAppendEntries;
    hide HandleInstallSnapshot;
    hide StartCommand;
    hide TakeSnapshot;
    hide Restarted;
    var s := c.servers[a.id];
    match a
    case DoStartCommand(id, command, appendOk, commitOk) =>
      CommandMirrors(c.ConfigOf(id), s.rep, command, appendOk, commitOk);
      RefusedCommand(c.ConfigOf(id), s.rep, command, appendOk, commitOk);
    case DoAppend(_, req, f) => AppendHandlerMirrors(s.rep, req, f);
    case DoInstall(_, req, f) => InstallMirrors(s.rep, req, f);
    case DoCompact(_, saveOk, setLogOk) =>
      CompactMirrors(s.rep, s.service.lastAppliedIndex, Encoded(s.service.store), saveOk, setLogOk);
    case DoRestart(_) => RestartMirrors(s.rep);
  }

  lemma RefusedCommand(cfg: Config, r: Replica, command: Command, appendOk: bool, commitOk: bool)
    ensures var (r', index) := NodeModel.StartCommand(cfg, r, command, appendOk, commitOk); index.None? ==> r' == r
  {
    hide AdvanceCommit;
  }

  lemma RestartMirrors(r: Replica)
    requires Mirror(r)
    requires r.node.snapshot.Some? ==> r.node.snapshot.value.lastIncludedIndex == r.node.snapshotIndex
    requires r.node.snapshot.None? ==> r.node.snapshotIndex == 0
    ensures Mirror(Restarted(r.disk).rep)
  {
    RewriteMirrors(r, 0, NoBytes, Snapshot(0, 0, NoBytes), false);
  }

  const A := LogEntry(1, Put("a", "1"))
  const B := LogEntry(1, Put("b", "1"))
  const X := LogEntry(1, Put("x", "1"))
  const Y := LogEntry(2, Put("y", "2"))

  /** A follower of term 1 with two committed entries and one more, all on disk. */
  function Loaded(): Replica {
    Replica(
      Node(Follower, 1, None, false, [A, B, X], 0, 0, None, None, 2, 2, map[], map[], {}, {}),
      Disk(HardState(1, None, 2), 0, [A, B, X], None))
  }

  /** An acknowledged entry is forgotten: the log is compacted while `SetLog` fails, the leader of term 2 then
      replaces the last entry and is told so, and a restart comes back without the new entry. */
  lemma AcknowledgedEntryForgotten()
    ensures var r0 := Loaded();
      var r1 := TakeSnapshot(r0, 2, Encoded(StateMachine.Replay([A, B])), true, false).0;
      var (r2, resp) := HandleAppendEntries(
        r1, AppendRequest(2, 7, 2, 1, [Y], 2), AppendFaults(true, true, true, true));
      && Mirror(r0) && Mirror(r1) && !Aligned(r1)
      && resp == Some(AppendResponse(2, true, 0, 0))
      && r2.node.log == [Y] && NewNode(r2.disk).log == []
  {
    Forgotten(Loaded(), Encoded(StateMachine.Replay([A, B])), Y);
  }

  lemma Forgotten(r0: Replica, data: Blob, y: LogEntry)
    requires r0.node.log == r0.disk.log && |r0.node.log| == 3 && r0.node.snapshotIndex == r0.disk.base == 0
    requires r0.node.snapshot.None? && r0.disk.snap.None? && r0.node.currentTerm == 1 && r0.node.commitIndex == 2
    requires !r0.node.degraded && r0.node.log[1].term == 1 && r0.node.log[2].term != y.term
    ensures var r1 := TakeSnapshot(r0, 2, data, true, false).0;
      var (r2, resp) := HandleAppendEntries(
        r1, AppendRequest(2, 7, 2, 1, [y], 2), AppendFaults(true, true, true, true));
      && Mirror(r0) && Mirror(r1) && !Aligned(r1)
      && resp == Some(AppendResponse(2, true, 0, 0))
      && r2.node.log == [y] && NewNode(r2.disk).log == []
  {
    hide HandleAppendEntries;
    hide NewNode;
    hide TakeSnapshot;
    hide Mirror;
    UntouchedMirrors(r0);
    CompactMirrors(r0, 2, data, true, false);
    CompactedOnly(r0, 2, data);
    LastOfThree(r0.node.log);
    var r1, req := TakeSnapshot(r0, 2, data, true, false).0, AppendRequest(2, 7, 2, 1, [y], 2);
    Replaced(r1, r0.node.log[2], y);
    TrimmedAway(HandleAppendEntries(r1, req, AppendFaults(true, true, true, true)).0.disk);
  }

  lemma UntouchedMirrors(r: Replica)
    requires r.disk.log == r.node.log && r.disk.base == r.node.snapshotIndex && r.disk.snap == r.node.snapshot
    ensures Mirror(r)
  {
    TrimNothing(r.disk);
  }

  lemma LastOfThree(log: seq<LogEntry>)
    requires |log| == 3
    ensures log[2..] == [log[2]]
  {
  }

  lemma CompactedOnly(r: Replica, index: nat, data: Blob)
    requires r.node.snapshotIndex < index <= r.node.LastIndex()
    ensures var r' := TakeSnapshot(r, index, data, true, false).0;
      && r'.node.log == r.node.log[index - r.node.snapshotIndex..] && r'.node.snapshotIndex == index
      && r'.node.snapshotTerm == r.node.EntryAt(index).term
      && r'.node.commitIndex == r.node.commitIndex && r'.node.currentTerm == r.node.currentTerm
      && r'.node.degraded == r.node.degraded
      && r'.disk.base == r.disk.base && r'.disk.snap.Some? && r'.disk.snap.value.lastIncludedIndex == index
  {
  }

  lemma TrimmedAway(d: Disk)
    requires d.base == 0 && |d.log| <= 2 && d.snap.Some? && d.snap.value.lastIncludedIndex == 2
    ensures NewNode(d).log == []
  {
  }

  /** A follower of term 1 whose log above a snapshot at index 2 is replaced by the leader of term 2. */
  lemma Replaced(r: Replica, was: LogEntry, entry: LogEntry)
    requires !r.node.degraded && r.node.currentTerm == 1 && r.node.log == [was] && entry.term != was.term
    requires r.node.snapshotIndex == r.node.commitIndex == 2 && r.node.snapshotTerm == 1
    ensures var (r', resp) := HandleAppendEntries(
        r, AppendRequest(2, 7, 2, 1, [entry], 2), AppendFaults(true, true, true, true));
      && resp == Some(AppendResponse(2, true, 0, 0)) && r'.node.log == [entry]
      && r'.disk.log == [entry] && r'.disk.base == r.disk.base && r'.disk.snap == r.disk.snap
  {
    assert Repeated([was], 0, [entry]) == 0;
    assert [entry][0..] == [entry] && [was][..0] == [] && r.disk.log[..0] == [];
  }

  // ---------------------------------------------------------------- reads outside the retained log

  /** An installed snapshot above the last applied index leaves the apply loop with an entry to deliver that is
      below the retained log, until the pending snapshot is delivered. */
  lemma InstallOvertakesApply(r: Replica, req: SnapshotRequest, f: SnapshotFaults)
    requires Takes(r, req, f) && r.node.lastApplied <= r.node.commitIndex
    ensures var n := HandleInstallSnapshot(r, req, f).0.node;
      && (HasWork(n) && !ReadInBounds(n) <==> r.node.lastApplied < req.snapshot.lastIncludedIndex)
      && (r.node.lastApplied < req.snapshot.lastIncludedIndex ==>
            n.pendingSnapshot == Some(req.snapshot) && ReadInBounds(DeliverSnapshot(n).0))
  {
  }

  /** A compaction between the check for a lagging peer and the building of its request leaves the slice in
      bounds exactly when it stays below the peer's next index. */
  lemma CompactionOvertakesPeer(r: Replica, index: nat, data: Blob, setLogOk: bool, peer: NodeId)
    requires r.node.snapshotIndex < index <= r.node.LastIndex()
    requires 1 <= Get(r.node.nextIndex, peer) <= r.node.LastIndex() + 1
    ensures var n := TakeSnapshot(r, index, data, true, setLogOk).0.node;
      SliceInBounds(n, peer) <==> index < Get(r.node.nextIndex, peer)
  {
  }

  // ---------------------------------------------------------------- acknowledgement by index

  /** A leader of term 1 in a cluster of three, with an empty log. */
  function FreshLeader(): Replica {
    Replica(
      Node(Leader, 1, Some(0), false, [], 0, 0, None, None, 0, 0, map[], map[], {}, {}),
      Disk(HardState(1, Some(0), 0), 0, [], None))
  }

  /** An index alone does not identify a command: the proposer is told index 1 for one command, is overruled by
      the leader of term 2, and then applies another command at index 1. */
  lemma AnotherCommandApplied()
    ensures var cfg := Config(0, {1, 2});
      var (r1, index) := StartCommand(cfg, FreshLeader(), X.command, true, true);
      var (r2, resp) := HandleAppendEntries(
        r1, AppendRequest(2, 1, 0, 0, [Y], 1), AppendFaults(true, true, true, true));
      && index == Some(1)
      && resp == Some(AppendResponse(2, true, 0, 0))
      && HasWork(r2.node) && ReadInBounds(r2.node)
      && DeliverEntry(r2.node).1 == ApplyCommand(1, Y.command)
      && Y.command != X.command
  {
    var cfg := Config(0, {1, 2});
    var (r1, index) := StartCommand(cfg, FreshLeader(), X.command, true, true);
    NotCommittedAlone(cfg, FreshLeader(), X.command);
    assert r1.node.log == [X] && r1.disk.log == [X];
    assert Repeated([X], 0, [Y]) == 0;
    assert [Y][0..] == [Y] && [X][..0] == [];
    var r2 := HandleAppendEntries(r1, AppendRequest(2, 1, 0, 0, [Y], 1), AppendFaults(true, true, true, true)).0;
    assert r2.node.log == [Y];
  }

  lemma NotCommittedAlone(cfg: Config, r: Replica, command: Command)
    requires cfg == Config(0, {1, 2}) && r.node.role == Leader && !r.node.degraded && r.node.matchIndex == map[]
    requires r.node.log == [] && r.node.snapshotIndex == r.node.commitIndex == 0
    ensures var r' := StartCommand(cfg, r, command, true, true).0;
      r'.node.commitIndex == 0 && r'.node.log == [LogEntry(r.node.currentTerm, command)]
  {
    var n1 := r.node.(log := r.node.log + [LogEntry(r.node.currentTerm, command)],
                      matchIndex := r.node.matchIndex[cfg.id := 1],
                      nextIndex := r.node.nextIndex[cfg.id := 2]);
    assert Holders(cfg, n1, 1) == {};
    assert cfg.Members() == {0, 1, 2};
    assert cfg.QuorumSize() == 2;
    assert CommitTarget(cfg, n1, 1) == CommitTarget(cfg, n1, 0) == 0;
  }
}
