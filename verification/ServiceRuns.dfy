/** The compaction rule of the KV service over whole runs. */
module ServiceRuns {
  import opened Types
  import opened NodeModel
  import opened ServiceModel
  import opened Cluster
  import opened Invariants
  import opened StepsSnapshot
  import opened Preservation
  import opened Theorems
  import LogChanges

  /** Handling one message is consuming it and then, when a snapshot is due, compacting: two cluster actions. */
  lemma ServeInTwoActions(h: History, s: Server, every: nat, saveOk: bool, setLogOk: bool)
    requires !s.stopped && s.handled < |s.stream|
    ensures var (svc, r, ok) := Serve(s.service, s.rep, s.stream[s.handled], every, saveOk, setLogOk);
      var s1 := ServeEffect(h, s).server;
      var s2 := if !s1.stopped && s.stream[s.handled].ApplyCommand? && Due(s1.service, every)
                then CompactEffect(h, s1, saveOk, setLogOk).server else s1;
      svc == s2.service && r == s2.rep && ok == !s2.stopped
  {
    hide TakeSnapshot;
  }

  /** The service keeps to its rule: it consumes a message only when no snapshot is due. */
  predicate Rule(c: Cluster, a: Action, every: nat)
    requires Enabled(c, a)
  {
    a.DoServe? ==> !Due(c.servers[a.id].service, every)
  }

  ghost predicate RuledStep(c: Cluster, c': Cluster, every: nat) {
    exists a :: Enabled(c, a) && c' == Apply(c, a) && Rule(c, a, every)
  }

  ghost predicate RuledAt(run: seq<Cluster>, i: nat, every: nat)
    requires i + 1 < |run|
  {
    RuledStep(run[i], run[i + 1], every)
  }

  ghost predicate RuledRun(run: seq<Cluster>, every: nat) {
    IsRun(run) && forall i {:trigger RuledAt(run, i, every)} :: 0 <= i < |run| - 1 ==> RuledAt(run, i, every)
  }

  /** Snapshots in the stream are not newer than the node's, and the service is at most `every` commands ahead of it. */
  predicate KeepsPace(s: Server, every: nat) {
    && (forall k :: 0 <= k < |s.stream| && s.stream[k].ApplySnapshot? ==> s.stream[k].index <= s.rep.node.snapshotIndex)
    && (!s.stopped ==>
          && s.service.appliedSinceSnap <= every
          && s.service.lastAppliedIndex <= s.rep.node.snapshotIndex + s.service.appliedSinceSnap)
  }

  /** Actions that do not deliver, serve, compact or restart leave the service alone and never lower the snapshot. */
  predicate Elsewhere(a: Action) {
    !a.DoDeliverSnapshot? && !a.DoDeliverEntry? && !a.DoServe? && !a.DoCompact? && !a.DoRestart?
  }

  lemma InstallRaisesSnapshot(r: Replica, req: SnapshotRequest, f: SnapshotFaults)
    ensures r.node.snapshotIndex <= HandleInstallSnapshot(r, req, f).0.node.snapshotIndex
  {
    hide KeptLog;
  }

  lemma ElsewhereKeeps(c: Cluster, a: Action)
    requires Enabled(c, a) && Elsewhere(a)
    ensures var s, s' := c.servers[a.id], EffectOf(c, a).server;
      && s'.service == s.service && s'.stream == s.stream && s'.stopped == s.stopped
      && s.rep.node.snapshotIndex <= s'.rep.node.snapshotIndex
  {
    hide HandleAppendEntries;
    hide HandleInstallSnapshot;
    hide HandleRequestVote;
    hide OnAppendReply;
    hide CommitTarget;
    hide Full;
    hide Elect;
    var r := c.servers[a.id].rep;
    match a
    case DoVote(_, req, termOk, voteOk) => LogChanges.VoteKeepsLog(r, req, termOk, voteOk);
    case DoAppend(_, req, f) => LogChanges.AppendKeepsIndex(r, req, f);
    case DoAppendReply(id, peer, req, resp, ok) => LogChanges.ReplyKeepsLog(c.ConfigOf(id), r, peer, req, resp, ok);
    case DoInstall(_, req, f) => InstallRaisesSnapshot(r, req, f);
    case _ =>
  }

  lemma CompactOutcome(r: Replica, index: nat, data: Blob, saveOk: bool, setLogOk: bool)
    ensures var (r', done) := TakeSnapshot(r, index, data, saveOk, setLogOk);
      && r.node.snapshotIndex <= r'.node.snapshotIndex
      && (done ==> index <= r'.node.snapshotIndex)
      && (done <==> index <= r.node.snapshotIndex || (index <= r.node.LastIndex() && saveOk))
  {
  }

  lemma CompactKeepsBound(h: History, s: Server, every: nat, saveOk: bool, setLogOk: bool)
    requires KeepsPace(s, every)
    ensures KeepsPace(CompactEffect(h, s, saveOk, setLogOk).server, every)
  {
    CompactOutcome(s.rep, s.service.lastAppliedIndex, Encoded(s.service.store), saveOk, setLogOk);
    hide TakeSnapshot;
  }

  lemma ServeKeepsBound(h: History, members: set<NodeId>, id: NodeId, s: Server, every: nat)
    requires ServerInv(h, members, id, s) && KeepsPace(s, every) && !s.stopped && s.handled < |s.stream|
    requires 0 < every && !Due(s.service, every)
    ensures KeepsPace(ServeEffect(h, s).server, every)
  {
    assert InOrder(h.committed, s.stream, s.handled) by { assert ApplyInv(h, s); }
    assert s.service.lastAppliedIndex == Reached(s.stream, s.handled);
    hide ServerInv;
  }

  lemma DeliverKeepsBound(h: History, members: set<NodeId>, id: NodeId, s: Server, every: nat)
    requires ServerInv(h, members, id, s) && KeepsPace(s, every) && s.rep.node.pendingSnapshot.Some?
    ensures KeepsPace(DeliverSnapshotEffect(h, s).server, every)
  {
    assert s.rep.node.pendingSnapshot.value.lastIncludedIndex == s.rep.node.snapshotIndex;
    hide ServerInv;
  }

  lemma CompactedStep(c: Cluster, a: Action, every: nat)
    requires Inv(c) && Enabled(c, a) && Rule(c, a, every) && 0 < every && KeepsPace(c.servers[a.id], every)
    ensures KeepsPace(EffectOf(c, a).server, every)
  {
    hide Inv;
    hide HistInv;
    hide ServerInv;
    hide KeepsPace;
    var h, members, s := c.history, c.servers.Keys, c.servers[a.id];
    if Elsewhere(a) {
      ElsewhereKeeps(c, a);
      hide EffectOf;
      PaceKept(s, EffectOf(c, a).server, every);
    } else {
      Unpack(c, a.id);
      hide ServeEffect;
      hide CompactEffect;
      hide DeliverSnapshotEffect;
      hide DeliverEntryEffect;
      hide Restarted;
      match a
      case DoServe(_) => ServeKeepsBound(h, members, a.id, s, every);
      case DoCompact(_, saveOk, setLogOk) => CompactKeepsBound(h, s, every, saveOk, setLogOk);
      case DoDeliverSnapshot(_) => DeliverKeepsBound(h, members, a.id, s, every);
      case DoDeliverEntry(_) => DeliverEntryKeepsBound(h, a.id, s, every);
      case DoRestart(_) => RestartKeepsBound(s, every);
    }
  }

  lemma PaceKept(s: Server, s': Server, every: nat)
    requires KeepsPace(s, every) && s'.service == s.service && s'.stream == s.stream && s'.stopped == s.stopped
    requires s.rep.node.snapshotIndex <= s'.rep.node.snapshotIndex
    ensures KeepsPace(s', every)
  {
  }

  lemma DeliverEntryKeepsBound(h: History, id: NodeId, s: Server, every: nat)
    requires KeepsPace(s, every) && HasWork(s.rep.node) && ReadInBounds(s.rep.node)
    ensures KeepsPace(DeliverEntryEffect(h, s, id).server, every)
  {
  }

  lemma RestartKeepsBound(s: Server, every: nat)
    ensures KeepsPace(Restarted(s.rep.disk), every)
  {
  }

  lemma InitCompacted(c: Cluster, id: NodeId, every: nat)
    requires Init(c) && id in c.servers
    ensures KeepsPace(c.servers[id], every)
  {
  }

  /** With snapshots every `every` commands, a running service is never more than `every` commands ahead of the
      node's snapshot, and fewer than `every` whenever it has finished with a message. */
  lemma {:induction false} ServiceStaysCompacted(run: seq<Cluster>, i: nat, id: NodeId, every: nat)
    requires RuledRun(run, every) && i < |run| && id in run[i].servers && 0 < every
    ensures KeepsPace(run[i].servers[id], every)
    ensures var s := run[i].servers[id];
      !s.stopped && !Due(s.service, every) ==> Bounded(s.service, s.rep.node, every)
  {
    hide Init;
    hide Inv;
    hide Enabled;
    hide Apply;
    hide Rule;
    if i == 0 {
      InitCompacted(run[0], id, every);
    } else {
      RunInv(run, i - 1);
      RunContinues(run, i - 1, i);
      ServiceStaysCompacted(run, i - 1, id, every);
      assert RuledAt(run, i - 1, every);
      hide KeepsPace;
      var a :| Enabled(run[i - 1], a) && run[i] == Apply(run[i - 1], a) && Rule(run[i - 1], a, every);
      CompactedServer(run[i - 1], a, id, every);
    }
    BoundFromCompacted(run[i].servers[id], every);
  }

  lemma BoundFromCompacted(s: Server, every: nat)
    requires KeepsPace(s, every)
    ensures !s.stopped && !Due(s.service, every) ==> Bounded(s.service, s.rep.node, every)
  {
  }

  lemma CompactedServer(c: Cluster, a: Action, id: NodeId, every: nat)
    requires Inv(c) && Enabled(c, a) && Rule(c, a, every) && 0 < every && id in c.servers && KeepsPace(c.servers[id], every)
    ensures id in Apply(c, a).servers && KeepsPace(Apply(c, a).servers[id], every)
  {
    hide Inv;
    hide Enabled;
    hide EffectOf;
    hide KeepsPace;
    if id == a.id {
      CompactedStep(c, a, every);
    }
  }

  /** In every run, whatever rule the service follows, the node never refuses a snapshot for lying beyond its log. */
  lemma SnapshotNeverBeyondLog(run: seq<Cluster>, i: nat, id: NodeId, saveOk: bool, setLogOk: bool)
    requires IsRun(run) && i < |run| && id in run[i].servers
    ensures var s := run[i].servers[id];
      && s.service.lastAppliedIndex <= s.rep.node.LastIndex()
      && (TakeSnapshot(s.rep, s.service.lastAppliedIndex, Encoded(s.service.store), saveOk, setLogOk).1 <==>
            s.service.lastAppliedIndex <= s.rep.node.snapshotIndex || saveOk)
  {
    hide IsRun;
    hide Inv;
    hide HistInv;
    RunInv(run, i);
    var h, s := run[i].history, run[i].servers[id];
    Unpack(run[i], id);
    ServedWithinLog(h, run[i].servers.Keys, id, s);
    hide ServerInv;
    CompactOutcome(s.rep, s.service.lastAppliedIndex, Encoded(s.service.store), saveOk, setLogOk);
    hide TakeSnapshot;
  }

  lemma ServedWithinLog(h: History, members: set<NodeId>, id: NodeId, s: Server)
    requires ServerInv(h, members, id, s)
    ensures s.service.lastAppliedIndex <= s.rep.node.LastIndex()
  {
    ReachedGrows(h.committed, s.stream, s.handled, |s.stream|);
    FullLength(h, s.rep.node);
  }
}
