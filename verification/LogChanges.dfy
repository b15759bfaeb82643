/** How one action can change the uncompacted log of the acting server, and what that means for log
    matching and for the prefix a follower shares with its leader. */
module LogChanges {
  import opened Types
  import opened NodeModel
  import opened ServiceModel
  import opened Cluster
  import opened Invariants
  import opened Safety
  import opened Frames
  import opened StepsElection
  import opened StepsReplication
  import opened StepsCommit
  import opened StepsSnapshot
  import opened Preservation

  ghost predicate InstallsAt(h: History, full: seq<LogEntry>, full': seq<LogEntry>, index: nat, t: nat) {
    0 < index <= |h.committed| && Covered(h, index, t) && full' == Installed(h, full, index)
  }

  /** A log stays, adopts the log of the leader of term `t`, or has a committed snapshot put under it. */
  ghost predicate LogChange(
    h: History, full: seq<LogEntry>, full': seq<LogEntry>, t: nat, installed: Option<nat>)
  {
    || full' == full
    || (t in h.logs && Adopts(full, full', h.logs[t]))
    || (t in h.logs && installed.Some? && InstallsAt(h, full, full', installed.value, t))
  }

  lemma SameEntries(h: History, h': History, n: Node, n': Node)
    requires Extends(h, h') && n.snapshotIndex <= |h.committed|
    requires n'.log == n.log && n'.snapshotIndex == n.snapshotIndex
    ensures Full(h', n') == Full(h, n)
  {
    FullStable(h, h', n);
  }

  // ---------------------------------------------------------------- actions that keep the entries

  /** Actions other than appending, installing and compacting leave log and snapshot index alone. */
  predicate LogAction(a: Action) {
    a.DoStartCommand? || a.DoAppend? || a.DoInstall? || a.DoCompact? || a.DoRestart?
  }

  /** Log and snapshot are the same, in memory and on disk. */
  predicate KeepsLog(r: Replica, r': Replica) {
    && r'.node.log == r.node.log && r'.node.snapshotIndex == r.node.snapshotIndex
    && r'.node.snapshot == r.node.snapshot
    && r'.disk == r.disk.(hard := r'.disk.hard)
  }

  lemma VoteKeepsLog(r: Replica, req: VoteRequest, termOk: bool, voteOk: bool)
    ensures KeepsLog(r, HandleRequestVote(r, req, termOk, voteOk).0)
  {
    hide UpToDate;
  }

  lemma ReplyKeepsLog(cfg: Config, r: Replica, peer: NodeId, req: AppendRequest, resp: AppendResponse, ok: bool)
    ensures KeepsLog(r, OnAppendReply(cfg, r, peer, req, resp, ok))
  {
    hide CommitTarget;
    hide BackOff;
  }

  lemma OtherActionsKeepLog(c: Cluster, a: Action)
    requires Enabled(c, a) && !LogAction(a)
    ensures KeepsLog(c.servers[a.id].rep, EffectOf(c, a).server.rep)
  {
    hide HandleRequestVote;
    hide OnAppendReply;
    hide Full;
    hide Elect;
    hide HandleApply;
    var r := c.servers[a.id].rep;
    match a
    case DoVote(_, req, termOk, voteOk) => VoteKeepsLog(r, req, termOk, voteOk);
    case DoAppendReply(id, peer, req, resp, ok) => ReplyKeepsLog(c.ConfigOf(id), r, peer, req, resp, ok);
    case _ =>
  }

  lemma RestartKeepsLog(r: Replica)
    requires Mirror(r) && (r.node.snapshot.Some? ==> r.node.snapshot.value.lastIncludedIndex == r.node.snapshotIndex)
    requires r.node.snapshot.None? ==> r.node.snapshotIndex == 0
    ensures NewNode(r.disk).log == r.node.log && NewNode(r.disk).snapshotIndex == r.node.snapshotIndex
  {
  }

  // ---------------------------------------------------------------- actions that change the entries

  lemma AppendChange(h: History, members: set<NodeId>, id: NodeId, s: Server, req: AppendRequest, f: AppendFaults)
    requires HistInv(h, members) && ServerInv(h, members, id, s) && AppendReqInv(h, req)
    ensures var r := HandleAppendEntries(s.rep, req, f).0;
      || Full(h, r.node) == Full(h, s.rep.node)
      || (r.disk.hard.currentTerm == req.term && Adopts(Full(h, s.rep.node), Full(h, r.node), h.logs[req.term]))
  {
    var r := HandleAppendEntries(s.rep, req, f).0;
    var n := s.rep.node;
    AppendCases(s.rep, req, f);
    var r1 := Follow(s.rep, req.term);
    assert Full(h, r1.node) == Full(h, n);
    if r.node.log != n.log {
      MergedChange(h, members, id, s, req, f);
      assert Full(h, r.node) == Full(h, Merge(r1, req, f.truncateOk, f.appendOk).0.node);
    } else {
      AppendKeepsIndex(s.rep, req, f);
    }
  }

  lemma AppendKeepsIndex(r: Replica, req: AppendRequest, f: AppendFaults)
    ensures HandleAppendEntries(r, req, f).0.node.snapshotIndex == r.node.snapshotIndex
  {
    hide FirstIndexOfTerm;
    hide Repeated;
  }

  lemma MergedChange(h: History, members: set<NodeId>, id: NodeId, s: Server, req: AppendRequest, f: AppendFaults)
    requires HistInv(h, members) && ServerInv(h, members, id, s) && AppendReqInv(h, req)
    requires HandleAppendEntries(s.rep, req, f).0.node.log != s.rep.node.log
    ensures var r, r1 := HandleAppendEntries(s.rep, req, f).0, Follow(s.rep, req.term);
      && Refusal(r1.node, req).None?
      && var r2 := Merge(r1, req, f.truncateOk, f.appendOk).0;
      && r.node.log == r2.node.log && r.node.snapshotIndex == r2.node.snapshotIndex == s.rep.node.snapshotIndex
      && r.disk.hard.currentTerm == req.term
      && Adopts(Full(h, s.rep.node), Full(h, r2.node), h.logs[req.term])
  {
    var n := s.rep.node;
    var r1 := Follow(s.rep, req.term);
    AppendCases(s.rep, req, f);
    FollowStep(h, members, id, s, req.term);
    MergeLog(r1, req, f.truncateOk, f.appendOk);
    MergeChange(h, members, id, s.(rep := r1), req, f.truncateOk, f.appendOk);
    assert Full(h, r1.node) == Full(h, n);
  }

  lemma MergeChange(
    h: History, members: set<NodeId>, id: NodeId, s: Server, req: AppendRequest, truncateOk: bool, appendOk: bool)
    requires HistInv(h, members) && ServerInv(h, members, id, s) && AppendReqInv(h, req)
    requires !s.rep.node.degraded && s.rep.node.currentTerm == req.term && Refusal(s.rep.node, req).None?
    ensures var (r, ok) := Merge(s.rep, req, truncateOk, appendOk);
      && Adopts(Full(h, s.rep.node), Full(h, r.node), h.logs[req.term])
      && (ok ==> Agree(Full(h, r.node), h.logs[req.term], 0, req.prevLogIndex + |req.entries|))
  {
    var n := s.rep.node;
    ExtendsSelf(h);
    CoveredGrows(h, h, n.commitIndex, n.snapshotIndex, req.term, req.term);
    CommittedInLeader(h, members, n.snapshotIndex, req.term, req.term);
    MergeAdopts(h, s.rep, req, truncateOk, appendOk);
  }

  /** The guards under which an InstallSnapshot request replaces the follower's snapshot. */
  predicate Takes(r: Replica, req: SnapshotRequest, f: SnapshotFaults) {
    && !r.node.degraded
    && r.node.currentTerm <= req.term
    && (r.node.currentTerm < req.term ==> f.termOk)
    && r.node.snapshotIndex < req.snapshot.lastIncludedIndex
    && f.saveOk
  }

  lemma InstallOutcome(r: Replica, req: SnapshotRequest, f: SnapshotFaults)
    requires r.node.snapshotIndex == req.snapshot.lastIncludedIndex ==> r.node.snapshotTerm == req.snapshot.lastIncludedTerm
    requires !r.node.degraded ==> r.disk.hard.currentTerm == r.node.currentTerm
    ensures var r' := HandleInstallSnapshot(r, req, f).0;
      if Takes(r, req, f) then
        && r'.node.log == KeptLog(r.node, req.snapshot.lastIncludedIndex)
        && r'.node.snapshotIndex == req.snapshot.lastIncludedIndex
        && r'.disk.hard.currentTerm == req.term
      else KeepsLog(r, r')
  {
  }

  lemma InstallChange(h: History, members: set<NodeId>, id: NodeId, s: Server, req: SnapshotRequest, f: SnapshotFaults)
    requires ServerInv(h, members, id, s) && SnapReqInv(h, req)
    ensures var r, i := HandleInstallSnapshot(s.rep, req, f).0, req.snapshot.lastIncludedIndex;
      if Takes(s.rep, req, f) then
        r.disk.hard.currentTerm == req.term && InstallsAt(h, Full(h, s.rep.node), Full(h, r.node), i, req.term)
      else Full(h, r.node) == Full(h, s.rep.node)
  {
    var n := s.rep.node;
    assert SnapshotInv(h, s) && TermsInv(s);
    hide ServerInv;
    hide HandleInstallSnapshot;
    InstallOutcome(s.rep, req, f);
    if Takes(s.rep, req, f) {
      InstallFull(h, n, req.snapshot.lastIncludedIndex);
    }
  }

  lemma CommandChange(
    h: History, members: set<NodeId>, id: NodeId, s: Server, command: Command, appendOk: bool, commitOk: bool)
    requires HistInv(h, members) && ServerInv(h, members, id, s)
    requires Extends(h, StartCommandEffect(h, s, Config(id, members - {id}), command, appendOk, commitOk).history)
    ensures var e := StartCommandEffect(h, s, Config(id, members - {id}), command, appendOk, commitOk);
      LogChange(e.history, Full(h, s.rep.node), Full(e.history, e.server.rep.node), e.server.rep.disk.hard.currentTerm, None)
  {
    hide HistInv;
    hide ServerInv;
    hide Extends;
    hide AdvanceCommit;
    hide RecordCommit;
    var cfg := Config(id, members - {id});
    var n := s.rep.node;
    if n.degraded || n.role != Leader || !appendOk {
    } else {
      LeaderLogLength(h, members, id, s);
      LeaderFacts(h, members, id, s);
      LeaderTermIsDurable(h, members, id, s);
      StartCommandCases(h, s, cfg, command, appendOk, commitOk);
      AppendedChange(h, cfg, s, LogEntry(n.currentTerm, command), commitOk);
    }
  }

  lemma LeaderTermIsDurable(h: History, members: set<NodeId>, id: NodeId, s: Server)
    requires ServerInv(h, members, id, s) && s.rep.node.role == Leader
    ensures s.rep.disk.hard.currentTerm == s.rep.node.currentTerm
  {
  }

  lemma AppendedChange(h: History, cfg: Config, s: Server, entry: LogEntry, ok: bool)
    requires s.rep.node.currentTerm in h.logs && Full(h, s.rep.node) == h.logs[s.rep.node.currentTerm]
    requires s.rep.node.snapshotIndex <= |h.committed| && s.rep.disk.hard.currentTerm == s.rep.node.currentTerm
    requires var r1 := Appended(cfg, s.rep, entry);
      var h1 := AppendedHistory(h, cfg.id, s.rep.node.currentTerm, entry);
      Extends(h, RecordCommit(h1, cfg, r1.node, AdvanceCommit(cfg, r1, ok).node))
    ensures var r1 := Appended(cfg, s.rep, entry);
      var r := AdvanceCommit(cfg, r1, ok);
      var h' := RecordCommit(AppendedHistory(h, cfg.id, s.rep.node.currentTerm, entry), cfg, r1.node, r.node);
      LogChange(h', Full(h, s.rep.node), Full(h', r.node), r.disk.hard.currentTerm, None)
  {
    hide AdvanceCommit;
    hide Extends;
    var n := s.rep.node;
    var r1 := Appended(cfg, s.rep, entry);
    var r := AdvanceCommit(cfg, r1, ok);
    var h' := RecordCommit(AppendedHistory(h, cfg.id, n.currentTerm, entry), cfg, r1.node, r.node);
    CommitKeepsEntries(cfg, r1, ok);
    SameEntries(h, h', n, n);
    SameEntries(h, h', r1.node, r.node);
    assert Full(h', r.node) == Full(h', n) + [entry];
    assert h'.logs[n.currentTerm] == h.logs[n.currentTerm] + [entry];
    PrefixAdopts(Full(h, n), h'.logs[n.currentTerm]);
  }

  lemma CommitKeepsEntries(cfg: Config, r: Replica, ok: bool)
    ensures var r' := AdvanceCommit(cfg, r, ok);
      && r'.node.log == r.node.log && r'.node.snapshotIndex == r.node.snapshotIndex
      && (r'.disk.hard.currentTerm == r.disk.hard.currentTerm || r'.disk.hard.currentTerm == r.node.currentTerm)
  {
  }

  /** A whole log adopted. */
  lemma PrefixAdopts(full: seq<LogEntry>, leader: seq<LogEntry>)
    ensures Adopts(full, leader, leader)
  {
    assert leader == leader[..|leader|];
  }

  lemma CompactChange(h: History, members: set<NodeId>, id: NodeId, s: Server, saveOk: bool, setLogOk: bool)
    requires ServerInv(h, members, id, s)
    ensures Full(h, CompactEffect(h, s, saveOk, setLogOk).server.rep.node) == Full(h, s.rep.node)
  {
    hide ServerInv;
    hide TakeSnapshot;
    hide Compacted;
    hide Saved;
    hide Full;
    var n := s.rep.node;
    var index := s.service.lastAppliedIndex;
    CompactCases(s.rep, index, Encoded(s.service.store), saveOk, setLogOk);
    if n.snapshotIndex < index <= n.LastIndex() && saveOk {
      ServedIsCommitted(h, members, id, s);
      CompactedFull(h, n, index, Encoded(s.service.store));
    }
  }

  lemma ServedIsCommitted(h: History, members: set<NodeId>, id: NodeId, s: Server)
    requires ServerInv(h, members, id, s) && s.rep.node.snapshotIndex < s.service.lastAppliedIndex
    ensures s.rep.node.snapshotIndex <= |h.committed|
    ensures Agree(Full(h, s.rep.node), h.committed, 0, s.service.lastAppliedIndex)
  {
    assert ApplyInv(h, s) && KnownInv(h, Full(h, s.rep.node), s.rep.node.commitIndex, s.rep.disk.hard.currentTerm);
    CompactionPoint(h, s);
  }

  lemma CompactedFull(h: History, n: Node, index: nat, data: Blob)
    requires n.snapshotIndex < index <= n.LastIndex() && n.snapshotIndex <= |h.committed|
    requires Agree(Full(h, n), h.committed, 0, index)
    ensures Full(h, Compacted(n, index, data)) == Full(h, n)
  {
    CompactFull(h, n, index);
  }

  lemma CommittedSnapshot(h: History, members: set<NodeId>, id: NodeId, s: Server)
    requires ServerInv(h, members, id, s)
    ensures s.rep.node.snapshotIndex <= |h.committed|
    ensures SnapshotInv(h, s)
  {
  }

  function InstallPoint(a: Action): Option<nat> {
    if a.DoInstall? then Some(a.sreq.snapshot.lastIncludedIndex) else None
  }

  /** What an action makes of the acting server's uncompacted log. */
  ghost predicate ActionChange(c: Cluster, a: Action)
    requires Enabled(c, a)
  {
    var s, e := c.servers[a.id], EffectOf(c, a);
    LogChange(
      e.history, Full(c.history, s.rep.node), Full(e.history, e.server.rep.node),
      e.server.rep.disk.hard.currentTerm, InstallPoint(a))
  }

  lemma ChangeByCommand(c: Cluster, a: Action)
    requires Inv(c) && Enabled(c, a) && a.DoStartCommand? && Extends(c.history, EffectOf(c, a).history)
    ensures ActionChange(c, a)
  {
    hide Inv;
    hide HistInv;
    hide ServerInv;
    hide Extends;
    hide StartCommandEffect;
    hide LogChange;
    Unpack(c, a.id);
    CommandChange(c.history, c.servers.Keys, a.id, c.servers[a.id], a.command, a.appendOk, a.commitOk);
  }

  lemma ChangeByAppend(c: Cluster, a: Action)
    requires Inv(c) && Enabled(c, a) && a.DoAppend?
    ensures ActionChange(c, a)
  {
    hide Inv;
    hide HistInv;
    hide ServerInv;
    hide HandleAppendEntries;
    var h, members, s, e := c.history, c.servers.Keys, c.servers[a.id], EffectOf(c, a);
    Unpack(c, a.id);
    assert MessageInv(h, members, AppendReq(a.id, a.areq));
    AppendChange(h, members, a.id, s, a.areq, a.faults);
    FullOfHistory(h, e.history, e.server.rep.node);
  }

  lemma ChangeByInstall(c: Cluster, a: Action)
    requires Inv(c) && Enabled(c, a) && a.DoInstall?
    ensures ActionChange(c, a)
  {
    hide Inv;
    hide HistInv;
    hide ServerInv;
    hide HandleInstallSnapshot;
    var h, members, s := c.history, c.servers.Keys, c.servers[a.id];
    Unpack(c, a.id);
    assert MessageInv(h, members, SnapReq(a.id, a.sreq));
    InstallChange(h, members, a.id, s, a.sreq, a.sfaults);
  }

  lemma ChangeByOther(c: Cluster, a: Action)
    requires Inv(c) && Enabled(c, a) && Recovers(c, a) && Extends(c.history, EffectOf(c, a).history)
    requires !a.DoStartCommand? && !a.DoAppend? && !a.DoInstall?
    ensures ActionChange(c, a)
  {
    hide Inv;
    hide HistInv;
    hide ServerInv;
    hide Extends;
    hide TakeSnapshot;
    hide NewNode;
    var h, members, s, e := c.history, c.servers.Keys, c.servers[a.id], EffectOf(c, a);
    Unpack(c, a.id);
    CommittedSnapshot(h, members, a.id, s);
    if a.DoCompact? {
      CompactChange(h, members, a.id, s, a.saveOk, a.setLogOk);
    } else {
      if a.DoRestart? {
        RestartKeepsLog(s.rep);
      } else {
        OtherActionsKeepLog(c, a);
      }
      SameEntries(h, e.history, s.rep.node, e.server.rep.node);
    }
  }

  /** Every action changes the acting server's uncompacted log only as a leader of its durable term allows. */
  lemma ActionLogChange(c: Cluster, a: Action)
    requires Inv(c) && Enabled(c, a) && Recovers(c, a) && Extends(c.history, EffectOf(c, a).history)
    ensures ActionChange(c, a)
  {
    hide Inv;
    hide Enabled;
    hide EffectOf;
    hide Extends;
    hide ActionChange;
    if a.DoStartCommand? {
      ChangeByCommand(c, a);
    } else if a.DoAppend? {
      ChangeByAppend(c, a);
    } else if a.DoInstall? {
      ChangeByInstall(c, a);
    } else {
      ChangeByOther(c, a);
    }
  }

  /** The committed log is all the history that the uncompacted log depends on. */
  lemma FullOfHistory(h: History, h': History, n: Node)
    requires h'.committed == h.committed
    ensures Full(h', n) == Full(h, n)
  {
  }

  // ---------------------------------------------------------------- terms

  /** The written term does not go back, provided memory is not behind it. */
  predicate TermUp(r: Replica, r': Replica) {
    r.disk.hard.currentTerm <= r.node.currentTerm ==> r.disk.hard.currentTerm <= r'.disk.hard.currentTerm
  }

  lemma TermUpAppend(r: Replica, req: AppendRequest, f: AppendFaults)
    ensures TermUp(r, HandleAppendEntries(r, req, f).0)
  {
    hide HandleAppendEntries;
    AppendCases(r, req, f);
    var r1 := Follow(r, req.term);
    if Refusal(r1.node, req).None? {
      MergeLog(r1, req, f.truncateOk, f.appendOk);
    }
  }

  lemma TermUpReply(cfg: Config, r: Replica, peer: NodeId, req: AppendRequest, resp: AppendResponse, ok: bool)
    ensures TermUp(r, OnAppendReply(cfg, r, peer, req, resp, ok))
  {
    hide CommitTarget;
    hide BackOff;
  }

  lemma TermUpInstall(r: Replica, req: SnapshotRequest, f: SnapshotFaults)
    ensures TermUp(r, HandleInstallSnapshot(r, req, f).0)
  {
    hide KeptLog;
  }

  lemma TermUpVote(r: Replica, req: VoteRequest, termOk: bool, voteOk: bool)
    ensures TermUp(r, HandleRequestVote(r, req, termOk, voteOk).0)
  {
    hide UpToDate;
  }

  lemma TermUpCommand(cfg: Config, r: Replica, command: Command, appendOk: bool, commitOk: bool)
    ensures TermUp(r, StartCommand(cfg, r, command, appendOk, commitOk).0)
  {
    hide CommitTarget;
  }

  lemma TermUpAction(c: Cluster, a: Action)
    requires Enabled(c, a)
    ensures TermUp(c.servers[a.id].rep, EffectOf(c, a).server.rep)
  {
    hide HandleAppendEntries;
    hide OnAppendReply;
    hide HandleInstallSnapshot;
    hide HandleRequestVote;
    hide StartCommand;
    hide HandleApply;
    hide Elect;
    hide Full;
    var r := c.servers[a.id].rep;
    match a
    case DoVote(_, req, termOk, voteOk) => TermUpVote(r, req, termOk, voteOk);
    case DoStartCommand(id, command, appendOk, commitOk) => TermUpCommand(c.ConfigOf(id), r, command, appendOk, commitOk);
    case DoAppend(_, req, f) => TermUpAppend(r, req, f);
    case DoAppendReply(id, peer, req, resp, ok) => TermUpReply(c.ConfigOf(id), r, peer, req, resp, ok);
    case DoInstall(_, req, f) => TermUpInstall(r, req, f);
    case _ =>
  }

  /** The durable term of a server never goes back. */
  lemma TermsGoUp(c: Cluster, a: Action)
    requires Inv(c) && Enabled(c, a)
    ensures c.servers[a.id].rep.disk.hard.currentTerm <= EffectOf(c, a).server.rep.disk.hard.currentTerm
  {
    assert ServerInv(c.history, c.servers.Keys, a.id, c.servers[a.id]);
    hide EffectOf;
    hide Enabled;
    TermUpAction(c, a);
  }

  // ---------------------------------------------------------------- log matching

  /** Every entry of a log, with everything before it, comes from the leader of the entry's term. */
  predicate Matched(h: History, full: seq<LogEntry>) {
    forall k {:trigger Traced(h, full, 0, k)} :: 0 <= k < |full| ==> Traced(h, full, 0, k)
  }

  lemma MatchedGrows(h: History, h': History, full: seq<LogEntry>)
    requires Extends(h, h') && Matched(h, full)
    ensures Matched(h', full)
  {
    forall k {:trigger Traced(h', full, 0, k)} | 0 <= k < |full| ensures Traced(h', full, 0, k) {
      assert Traced(h, full, 0, k);
      assert IsPrefix(h.logs[full[k].term], h'.logs[full[k].term]);
    }
  }

  /** Log Matching: two matched logs with the same term at an index are equal up to and including it. */
  lemma MatchedLogsAgree(h: History, x: seq<LogEntry>, y: seq<LogEntry>, k: nat)
    requires Matched(h, x) && Matched(h, y) && k < |x| && k < |y| && x[k].term == y[k].term
    ensures Agree(x, y, 0, k + 1)
  {
    assert Traced(h, x, 0, k) && Traced(h, y, 0, k);
  }

  lemma LeaderPrefixMatched(h: History, full: seq<LogEntry>, t: nat)
    requires LogsInv(h) && t in h.logs && |full| <= |h.logs[t]| && full == h.logs[t][..|full|]
    ensures Matched(h, full)
  {
    forall k {:trigger Traced(h, full, 0, k)} | 0 <= k < |full| ensures Traced(h, full, 0, k) {
      assert LeaderLogInv(h, t) && LeaderEntryInv(h, t, k);
      assert forall j :: 0 <= j <= k ==> full[j] == h.logs[t][j];
    }
  }

  lemma CommittedMatched(h: History, members: set<NodeId>, index: nat)
    requires LogsInv(h) && DecisionsInv(h, members) && index <= |h.committed|
    ensures Matched(h, h.committed[..index])
  {
    if 0 < index {
      var t :| t in h.decisions && h.decisions[t].index == |h.committed|;
      assert DecisionInv(h, members, t);
      assert h.committed[..index] == h.logs[t][..index];
      LeaderPrefixMatched(h, h.committed[..index], t);
    }
  }

  /** A snapshot put under a matched log leaves it matched exactly when nothing is kept above the snapshot
      or the entry at the boundary has the snapshot's term. */
  lemma InstalledMatched(h: History, members: set<NodeId>, full: seq<LogEntry>, index: nat)
    requires LogsInv(h) && DecisionsInv(h, members) && Matched(h, full) && 0 < index <= |h.committed|
    ensures Matched(h, Installed(h, full, index)) <==>
      (|full| <= index || full[index - 1].term == h.committed[index - 1].term)
  {
    var full' := Installed(h, full, index);
    CommittedMatched(h, members, index);
    if |full| <= index {
      assert full' == h.committed[..index];
    } else if full[index - 1].term == h.committed[index - 1].term {
      MatchedLogsAgree(h, full, h.committed[..index], index - 1);
      assert full' == full;
    } else {
      assert full'[index] == full[index];
      assert Traced(h, full, 0, index);
      assert full'[index - 1] == h.committed[index - 1];
      assert !Traced(h, full', 0, index);
    }
  }

  /** The case the install handler does not check: entries are kept above a boundary entry of another term. */
  predicate KeepsForeignSuffix(n: Node, snap: Snapshot) {
    && n.snapshotIndex < snap.lastIncludedIndex < n.LastIndex()
    && n.EntryAt(snap.lastIncludedIndex).term != snap.lastIncludedTerm
  }

  predicate ForeignInstall(c: Cluster, a: Action)
    requires Enabled(c, a)
  {
    && a.DoInstall?
    && Takes(c.servers[a.id].rep, a.sreq, a.sfaults)
    && KeepsForeignSuffix(c.servers[a.id].rep.node, a.sreq.snapshot)
  }
}
