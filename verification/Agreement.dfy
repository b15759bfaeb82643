/** What a follower has confirmed to a leader stays true: the prefix it shares with the leader of its term
    never shrinks, committed entries are never dropped, and a leader's match indices are truthful. */
module Agreement {
  import opened Types
  import opened NodeModel
  import opened Cluster
  import opened Invariants
  import opened Safety
  import opened Frames
  import opened StepsElection
  import opened StepsReplication
  import opened StepsSnapshot
  import opened Preservation
  import opened LogChanges
  import opened LogMatching

  /** `p` has moved on to a later term, or is in term `t` with a log equal to its leader's up to `m`. */
  predicate Holds(c: Cluster, p: NodeId, t: nat, m: nat) {
    m == 0 ||
    (&& p in c.servers
     && t in c.history.logs
     && var r := c.servers[p].rep;
     t <= r.disk.hard.currentTerm
     && (r.disk.hard.currentTerm == t ==> Agree(Full(c.history, r.node), c.history.logs[t], 0, m)))
  }

  /** No change of a log that its term's leader allows shrinks the prefix the two share. */
  lemma ChangeKeepsAgreement(
    h: History, members: set<NodeId>, full: seq<LogEntry>, full': seq<LogEntry>, t: nat, installed: Option<nat>, m: nat)
    requires HistInv(h, members) && t in h.logs && LogChange(h, full, full', t, installed)
    requires Agree(full, h.logs[t], 0, m)
    ensures Agree(full', h.logs[t], 0, m)
  {
    if full' != full && !Adopts(full, full', h.logs[t]) {
      CommittedInLeader(h, members, installed.value, t, t);
      assert full' == Installed(h, full, installed.value);
    }
  }

  lemma HoldsStep(c: Cluster, a: Action, p: NodeId, t: nat, m: nat)
    requires Inv(c) && Enabled(c, a) && Recovers(c, a) && Inv(Apply(c, a)) && Continues(c, Apply(c, a)) && Holds(c, p, t, m)
    ensures Holds(Apply(c, a), p, t, m)
  {
    var c' := Apply(c, a);
    var h, h' := c.history, c'.history;
    if 0 < m {
      assert HistInv(h', c'.servers.Keys);
      hide HistInv;
      hide Inv;
      hide Enabled;
      hide EffectOf;
      assert IsPrefix(h.logs[t], h'.logs[t]);
      if p == a.id {
        var full, e := Full(h, c.servers[p].rep.node), EffectOf(c, a);
        TermsGoUp(c, a);
        ActionLogChange(c, a);
        if e.server.rep.disk.hard.currentTerm == t {
          assert Agree(full, h'.logs[t], 0, m);
          ChangeKeepsAgreement(h', c'.servers.Keys, full, Full(h', e.server.rep.node), t, InstallPoint(a), m);
        }
      } else {
        OthersKeepLog(c, a, p);
      }
    }
  }

  // ---------------------------------------------------------------- committed entries

  /** `p` holds the committed log up to `m`, and its term has a right to know so. */
  ghost predicate HasCommitted(c: Cluster, p: NodeId, m: nat) {
    p in c.servers && KnownInv(c.history, Full(c.history, c.servers[p].rep.node), m, c.servers[p].rep.disk.hard.currentTerm)
  }

  /** No change of a log that its term's leader allows drops a committed entry. */
  lemma ChangeKeepsCommitted(
    h: History, members: set<NodeId>, full: seq<LogEntry>, full': seq<LogEntry>, t: nat, installed: Option<nat>, m: nat)
    requires HistInv(h, members) && LogChange(h, full, full', t, installed) && KnownInv(h, full, m, t)
    ensures KnownInv(h, full', m, t)
  {
    if full' != full {
      CommittedInLeader(h, members, m, t, t);
      assert Agree(full, h.logs[t], 0, m);
      ChangeKeepsAgreement(h, members, full, full', t, installed, m);
    }
  }

  lemma CommittedStep(c: Cluster, a: Action, p: NodeId, m: nat)
    requires Inv(c) && Enabled(c, a) && Recovers(c, a) && Inv(Apply(c, a)) && Continues(c, Apply(c, a))
    requires HasCommitted(c, p, m)
    ensures HasCommitted(Apply(c, a), p, m)
  {
    var c' := Apply(c, a);
    var h, h', full := c.history, c'.history, Full(c.history, c.servers[p].rep.node);
    assert HistInv(h', c'.servers.Keys);
    hide HistInv;
    hide Inv;
    hide Enabled;
    hide Recovers;
    hide EffectOf;
    hide KnownInv;
    if p == a.id {
      var e := EffectOf(c, a);
      var t := e.server.rep.disk.hard.currentTerm;
      TermsGoUp(c, a);
      ActionLogChange(c, a);
      KnownInvGrows(h, h', full, m, c.servers[p].rep.disk.hard.currentTerm, t);
      ChangeKeepsCommitted(h', c'.servers.Keys, full, Full(h', e.server.rep.node), t, InstallPoint(a), m);
    } else {
      OthersKeepLog(c, a, p);
      var t := c.servers[p].rep.disk.hard.currentTerm;
      KnownInvGrows(h, h', full, m, t, t);
    }
  }

  // ---------------------------------------------------------------- match indices

  /** A success reply is true of its sender. */
  predicate ReplyTruthful(c: Cluster, m: Message) {
    match m
    case AppendResp(from, req, resp) =>
      resp.success ==> Holds(c, from, req.term, req.prevLogIndex + |req.entries|)
    case SnapResp(from, req, resp) =>
      req.term <= resp.term && (resp.term == req.term ==> Holds(c, from, req.term, req.snapshot.lastIncludedIndex))
    case _ => true
  }

  /** What a leader believes of a peer's log is true of it. */
  predicate MatchTruthful(c: Cluster, id: NodeId, p: NodeId)
    requires id in c.servers
  {
    var n := c.servers[id].rep.node;
    n.role == Leader && p in c.servers && p != id ==> Holds(c, p, n.currentTerm, Get(n.matchIndex, p))
  }

  ghost predicate Truthful(c: Cluster) {
    && (forall m :: m in c.net ==> ReplyTruthful(c, m))
    && (forall id, p {:trigger MatchTruthful(c, id, p)} :: id in c.servers ==> MatchTruthful(c, id, p))
  }

  lemma ReplyStep(c: Cluster, a: Action, m: Message)
    requires Inv(c) && Enabled(c, a) && Recovers(c, a) && Inv(Apply(c, a)) && Continues(c, Apply(c, a))
    requires ReplyTruthful(c, m)
    ensures ReplyTruthful(Apply(c, a), m)
  {
    hide Inv;
    hide Continues;
    hide Enabled;
    hide Recovers;
    hide Apply;
    hide Holds;
    match m
    case AppendResp(from, req, resp) =>
      if resp.success {
        HoldsStep(c, a, from, req.term, req.prevLogIndex + |req.entries|);
      }
    case SnapResp(from, req, resp) =>
      if resp.term == req.term {
        HoldsStep(c, a, from, req.term, req.snapshot.lastIncludedIndex);
      }
    case _ =>
  }

  /** An accepted AppendEntries request leaves the follower equal to the leader up to its last entry. */
  lemma AcceptedAgrees(h: History, members: set<NodeId>, id: NodeId, s: Server, req: AppendRequest, f: AppendFaults)
    requires HistInv(h, members) && ServerInv(h, members, id, s) && AppendReqInv(h, req)
    requires HandleAppendEntries(s.rep, req, f).1.Some? && HandleAppendEntries(s.rep, req, f).1.value.success
    ensures var r := HandleAppendEntries(s.rep, req, f).0;
      && r.disk.hard.currentTerm == req.term
      && Agree(Full(h, r.node), h.logs[req.term], 0, req.prevLogIndex + |req.entries|)
  {
    hide HistInv;
    hide HandleAppendEntries;
    var r1 := Follow(s.rep, req.term);
    RefusalIsFailure(r1.node, req);
    AppendCases(s.rep, req, f);
    FollowStep(h, members, id, s, req.term);
    assert r1.disk.hard.currentTerm == req.term by { assert TermsInv(s); }
    hide ServerInv;
    MergeChange(h, members, id, s.(rep := r1), req, f.truncateOk, f.appendOk);
    MergeLog(r1, req, f.truncateOk, f.appendOk);
  }

  lemma RefusalIsFailure(n: Node, req: AppendRequest)
    ensures Refusal(n, req).Some? ==> !Refusal(n, req).value.success
  {
  }

  /** A request for a snapshot, once answered in its own term, finds the follower at least that far. */
  lemma InstalledAgrees(h: History, members: set<NodeId>, id: NodeId, s: Server, req: SnapshotRequest, f: SnapshotFaults)
    requires HistInv(h, members) && ServerInv(h, members, id, s) && SnapReqInv(h, req)
    requires HandleInstallSnapshot(s.rep, req, f).1 == Some(SnapshotResponse(req.term))
    ensures var r := HandleInstallSnapshot(s.rep, req, f).0;
      && r.disk.hard.currentTerm == req.term
      && Agree(Full(h, r.node), h.logs[req.term], 0, req.snapshot.lastIncludedIndex)
  {
    var i := req.snapshot.lastIncludedIndex;
    CommittedInLeader(h, members, i, req.term, req.term);
    hide HistInv;
    assert SnapshotInv(h, s) && TermsInv(s);
    hide ServerInv;
    InstallReached(s.rep, req, f);
    hide HandleInstallSnapshot;
    InstallOutcome(s.rep, req, f);
    var r := HandleInstallSnapshot(s.rep, req, f).0;
    assert Agree(Full(h, r.node), h.committed, 0, i);
  }

  lemma InstallReached(r: Replica, req: SnapshotRequest, f: SnapshotFaults)
    requires HandleInstallSnapshot(r, req, f).1 == Some(SnapshotResponse(req.term))
    requires !r.node.degraded ==> r.disk.hard.currentTerm == r.node.currentTerm
    ensures var r' := HandleInstallSnapshot(r, req, f).0;
      req.snapshot.lastIncludedIndex <= r'.node.snapshotIndex && r'.disk.hard.currentTerm == req.term
  {
  }

  lemma SentReplies(c: Cluster, a: Action, m: Message)
    requires Enabled(c, a) && m in EffectOf(c, a).sent && (m.AppendResp? || m.SnapResp?)
    ensures a.DoAppend? || a.DoInstall?
  {
    hide HandleRequestVote;
  }

  lemma AppendReplyTruthful(c: Cluster, a: Action, m: Message)
    requires Inv(c) && Enabled(c, a) && Continues(c, Apply(c, a)) && m in EffectOf(c, a).sent && a.DoAppend?
    ensures ReplyTruthful(Apply(c, a), m)
  {
    var h, members, s := c.history, c.servers.Keys, c.servers[a.id];
    Unpack(c, a.id);
    assert MessageInv(h, members, AppendReq(a.id, a.areq));
    hide Inv;
    hide HistInv;
    hide ServerInv;
    hide HandleAppendEntries;
    if m.aresp.success {
      AcceptedAgrees(h, members, a.id, s, a.areq, a.faults);
      FullOfHistory(h, Apply(c, a).history, EffectOf(c, a).server.rep.node);
      assert IsPrefix(h.logs[a.areq.term], Apply(c, a).history.logs[a.areq.term]);
    }
  }

  lemma InstallTerm(r: Replica, req: SnapshotRequest, f: SnapshotFaults)
    requires HandleInstallSnapshot(r, req, f).1.Some?
    ensures req.term <= HandleInstallSnapshot(r, req, f).1.value.term
  {
  }

  lemma InstallReplyTruthful(c: Cluster, a: Action, m: Message)
    requires Inv(c) && Enabled(c, a) && Continues(c, Apply(c, a)) && m in EffectOf(c, a).sent && a.DoInstall?
    ensures ReplyTruthful(Apply(c, a), m)
  {
    var h, members, s := c.history, c.servers.Keys, c.servers[a.id];
    Unpack(c, a.id);
    assert MessageInv(h, members, SnapReq(a.id, a.sreq));
    hide Inv;
    hide HistInv;
    hide ServerInv;
    hide HandleInstallSnapshot;
    InstallTerm(s.rep, a.sreq, a.sfaults);
    if m.sresp.term == a.sreq.term {
      InstalledAgrees(h, members, a.id, s, a.sreq, a.sfaults);
    }
  }

  lemma SentTruthful(c: Cluster, a: Action, m: Message)
    requires Inv(c) && Enabled(c, a) && Continues(c, Apply(c, a)) && m in EffectOf(c, a).sent
    ensures ReplyTruthful(Apply(c, a), m)
  {
    hide Inv;
    hide Enabled;
    hide Recovers;
    hide EffectOf;
    hide Apply;
    hide Holds;
    hide Continues;
    if m.AppendResp? || m.SnapResp? {
      SentReplies(c, a, m);
      if a.DoAppend? {
        AppendReplyTruthful(c, a, m);
      } else {
        InstallReplyTruthful(c, a, m);
      }
    }
  }

  /** Where a leader's match index for a peer can come from: it was there, it is zero after an election, or
      it was confirmed by a reply of that peer in the leader's term. */
  ghost predicate MatchSource(c: Cluster, n: Node, n': Node, p: NodeId) {
    || (n.role == Leader && n.currentTerm == n'.currentTerm && Get(n.matchIndex, p) == Get(n'.matchIndex, p))
    || Get(n'.matchIndex, p) == 0
    || (exists req, resp :: AppendResp(p, req, resp) in c.net && resp.success && req.term == n'.currentTerm
          && Get(n'.matchIndex, p) == req.prevLogIndex + |req.entries|)
    || (exists req, resp :: SnapResp(p, req, resp) in c.net && resp.term <= req.term == n'.currentTerm
          && Get(n'.matchIndex, p) == req.snapshot.lastIncludedIndex)
  }

  lemma CommitKeepsMatch(cfg: Config, r: Replica, ok: bool)
    ensures var n := AdvanceCommit(cfg, r, ok).node;
      n.role == r.node.role && n.currentTerm == r.node.currentTerm && n.matchIndex == r.node.matchIndex
  {
  }

  lemma AppendReplyMatch(
    cfg: Config, r: Replica, peer: NodeId, req: AppendRequest, resp: AppendResponse, ok: bool, p: NodeId)
    requires OnAppendReply(cfg, r, peer, req, resp, ok).node.role == Leader
    ensures var n, n' := r.node, OnAppendReply(cfg, r, peer, req, resp, ok).node;
      && n.role == Leader && n.currentTerm == n'.currentTerm
      && (Get(n.matchIndex, p) == Get(n'.matchIndex, p)
          || (p == peer && resp.success && req.term == n.currentTerm
              && Get(n'.matchIndex, p) == req.prevLogIndex + |req.entries|))
  {
    hide AdvanceCommit;
    hide BackOff;
    var n := r.node;
    if resp.term <= n.currentTerm && n.role == Leader && req.term == n.currentTerm && resp.success {
      CommitKeepsMatch(cfg, r.(node := RecordMatch(n, peer, req.prevLogIndex + |req.entries|)), ok);
    }
  }

  lemma StartCommandMatch(cfg: Config, r: Replica, command: Command, appendOk: bool, commitOk: bool, p: NodeId)
    requires p != cfg.id
    ensures var n := StartCommand(cfg, r, command, appendOk, commitOk).0.node;
      n.role == r.node.role && n.currentTerm == r.node.currentTerm && Get(n.matchIndex, p) == Get(r.node.matchIndex, p)
  {
    hide CommitTarget;
  }

  lemma AppendNeverLeads(r: Replica, req: AppendRequest, f: AppendFaults)
    ensures var n := HandleAppendEntries(r, req, f).0.node; n.role == Follower || n == r.node
  {
    hide Refusal;
    hide Repeated;
  }

  lemma InstallNeverLeads(r: Replica, req: SnapshotRequest, f: SnapshotFaults)
    ensures var n := HandleInstallSnapshot(r, req, f).0.node; n.role == Follower || n == r.node
  {
  }

  lemma VoteKeepsMatch(r: Replica, req: VoteRequest, termOk: bool, voteOk: bool)
    ensures var n := HandleRequestVote(r, req, termOk, voteOk).0.node;
      || n.role == Follower
      || (n.role == r.node.role && n.currentTerm == r.node.currentTerm && n.matchIndex == r.node.matchIndex)
  {
    hide UpToDate;
  }

  /** Other actions than counting votes and reading replies leave match indices alone. */
  lemma LeaderKeepsMatch(c: Cluster, a: Action, p: NodeId)
    requires Enabled(c, a) && !a.DoCountVote? && !a.DoAppendReply? && !a.DoInstallReply?
    requires EffectOf(c, a).server.rep.node.role == Leader && p in c.servers && p != a.id
    ensures var n, n' := c.servers[a.id].rep.node, EffectOf(c, a).server.rep.node;
      n.role == Leader && n.currentTerm == n'.currentTerm && Get(n.matchIndex, p) == Get(n'.matchIndex, p)
  {
    hide HandleAppendEntries;
    hide HandleInstallSnapshot;
    hide HandleRequestVote;
    hide StartCommand;
    hide TakeSnapshot;
    hide ServiceModel.HandleApply;
    var r := c.servers[a.id].rep;
    match a
    case DoVote(_, req, termOk, voteOk) => VoteKeepsMatch(r, req, termOk, voteOk);
    case DoStartCommand(id, command, appendOk, commitOk) =>
      StartCommandMatch(c.ConfigOf(id), r, command, appendOk, commitOk, p);
    case DoAppend(_, req, f) => AppendNeverLeads(r, req, f);
    case DoInstall(_, req, f) => InstallNeverLeads(r, req, f);
    case DoCompact(_, saveOk, setLogOk) => CompactKeepsMatch(r, c.servers[a.id].service, saveOk, setLogOk);
    case _ =>
  }

  lemma CompactKeepsMatch(r: Replica, svc: ServiceModel.Service, saveOk: bool, setLogOk: bool)
    ensures var n := TakeSnapshot(r, svc.lastAppliedIndex, Encoded(svc.store), saveOk, setLogOk).0.node;
      n.role == r.node.role && n.currentTerm == r.node.currentTerm && n.matchIndex == r.node.matchIndex
  {
  }

  lemma SourceOfMatch(c: Cluster, a: Action, p: NodeId)
    requires Enabled(c, a) && EffectOf(c, a).server.rep.node.role == Leader && p in c.servers && p != a.id
    ensures MatchSource(c, c.servers[a.id].rep.node, EffectOf(c, a).server.rep.node, p)
  {
    hide OnAppendReply;
    hide Elect;
    hide Full;
    var r := c.servers[a.id].rep;
    if a.DoAppendReply? {
      AppendReplyMatch(c.ConfigOf(a.id), r, a.peer, a.areq, a.aresp, a.ok, p);
    } else if !a.DoCountVote? && !a.DoInstallReply? {
      hide EffectOf;
      LeaderKeepsMatch(c, a, p);
    }
  }

  lemma MatchStep(c: Cluster, a: Action, id: NodeId, p: NodeId)
    requires Inv(c) && Enabled(c, a) && Recovers(c, a) && Inv(Apply(c, a)) && Continues(c, Apply(c, a))
    requires Truthful(c) && id in c.servers
    ensures MatchTruthful(Apply(c, a), id, p)
  {
    hide Inv;
    hide Enabled;
    hide Recovers;
    hide EffectOf;
    hide Holds;
    var c' := Apply(c, a);
    var n, n' := c.servers[id].rep.node, c'.servers[id].rep.node;
    if n'.role == Leader && p in c.servers && p != id {
      assert MatchTruthful(c, id, p);
      var m := Get(n'.matchIndex, p);
      if id == a.id {
        SourceOfMatch(c, a, p);
      }
      assert Holds(c, p, n'.currentTerm, m) by { SourceHolds(c, id, n', p); }
      HoldsStep(c, a, p, n'.currentTerm, m);
    }
  }

  lemma SourceHolds(c: Cluster, id: NodeId, n': Node, p: NodeId)
    requires Truthful(c) && id in c.servers && p in c.servers && p != id
    requires MatchSource(c, c.servers[id].rep.node, n', p)
    ensures Holds(c, p, n'.currentTerm, Get(n'.matchIndex, p))
  {
    assert MatchTruthful(c, id, p);
  }

  lemma TruthfulStep(c: Cluster, a: Action)
    requires Inv(c) && Enabled(c, a) && Recovers(c, a) && Truthful(c)
    ensures Truthful(Apply(c, a))
  {
    hide Inv;
    hide Enabled;
    hide Recovers;
    hide EffectOf;
    hide ReplyTruthful;
    hide MatchTruthful;
    var c' := Apply(c, a);
    StepPreservesInv(c, a);
    forall m | m in c'.net ensures ReplyTruthful(c', m) {
      if m in c.net {
        ReplyStep(c, a, m);
      } else {
        SentTruthful(c, a, m);
      }
    }
    forall id, p {:trigger MatchTruthful(c', id, p)} | id in c'.servers ensures MatchTruthful(c', id, p) {
      MatchStep(c, a, id, p);
    }
  }
}
