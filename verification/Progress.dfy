/** What servers cannot put off: in every reachable state a leader has committed what a majority is known to hold,
    answers tell the truth about terms, later terms depose, nobody is left without the next step. */
module Progress {
  import opened Types
  import opened NodeModel
  import opened StateMachine
  import opened Cluster
  import opened Invariants
  import opened Obligations
  import opened Theorems
  import Agreement
  import Compaction
  import Elections
  import LogChanges
  import Preservation
  import Safety
  import ServiceModel
  import StepsReplication

  // ---------------------------------------------------------------- commits

  /** A leader has no entry of its term above its commit index that a majority is known to hold. */
  ghost predicate Prompt(cfg: Config, n: Node) {
    n.role == Leader ==>
      forall i: nat, q {:trigger Backs(cfg, n.matchIndex, i, q)} :: Backs(cfg, n.matchIndex, i, q) ==> !Open(n, i)
  }

  lemma PromptAfter(cfg: Config, n: Node, r': Replica)
    requires CommitsAll(cfg, n, r')
    requires r'.node.log == n.log && r'.node.snapshotIndex == n.snapshotIndex && r'.node.currentTerm == n.currentTerm
    requires r'.node.matchIndex == n.matchIndex && n.snapshotIndex <= n.commitIndex
    ensures Prompt(cfg, r'.node)
  {
    assert forall i: nat :: Open(r'.node, i) ==> Open(n, i);
  }

  /** Only progress on peers counts. */
  lemma PromptSame(cfg: Config, n: Node, n': Node)
    requires Prompt(cfg, n) && n.role == Leader
    requires forall p :: p in cfg.peers ==> Get(n'.matchIndex, p) == Get(n.matchIndex, p)
    requires forall i: nat :: Open(n', i) ==> Open(n, i)
    ensures Prompt(cfg, n')
  {
    forall i: nat, q {:trigger Backs(cfg, n'.matchIndex, i, q)} | Backs(cfg, n'.matchIndex, i, q) ensures !Open(n', i) {
      assert Backs(cfg, n.matchIndex, i, q);
    }
  }

  lemma NewLeaderPrompt(cfg: Config, n: Node, n': Node, p: NodeId)
    requires TookOver(n, n', cfg) && p in cfg.peers
    ensures Prompt(cfg, n')
  {
    forall i: nat, q {:trigger Backs(cfg, n'.matchIndex, i, q)} | Backs(cfg, n'.matchIndex, i, q) ensures !Open(n', i) {
      if q == {} {
        assert |{p}| <= |cfg.peers| by { Safety.SubsetSize({p}, cfg.peers); }
      } else {
        var x :| x in q;
        assert Get(n'.matchIndex, x) == 0;
      }
    }
  }

  /** A peer that confirmed a snapshot need not be counted: a current-term entry under it is committed already. */
  lemma SnapshotBelowCommit(h: History, members: set<NodeId>, id: NodeId, s: Server, req: SnapshotRequest, i: nat)
    requires HistInv(h, members) && ServerInv(h, members, id, s) && SnapReqInv(h, req)
    requires s.rep.node.role == Leader && req.term == s.rep.node.currentTerm && Open(s.rep.node, i)
    ensures req.snapshot.lastIncludedIndex < i
  {
    var n, t := s.rep.node, s.rep.node.currentTerm;
    Preservation.LeaderFacts(h, members, id, s);
    assert t in h.decisions ==> h.decisions[t].index <= n.commitIndex;
    hide ServerInv;
    assert Full(h, n)[i - 1] == n.log[i - n.snapshotIndex - 1];
    if i <= req.snapshot.lastIncludedIndex {
      Safety.CommittedByOwnTerm(h, members, req.snapshot.lastIncludedIndex, t, i);
    }
  }

  lemma SnapshotReplyPrompt(
    h: History, members: set<NodeId>, cfg: Config, s: Server, peer: NodeId, req: SnapshotRequest, resp: SnapshotResponse,
    ok: bool)
    requires HistInv(h, members) && ServerInv(h, members, cfg.id, s) && SnapReqInv(h, req) && Prompt(cfg, s.rep.node)
    ensures Prompt(cfg, OnSnapshotReply(s.rep, peer, req, resp, ok).node)
  {
    var n, n' := s.rep.node, OnSnapshotReply(s.rep, peer, req, resp, ok).node;
    if n.role == Leader && req.term == n.currentTerm && resp.term <= req.term {
      forall i: nat, q {:trigger Backs(cfg, n'.matchIndex, i, q)} | Backs(cfg, n'.matchIndex, i, q) ensures !Open(n', i) {
        assert Open(n', i) <==> Open(n, i);
        if Open(n, i) {
          SnapshotBelowCommit(h, members, cfg.id, s, req, i);
          assert Backs(cfg, n.matchIndex, i, q);
        }
      }
    }
  }

  lemma CompactPrompt(cfg: Config, r: Replica, index: nat, data: Blob, saveOk: bool, setLogOk: bool)
    requires Prompt(cfg, r.node) && r.node.snapshotIndex <= r.node.commitIndex
    ensures Prompt(cfg, TakeSnapshot(r, index, data, saveOk, setLogOk).0.node)
  {
    var n, n' := r.node, TakeSnapshot(r, index, data, saveOk, setLogOk).0.node;
    if n.role == Leader {
      PromptSame(cfg, n, n');
    }
  }

  /** The sections that touch a leader's log, commit index or match indices. */
  predicate CommitAction(a: Action) {
    a.DoCountVote? || a.DoStartCommand? || a.DoAppendReply? || a.DoInstallReply? || a.DoCompact?
  }

  predicate SameCommit(n: Node, n': Node) {
    && n'.role == n.role && n'.currentTerm == n.currentTerm && n'.log == n.log && n'.snapshotIndex == n.snapshotIndex
    && n'.commitIndex == n.commitIndex && n'.matchIndex == n.matchIndex
  }

  lemma VoteKeepsCommit(r: Replica, req: VoteRequest, termOk: bool, voteOk: bool)
    ensures var n := HandleRequestVote(r, req, termOk, voteOk).0.node; n.role == Leader ==> SameCommit(r.node, n)
  {
    hide UpToDate;
  }

  lemma LeaderUnmoved(c: Cluster, a: Action)
    requires Enabled(c, a) && !CommitAction(a) && EffectOf(c, a).server.rep.node.role == Leader
    ensures SameCommit(c.servers[a.id].rep.node, EffectOf(c, a).server.rep.node)
  {
    hide HandleAppendEntries;
    hide HandleInstallSnapshot;
    hide HandleRequestVote;
    hide ServiceModel.HandleApply;
    hide TrimmedLog;
    var r := c.servers[a.id].rep;
    match a
    case DoVote(_, req, termOk, voteOk) => VoteKeepsCommit(r, req, termOk, voteOk);
    case DoAppend(_, req, f) => Agreement.AppendNeverLeads(r, req, f);
    case DoInstall(_, req, f) => Agreement.InstallNeverLeads(r, req, f);
    case _ =>
  }

  lemma CountPrompt(c: Cluster, a: Action)
    requires Inv(c) && Enabled(c, a) && a.DoCountVote? && Prompt(c.ConfigOf(a.id), c.servers[a.id].rep.node)
    ensures Prompt(c.ConfigOf(a.id), EffectOf(c, a).server.rep.node)
  {
    var s, s' := c.servers[a.id], EffectOf(c, a).server;
    assert MessageInv(c.history, c.servers.Keys, VoteResp(a.voter, a.vreq, a.vresp));
    hide Inv;
    if s.rep.node.role == Candidate && a.vresp.term <= s.rep.node.currentTerm {
      TakesOverIff(c, a);
      hide EffectOf;
      if s'.rep.node.role == Leader {
        NewLeaderPrompt(c.ConfigOf(a.id), s.rep.node, s'.rep.node, a.voter);
      }
    }
  }

  lemma ReplyPrompt(cfg: Config, r: Replica, peer: NodeId, req: AppendRequest, resp: AppendResponse, ok: bool)
    requires cfg.id !in cfg.peers && r.node.snapshotIndex <= r.node.commitIndex && Prompt(cfg, r.node)
    ensures Prompt(cfg, OnAppendReply(cfg, r, peer, req, resp, ok).node)
  {
    var n, r' := r.node, OnAppendReply(cfg, r, peer, req, resp, ok);
    if resp.term <= n.currentTerm && n.role == Leader && req.term == n.currentTerm {
      if resp.success {
        ReplyCommits(cfg, r, peer, req, resp, ok);
        hide OnAppendReply;
        PromptAfter(cfg, n.(matchIndex := r'.node.matchIndex), r');
      } else {
        PromptSame(cfg, n, r'.node);
      }
    }
  }

  lemma CommandPrompt(cfg: Config, r: Replica, command: Command, appendOk: bool, commitOk: bool)
    requires cfg.id !in cfg.peers && r.node.snapshotIndex <= r.node.commitIndex && Prompt(cfg, r.node)
    ensures Prompt(cfg, StartCommand(cfg, r, command, appendOk, commitOk).0.node)
  {
    var n, r' := r.node, StartCommand(cfg, r, command, appendOk, commitOk).0;
    ProposalAccepted(cfg, r, command, appendOk, commitOk);
    hide StartCommand;
    if StartCommand(cfg, r, command, appendOk, commitOk).1.Some? {
      PromptAfter(cfg, n.(log := r'.node.log, matchIndex := r'.node.matchIndex), r');
    }
  }

  lemma PromptStep(c: Cluster, a: Action)
    requires Inv(c) && Enabled(c, a) && Prompt(c.ConfigOf(a.id), c.servers[a.id].rep.node)
    ensures Prompt(c.ConfigOf(a.id), EffectOf(c, a).server.rep.node)
  {
    hide Prompt;
    hide EffectOf;
    if a.DoCountVote? {
      CountPrompt(c, a);
    } else if a.DoInstallReply? {
      InstallReplyPrompt(c, a);
    } else if CommitAction(a) {
      assert a.id in c.servers;
      Preservation.Unpack(c, a.id);
      LogChanges.CommittedSnapshot(c.history, c.servers.Keys, a.id, c.servers[a.id]);
      hide Inv;
      CommitActionPrompt(c, a);
    } else {
      UnmovedPrompt(c, a);
    }
  }

  lemma InstallReplyPrompt(c: Cluster, a: Action)
    requires Inv(c) && Enabled(c, a) && a.DoInstallReply? && Prompt(c.ConfigOf(a.id), c.servers[a.id].rep.node)
    ensures Prompt(c.ConfigOf(a.id), EffectOf(c, a).server.rep.node)
  {
    Preservation.Unpack(c, a.id);
    assert MessageInv(c.history, c.servers.Keys, SnapResp(a.peer, a.sreq, a.sresp));
    hide Inv;
    hide HistInv;
    hide ServerInv;
    hide Prompt;
    hide OnSnapshotReply;
    SnapshotReplyPrompt(
      c.history, c.servers.Keys, c.ConfigOf(a.id), c.servers[a.id], a.peer, a.sreq, a.sresp, a.ok);
  }

  lemma CommitActionPrompt(c: Cluster, a: Action)
    requires Enabled(c, a) && (a.DoStartCommand? || a.DoAppendReply? || a.DoCompact?)
    requires SnapshotInv(c.history, c.servers[a.id]) && Prompt(c.ConfigOf(a.id), c.servers[a.id].rep.node)
    ensures Prompt(c.ConfigOf(a.id), EffectOf(c, a).server.rep.node)
  {
    hide Prompt;
    hide OnAppendReply;
    hide StartCommand;
    hide TakeSnapshot;
    var s, cfg := c.servers[a.id], c.ConfigOf(a.id);
    match a
    case DoStartCommand(_, command, appendOk, commitOk) =>
      CommandPrompt(cfg, s.rep, command, appendOk, commitOk);
      RefusedProposal(cfg, s.rep, command, appendOk, commitOk);
    case DoAppendReply(_, peer, req, resp, ok) => ReplyPrompt(cfg, s.rep, peer, req, resp, ok);
    case DoCompact(_, saveOk, setLogOk) =>
      CompactPrompt(cfg, s.rep, s.service.lastAppliedIndex, Encoded(s.service.store), saveOk, setLogOk);
  }

  lemma RefusedProposal(cfg: Config, r: Replica, command: Command, appendOk: bool, commitOk: bool)
    ensures var (r', index) := StartCommand(cfg, r, command, appendOk, commitOk); index.None? ==> r' == r
  {
    hide AdvanceCommit;
  }

  lemma UnmovedPrompt(c: Cluster, a: Action)
    requires Enabled(c, a) && !CommitAction(a) && Prompt(c.ConfigOf(a.id), c.servers[a.id].rep.node)
    ensures Prompt(c.ConfigOf(a.id), EffectOf(c, a).server.rep.node)
  {
    hide EffectOf;
    var n, n' := c.servers[a.id].rep.node, EffectOf(c, a).server.rep.node;
    if n'.role == Leader {
      LeaderUnmoved(c, a);
      PromptSame(c.ConfigOf(a.id), n, n');
    }
  }

  ghost predicate AllPrompt(c: Cluster) {
    forall id {:trigger Prompt(c.ConfigOf(id), c.servers[id].rep.node)} :: id in c.servers ==>
      Prompt(c.ConfigOf(id), c.servers[id].rep.node)
  }

  lemma AllPromptStep(c: Cluster, a: Action)
    requires Inv(c) && Enabled(c, a) && AllPrompt(c)
    ensures AllPrompt(Apply(c, a))
  {
    assert a.id in c.servers;
    hide Inv;
    hide Enabled;
    hide EffectOf;
    hide Prompt;
    var c' := Apply(c, a);
    assert c'.servers.Keys == c.servers.Keys;
    assert Prompt(c.ConfigOf(a.id), c.servers[a.id].rep.node);
    PromptStep(c, a);
    forall id {:trigger Prompt(c'.ConfigOf(id), c'.servers[id].rep.node)} | id in c'.servers
      ensures Prompt(c'.ConfigOf(id), c'.servers[id].rep.node)
    {
      assert c'.ConfigOf(id) == c.ConfigOf(id);
      assert Prompt(c.ConfigOf(id), c.servers[id].rep.node);
    }
  }

  lemma InitPrompt(c: Cluster)
    requires Init(c)
    ensures AllPrompt(c)
  {
    hide TrimmedLog;
  }

  lemma {:induction false} RunPrompt(run: seq<Cluster>, i: nat)
    requires IsRun(run) && i < |run|
    ensures AllPrompt(run[i])
  {
    hide Init;
    hide NextAt;
    hide Inv;
    hide Preservation.Continues;
    hide Enabled;
    hide Apply;
    hide AllPrompt;
    hide Recovers;
    if i == 0 {
      InitPrompt(run[0]);
    } else {
      RunPrompt(run, i - 1);
      var a := RunStep(run, i - 1);
      AllPromptStep(run[i - 1], a);
    }
  }

  /** In every state of every run, an entry of a leader's own term that the leader knows to be held by a majority is
      within its commit index. */
  lemma QuorumIsCommitted(run: seq<Cluster>, i: nat, a: NodeId, index: nat, q: set<NodeId>)
    requires IsRun(run) && i < |run| && a in run[i].servers && run[i].servers[a].rep.node.role == Leader
    requires var n := run[i].servers[a].rep.node;
      && n.snapshotIndex < index <= n.LastIndex() && n.log[index - n.snapshotIndex - 1].term == n.currentTerm
      && q <= run[i].servers.Keys - {a} && 2 * (|q| + 1) > |run[i].servers|
      && forall p :: p in q ==> Get(n.matchIndex, p) >= index
    ensures index <= run[i].servers[a].rep.node.commitIndex
  {
    var c, n := run[i], run[i].servers[a].rep.node;
    RunPrompt(run, i);
    IndexRanges(run, i, a);
    hide IsRun;
    assert Prompt(c.ConfigOf(a), n);
    assert c.ConfigOf(a).Members() == c.servers.Keys;
    MemberCount(c.ConfigOf(a));
    assert Backs(c.ConfigOf(a), n.matchIndex, index, q);
  }

  // ---------------------------------------------------------------- answers

  lemma SentStays(c: Cluster, a: Action)
    requires Enabled(c, a)
    ensures c.net <= Apply(c, a).net
  {
    hide EffectOf;
  }

  /** Messages stay available for the rest of an execution. */
  lemma {:induction false} NetGrows(run: seq<Cluster>, i: nat, j: nat)
    requires IsExecution(run) && i <= j < |run|
    ensures run[i].net <= run[j].net
  {
    hide Init;
    hide Enabled;
    hide Apply;
    if i < j {
      NetGrows(run, i, j - 1);
      assert StepAt(run, j - 1);
      var a :| Enabled(run[j - 1], a) && run[j] == Apply(run[j - 1], a);
      SentStays(run[j - 1], a);
    }
  }

  /** An answer carries a term between that of its request and the one its sender has on disk. */
  predicate AnswerTrue(c: Cluster, m: Message) {
    match m
    case VoteResp(from, req, resp) => TermBetween(c, from, req.term, resp.term)
    case AppendResp(from, req, resp) => TermBetween(c, from, req.term, resp.term)
    case SnapResp(from, req, resp) => TermBetween(c, from, req.term, resp.term)
    case _ => true
  }

  predicate TermBetween(c: Cluster, from: NodeId, asked: nat, answered: nat) {
    from in c.servers && asked <= answered <= c.servers[from].rep.disk.hard.currentTerm
  }

  lemma VoteAnswer(r: Replica, req: VoteRequest, termOk: bool, voteOk: bool)
    requires !r.node.degraded ==> r.disk.hard.currentTerm == r.node.currentTerm
    ensures var (r', resp) := HandleRequestVote(r, req, termOk, voteOk);
      resp.Some? ==> resp.value.term == Max(r.node.currentTerm, req.term) == r'.disk.hard.currentTerm
  {
    hide UpToDate;
  }

  lemma AppendAnswer(r: Replica, req: AppendRequest, f: AppendFaults)
    requires r.disk.hard.currentTerm <= r.node.currentTerm
    requires !r.node.degraded ==> r.disk.hard.currentTerm == r.node.currentTerm
    ensures var (r', resp) := HandleAppendEntries(r, req, f);
      resp.Some? ==> resp.value.term == Max(r.node.currentTerm, req.term) <= r'.disk.hard.currentTerm
  {
    AppendAnswered(r, req, f);
    LogChanges.TermUpAppend(r, req, f);
    hide HandleAppendEntries;
  }

  lemma InstallAnswer(r: Replica, req: SnapshotRequest, f: SnapshotFaults)
    requires r.disk.hard.currentTerm <= r.node.currentTerm
    requires !r.node.degraded ==> r.disk.hard.currentTerm == r.node.currentTerm
    ensures var (r', resp) := HandleInstallSnapshot(r, req, f);
      resp.Some? ==> resp.value.term == Max(r.node.currentTerm, req.term) <= r'.disk.hard.currentTerm
  {
    InstallAnswered(r, req, f);
    LogChanges.TermUpInstall(r, req, f);
    hide HandleInstallSnapshot;
  }

  lemma SentAnswerTrue(c: Cluster, a: Action, m: Message)
    requires Enabled(c, a) && TermsInv(c.servers[a.id]) && m in EffectOf(c, a).sent
    ensures AnswerTrue(Apply(c, a), m)
  {
    hide HandleRequestVote;
    hide HandleAppendEntries;
    hide HandleInstallSnapshot;
    var r := c.servers[a.id].rep;
    match a
    case DoVote(_, req, termOk, voteOk) => VoteAnswer(r, req, termOk, voteOk);
    case DoAppend(_, req, f) => AppendAnswer(r, req, f);
    case DoInstall(_, req, f) => InstallAnswer(r, req, f);
    case _ =>
  }

  lemma AnswerStays(c: Cluster, a: Action, m: Message)
    requires Enabled(c, a) && TermsInv(c.servers[a.id]) && AnswerTrue(c, m)
    ensures AnswerTrue(Apply(c, a), m)
  {
    LogChanges.TermUpAction(c, a);
    hide EffectOf;
  }

  lemma ActorTerms(c: Cluster, a: Action)
    requires Elections.BallotInv(c) && Enabled(c, a)
    ensures TermsInv(c.servers[a.id])
  {
    assert Elections.BallotServer(c.history, c.servers.Keys, a.id, c.servers[a.id]);
  }

  /** In every execution, every answer in the network tells a term at least its request's and at most the one its
      sender has on disk. */
  lemma {:induction false} AnswersTrue(run: seq<Cluster>, i: nat, m: Message)
    requires IsExecution(run) && i < |run| && m in run[i].net
    ensures AnswerTrue(run[i], m)
  {
    hide Elections.BallotInv;
    hide Enabled;
    hide EffectOf;
    hide TermsInv;
    hide AnswerTrue;
    if 0 < i {
      Elections.ExecutionBallots(run, i - 1, i - 1);
      assert StepAt(run, i - 1);
      var a :| Enabled(run[i - 1], a) && run[i] == Apply(run[i - 1], a);
      ActorTerms(run[i - 1], a);
      if m in run[i - 1].net {
        AnswersTrue(run, i - 1, m);
        AnswerStays(run[i - 1], a, m);
      } else {
        SentAnswerTrue(run[i - 1], a, m);
      }
    }
  }

  /** Reading an answer of a later term, of whatever kind, makes the reader a follower in that term. */
  lemma LaterAnswerDeposes(c: Cluster, a: Action)
    requires Enabled(c, a)
    ensures var n, r' := c.servers[a.id].rep.node, EffectOf(c, a).server.rep;
      && (a.DoCountVote? && a.vresp.term > n.currentTerm ==> Deposed(r', a.vresp.term))
      && (a.DoAppendReply? && a.aresp.term > n.currentTerm ==> Deposed(r', a.aresp.term))
      && (a.DoInstallReply? && a.sresp.term > n.currentTerm ==> Deposed(r', a.sresp.term))
  {
    hide OnAppendReply;
    hide OnSnapshotReply;
    hide Elect;
    hide Full;
    hide BecomeLeader;
    var r := c.servers[a.id].rep;
    if a.DoAppendReply? {
      LaterTermDeposes(
        c.ConfigOf(a.id), r, a.peer, a.areq, a.aresp, SnapshotRequest(0, 0, Snapshot(0, 0, NoBytes)), SnapshotResponse(0),
        a.ok);
    } else if a.DoInstallReply? {
      LaterTermDeposes(
        c.ConfigOf(a.id), r, a.peer, AppendRequest(0, 0, 0, 0, [], 0), AppendResponse(0, false, 0, 0), a.sreq, a.sresp,
        a.ok);
    } else if !a.DoCountVote? {
      hide EffectOf;
    }
  }

  /** A stale leader is told: when a server in good order answers an AppendEntries request of an older term, then in
      every later state the answer is there to be read, and reading it makes a sender that is still behind a follower
      in the server's term. */
  lemma StaleLeaderDeposed(run: seq<Cluster>, i: nat, a: Action, j: nat, ok: bool)
    requires IsExecution(run) && StepIs(run, i, a) && a.DoAppend? && i < j < |run|
    requires var n := run[i].servers[a.id].rep.node; !n.degraded && a.areq.term < n.currentTerm
    requires a.areq.leader in run[j].servers
    requires run[j].servers[a.areq.leader].rep.node.currentTerm < run[i].servers[a.id].rep.node.currentTerm
    ensures var t := run[i].servers[a.id].rep.node.currentTerm;
      var read := DoAppendReply(a.areq.leader, a.id, a.areq, AppendResponse(t, false, 0, 0), ok);
      Enabled(run[j], read) && Deposed(Apply(run[j], read).servers[a.areq.leader].rep, t)
  {
    var t := run[i].servers[a.id].rep.node.currentTerm;
    var m := AppendResp(a.id, a.areq, AppendResponse(t, false, 0, 0));
    StaleAnswered(run[i], a);
    NetGrows(run, i + 1, j);
    hide IsExecution;
    var read := DoAppendReply(a.areq.leader, a.id, a.areq, AppendResponse(t, false, 0, 0), ok);
    assert Enabled(run[j], read);
    LaterAnswerDeposes(run[j], read);
  }

  lemma StaleAnswered(c: Cluster, a: Action)
    requires Enabled(c, a) && a.DoAppend?
    requires var n := c.servers[a.id].rep.node; !n.degraded && a.areq.term < n.currentTerm
    ensures AppendResp(a.id, a.areq, AppendResponse(c.servers[a.id].rep.node.currentTerm, false, 0, 0)) in Apply(c, a).net
  {
  }

  // ---------------------------------------------------------------- votes and appends on reachable logs

  /** In every run, what a server keeps of its uncompacted log is the part above its snapshot. */
  lemma LogIsFull(run: seq<Cluster>, i: nat, a: NodeId)
    requires IsRun(run) && i < |run| && a in run[i].servers
    ensures LogIs(run[i].servers[a].rep.node, FullOf(run[i], a))
  {
    hide IsRun;
    hide Inv;
    hide HistInv;
    RunInv(run, i);
    Preservation.Unpack(run[i], a);
    LogChanges.CommittedSnapshot(run[i].history, run[i].servers.Keys, a, run[i].servers[a]);
    hide ServerInv;
  }

  /** In every run, a server answers a request for its vote by its uncompacted log. */
  lemma VotesByUncompactedLog(run: seq<Cluster>, i: nat, a: NodeId, req: VoteRequest, termOk: bool, voteOk: bool)
    requires IsRun(run) && i < |run| && a in run[i].servers
    ensures var n := run[i].servers[a].rep.node;
      var resp := HandleRequestVote(run[i].servers[a].rep, req, termOk, voteOk).1;
      resp.Some? && resp.value.granted <==>
        && !n.degraded && (req.term > n.currentTerm ==> termOk) && voteOk && Free(n, req)
        && AtLeast(Position(req.lastLogTerm, req.lastLogIndex), LastPosition(FullOf(run[i], a)))
  {
    LogIsFull(run, i, a);
    hide IsRun;
    VoteGrantedIff(run[i].servers[a].rep, FullOf(run[i], a), req, termOk, voteOk);
  }

  /** In every run, a request in the network is accepted by the uncompacted log of its receiver. */
  lemma AcceptsByUncompactedLog(run: seq<Cluster>, i: nat, a: NodeId, req: AppendRequest, f: AppendFaults)
    requires IsRun(run) && i < |run| && a in run[i].servers && AppendReq(a, req) in run[i].net
    ensures run[i].servers[a].rep.node.snapshotIndex <= |FullOf(run[i], a)|
    ensures AcceptedIff(run[i].servers[a].rep, FullOf(run[i], a), req, f)
  {
    hide IsRun;
    RunInv(run, i);
    var c, s := run[i], run[i].servers[a];
    if s.rep.node.currentTerm <= req.term {
      Compaction.RequestsConsistent(c, a, req);
    }
    Preservation.Unpack(c, a);
    LogChanges.CommittedSnapshot(c.history, c.servers.Keys, a, s);
    hide Inv;
    hide HistInv;
    hide ServerInv;
    hide AcceptedIff;
    AcceptsIff(s.rep, c.history.committed[..s.rep.node.snapshotIndex], req, f);
  }

  // ---------------------------------------------------------------- next steps

  /** In every run, a server with a committed entry it has not applied can deliver: its pending snapshot if there is
      one, the next entry otherwise. */
  lemma ApplyNeverStuck(run: seq<Cluster>, i: nat, a: NodeId)
    requires IsRun(run) && i < |run| && a in run[i].servers
    requires var n := run[i].servers[a].rep.node; n.lastApplied < n.commitIndex
    ensures var n := run[i].servers[a].rep.node;
      if n.pendingSnapshot.Some? then Enabled(run[i], DoDeliverSnapshot(a)) else Enabled(run[i], DoDeliverEntry(a))
  {
    IndexRanges(run, i, a);
    hide IsRun;
  }

  /** In every run, a leader has a request for every peer that has none in flight: its snapshot exactly when the peer's
      next entry is compacted, and otherwise everything from that entry on. */
  lemma EveryPeerIsServed(run: seq<Cluster>, i: nat, a: NodeId, p: NodeId)
    requires IsRun(run) && i < |run| && a in run[i].servers && p in run[i].servers && p != a
    requires var n := run[i].servers[a].rep.node; n.role == Leader && p !in n.inFlight
    ensures var c, n := run[i], run[i].servers[a].rep.node;
      var next := Get(n.nextIndex, p);
      if next <= n.snapshotIndex then
        && Enabled(c, DoBuildSnapshot(a, p)) && n.snapshot.Some?
        && EffectOf(c, DoBuildSnapshot(a, p)).sent == {SnapReq(p, SnapshotRequest(n.currentTerm, a, n.snapshot.value))}
      else
        && Enabled(c, DoBuildAppend(a, p)) && next <= |FullOf(c, a)| + 1
        && EffectOf(c, DoBuildAppend(a, p)).sent ==
           {AppendReq(p, AppendRequest(n.currentTerm, a, next - 1, TermAt(FullOf(c, a), next - 1), FullOf(c, a)[next - 1..],
                                       n.commitIndex))}
        && (Enabled(c, DoBuildSnapshot(a, p)) ==> EffectOf(c, DoBuildSnapshot(a, p)).sent == {})
  {
    IndexRanges(run, i, a);
    LogIsFull(run, i, a);
    SnapshotHeld(run, i, a);
    hide IsRun;
    var c := run[i];
    var h, s := c.history, c.servers[a];
    var n := s.rep.node;
    if n.snapshotIndex < Get(n.nextIndex, p) {
      AppendSent(h, s, a, FullOf(c, a), p);
    }
    SnapshotSent(h, s, a, p);
    hide BuildAppendEffect;
    hide BuildSnapshotEffect;
    hide LogIs;
    hide Full;
  }

  /** A finished request frees its peer: after it a leader can send to the peer again, whatever became of the request. */
  lemma ServedAgain(run: seq<Cluster>, i: nat, a: NodeId, p: NodeId)
    requires IsRun(run) && StepIs(run, i, DoRpcDone(a, p)) && p in run[i].servers && p != a
    requires run[i].servers[a].rep.node.role == Leader
    ensures a in run[i + 1].servers && p in run[i + 1].servers
    ensures var n := run[i + 1].servers[a].rep.node;
      if Get(n.nextIndex, p) <= n.snapshotIndex then
        Enabled(run[i + 1], DoBuildSnapshot(a, p)) && EffectOf(run[i + 1], DoBuildSnapshot(a, p)).sent != {}
      else Enabled(run[i + 1], DoBuildAppend(a, p)) && EffectOf(run[i + 1], DoBuildAppend(a, p)).sent != {}
  {
    EveryPeerIsServed(run, i + 1, a, p);
    hide IsRun;
    hide Full;
  }

  lemma AppendSent(h: History, s: Server, id: NodeId, full: seq<LogEntry>, peer: NodeId)
    requires var n := s.rep.node;
      && LogIs(n, full) && n.role == Leader && peer !in n.inFlight
      && n.snapshotIndex < Get(n.nextIndex, peer) <= |full| + 1
    ensures var n := s.rep.node;
      var next := Get(n.nextIndex, peer);
      && (Builds(n, peer) ==> SliceInBounds(n, peer))
      && BuildAppendEffect(h, s, id, peer).sent ==
         {AppendReq(peer, AppendRequest(n.currentTerm, id, next - 1, TermAt(full, next - 1), full[next - 1..],
                                        n.commitIndex))}
  {
    var n := s.rep.node;
    var next := Get(n.nextIndex, peer);
    assert SliceInBounds(n, peer);
    RequestCarriesAll(id, n, full, peer);
    hide AppendRequestFor;
    hide LogIs;
    hide SliceInBounds;
    var req := AppendRequestFor(id, n, peer);
    assert req ==
      AppendRequest(n.currentTerm, id, next - 1, TermAt(full, next - 1), full[next - 1..], n.commitIndex);
    assert BuildAppend(id, n, peer).1 == Some(req);
  }

  lemma SnapshotSent(h: History, s: Server, id: NodeId, peer: NodeId)
    requires var n := s.rep.node;
      n.role == Leader && peer !in n.inFlight && (n.snapshotIndex != 0 ==> n.snapshot.Some?) && 1 <= Get(n.nextIndex, peer)
    ensures var n := s.rep.node;
      BuildSnapshotEffect(h, s, id, peer).sent ==
      if n.snapshotIndex < Get(n.nextIndex, peer) then {}
      else {SnapReq(peer, SnapshotRequest(n.currentTerm, id, n.snapshot.value))}
  {
  }

  lemma SnapshotHeld(run: seq<Cluster>, i: nat, a: NodeId)
    requires IsRun(run) && i < |run| && a in run[i].servers
    ensures run[i].servers[a].rep.node.snapshotIndex != 0 ==> run[i].servers[a].rep.node.snapshot.Some?
  {
    hide IsRun;
    hide Inv;
    hide HistInv;
    RunInv(run, i);
    Preservation.Unpack(run[i], a);
    LogChanges.CommittedSnapshot(run[i].history, run[i].servers.Keys, a, run[i].servers[a]);
    hide ServerInv;
  }

  // ---------------------------------------------------------------- noted requests

  predicate Noted(c: Cluster, l: NodeId, p: NodeId) {
    l in c.servers && p in c.servers[l].rep.node.replicatePending && p in c.servers[l].rep.node.inFlight
  }

  predicate SameFlight(n: Node, n': Node) { n.inFlight <= n'.inFlight && n.replicatePending <= n'.replicatePending }

  lemma VoteKeepsFlight(r: Replica, req: VoteRequest, termOk: bool, voteOk: bool)
    ensures SameFlight(r.node, HandleRequestVote(r, req, termOk, voteOk).0.node)
  {
    hide UpToDate;
  }

  lemma AppendKeepsFlight(r: Replica, req: AppendRequest, f: AppendFaults)
    ensures SameFlight(r.node, HandleAppendEntries(r, req, f).0.node)
  {
    hide HandleAppendEntries;
    hide Refusal;
    hide Repeated;
    hide Fresh;
    StepsReplication.AppendCases(r, req, f);
  }

  lemma InstallKeepsFlight(r: Replica, req: SnapshotRequest, f: SnapshotFaults)
    ensures SameFlight(r.node, HandleInstallSnapshot(r, req, f).0.node)
  {
    hide KeptLog;
  }

  lemma ReplyKeepsFlight(cfg: Config, r: Replica, peer: NodeId, req: AppendRequest, resp: AppendResponse, ok: bool)
    ensures SameFlight(r.node, OnAppendReply(cfg, r, peer, req, resp, ok).node)
  {
    hide BackOff;
    hide CommitTarget;
  }

  lemma CommandKeepsFlight(cfg: Config, r: Replica, command: Command, appendOk: bool, commitOk: bool)
    ensures SameFlight(r.node, StartCommand(cfg, r, command, appendOk, commitOk).0.node)
  {
    hide CommitTarget;
  }

  lemma CompactKeepsFlight(r: Replica, index: nat, data: Blob, saveOk: bool, setLogOk: bool)
    ensures SameFlight(r.node, TakeSnapshot(r, index, data, saveOk, setLogOk).0.node)
  {
  }

  predicate ByHandler(a: Action) {
    a.DoVote? || a.DoStartCommand? || a.DoAppend? || a.DoInstall? || a.DoAppendReply? || a.DoCompact?
  }

  lemma HandlerKeepsFlight(c: Cluster, a: Action)
    requires Enabled(c, a) && ByHandler(a)
    ensures SameFlight(c.servers[a.id].rep.node, EffectOf(c, a).server.rep.node)
  {
    hide HandleRequestVote;
    hide HandleAppendEntries;
    hide HandleInstallSnapshot;
    hide OnAppendReply;
    hide StartCommand;
    hide TakeSnapshot;
    hide RecordCommit;
    hide RecordAck;
    var r, service := c.servers[a.id].rep, c.servers[a.id].service;
    match a
    case DoVote(_, req, termOk, voteOk) => VoteKeepsFlight(r, req, termOk, voteOk);
    case DoStartCommand(_, command, x, y) => CommandKeepsFlight(c.ConfigOf(a.id), r, command, x, y);
    case DoAppend(_, req, f) => AppendKeepsFlight(r, req, f);
    case DoInstall(_, req, f) => InstallKeepsFlight(r, req, f);
    case DoAppendReply(_, peer, req, resp, ok) => ReplyKeepsFlight(c.ConfigOf(a.id), r, peer, req, resp, ok);
    case DoCompact(_, x, y) => CompactKeepsFlight(r, service.lastAppliedIndex, Encoded(service.store), x, y);
  }

  lemma OtherKeepsFlight(c: Cluster, a: Action)
    requires Enabled(c, a) && !ByHandler(a) && !a.DoRpcDone? && !a.DoRestart?
    ensures SameFlight(c.servers[a.id].rep.node, EffectOf(c, a).server.rep.node)
  {
    hide ServiceModel.HandleApply;
    hide Elect;
    hide Full;
    hide SetAll;
    hide AppendRequestFor;
  }

  lemma NotedStep(c: Cluster, a: Action, l: NodeId, p: NodeId)
    requires Enabled(c, a) && Noted(c, l, p) && a != DoRpcDone(l, p) && a != DoRestart(l)
    ensures Noted(Apply(c, a), l, p)
  {
    if ByHandler(a) {
      HandlerKeepsFlight(c, a);
      hide EffectOf;
    } else if !a.DoRpcDone? && !a.DoRestart? {
      OtherKeepsFlight(c, a);
      hide EffectOf;
    }
  }

  ghost predicate NotDone(run: seq<Cluster>, k: nat, l: NodeId, p: NodeId)
    requires k + 1 < |run|
  {
    exists a :: Enabled(run[k], a) && run[k + 1] == Apply(run[k], a) && a != DoRpcDone(l, p) && a != DoRestart(l)
  }

  /** The step asks for a request to the peer: log entries, or the snapshot where the peer's next entry is compacted. */
  ghost predicate Asks(run: seq<Cluster>, i: nat, l: NodeId, p: NodeId) {
    || StepIs(run, i, DoBuildAppend(l, p))
    || (StepIs(run, i, DoBuildSnapshot(l, p))
        && var n := run[i].servers[l].rep.node; 0 < n.snapshotIndex && Get(n.nextIndex, p) <= n.snapshotIndex)
  }

  /** A request to a peer that a leader wanted to send while another was in flight stays noted until that one is done,
      when it is reported. */
  lemma {:induction false} NotedUntilDone(run: seq<Cluster>, i: nat, j: nat, l: NodeId, p: NodeId)
    requires IsExecution(run) && Asks(run, i, l, p) && i < j < |run|
    requires run[i].servers[l].rep.node.role == Leader && p in run[i].servers[l].rep.node.inFlight
    requires forall k {:trigger NotDone(run, k, l, p)} :: i < k < j ==> NotDone(run, k, l, p)
    ensures Noted(run[j], l, p)
  {
    if j == i + 1 {
      SecondRequestNoted(l, run[i].servers[l].rep.node, p);
    } else {
      hide Init;
      hide StepAt;
      hide Enabled;
      hide Apply;
      hide Noted;
      NotedUntilDone(run, i, j - 1, l, p);
      assert NotDone(run, j - 1, l, p);
      var a :| Enabled(run[j - 1], a) && run[j] == Apply(run[j - 1], a) && a != DoRpcDone(l, p) && a != DoRestart(l);
      NotedStep(run[j - 1], a, l, p);
    }
  }

  // ---------------------------------------------------------------- reads

  /** In every run, a replica's store holds for each key what the last of the committed entries it has applied that
      writes the key says, and nothing if there is none. */
  lemma LookupFindsLastWrite(run: seq<Cluster>, i: nat, a: NodeId, key: string)
    requires IsRun(run) && i < |run| && a in run[i].servers
    ensures var s, committed := run[i].servers[a].service, run[i].history.committed;
      && s.lastAppliedIndex <= |committed|
      && var log := committed[..s.lastAppliedIndex];
      && ((forall k :: 0 <= k < |log| ==> !Writes(log[k], key)) ==> key !in s.store)
      && (forall k: nat :: LastWrite(log, key, k) ==>
            if log[k].command.Put? then key in s.store && s.store[key] == log[k].command.value else key !in s.store)
  {
    hide IsRun;
    RunInv(run, i);
    ServiceReplays(run[i], a);
    hide Inv;
    ReplayLookup(run[i].history.committed[..run[i].servers[a].service.lastAppliedIndex], key);
  }
}
