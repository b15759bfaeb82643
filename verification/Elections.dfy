/** Elections rest on the hard state alone: what they promise holds in every execution, including restarts from
    a stored log that has drifted from the log the server had. */
module Elections {
  import opened Types
  import opened NodeModel
  import opened Cluster
  import opened Invariants
  import Safety
  import StepsElection
  import StepsReplication
  import Preservation
  import ServiceModel

  // ---------------------------------------------------------------- what actions do to terms and votes

  /** Term and vote stay, in memory and on disk, and no leadership or candidacy begins. */
  predicate Unmoved(r: Replica, r': Replica) {
    var n, n', d, d' := r.node, r'.node, r.disk.hard, r'.disk.hard;
    && n'.currentTerm == n.currentTerm && n'.votedFor == n.votedFor
    && (n'.role == n.role || n'.role == Follower)
    && (n.degraded ==> n'.degraded)
    && (|| (d'.currentTerm == d.currentTerm && d'.votedFor == d.votedFor)
        || ((!n.degraded || n.role == Leader) && d'.currentTerm == n.currentTerm && d'.votedFor == n.votedFor))
  }

  /** A later term is taken over without a vote, on disk too unless the node is degraded. */
  predicate SteppedDown(r: Replica, r': Replica) {
    var n, n', d, d' := r.node, r'.node, r.disk.hard, r'.disk.hard;
    && n.currentTerm < n'.currentTerm && n'.votedFor.None? && n'.role == Follower
    && (|| (d'.currentTerm == n'.currentTerm && d'.votedFor.None?)
        || (d'.currentTerm == d.currentTerm && d'.votedFor == d.votedFor && n'.degraded))
  }

  predicate Moved(r: Replica, r': Replica) { Unmoved(r, r') || SteppedDown(r, r') }

  lemma AppendMoves(r: Replica, req: AppendRequest, f: AppendFaults)
    ensures Moved(r, HandleAppendEntries(r, req, f).0)
  {
    hide HandleAppendEntries;
    StepsReplication.AppendCases(r, req, f);
    var r1 := StepsElection.Follow(r, req.term);
    if Refusal(r1.node, req).None? {
      StepsReplication.MergeLog(r1, req, f.truncateOk, f.appendOk);
      hide Merge;
      hide Refusal;
    }
  }

  lemma InstallMoves(r: Replica, req: SnapshotRequest, f: SnapshotFaults)
    ensures Moved(r, HandleInstallSnapshot(r, req, f).0)
  {
    hide KeptLog;
  }

  lemma ReplyMoves(cfg: Config, r: Replica, peer: NodeId, req: AppendRequest, resp: AppendResponse, ok: bool)
    ensures Moved(r, OnAppendReply(cfg, r, peer, req, resp, ok))
  {
    hide CommitTarget;
    hide BackOff;
  }

  lemma CommandMoves(cfg: Config, r: Replica, command: Command, appendOk: bool, commitOk: bool)
    ensures Moved(r, StartCommand(cfg, r, command, appendOk, commitOk).0) && Moved(r, r)
  {
    hide CommitTarget;
  }

  lemma DeniedMoves(r: Replica, req: VoteRequest, termOk: bool, voteOk: bool)
    ensures var (r', resp) := HandleRequestVote(r, req, termOk, voteOk);
      !(resp.Some? && resp.value.granted) ==> Moved(r, r')
  {
    hide UpToDate;
  }

  /** Actions that cast votes, count them, or begin or end the life of a node. */
  predicate ElectionAction(a: Action) {
    a.DoTimeout? || a.DoStartElection? || a.DoVote? || a.DoCountVote? || a.DoRestart?
  }

  predicate SameBallots(h: History, h': History) { h'.votes == h.votes && h'.elections == h.elections }

  lemma OtherActionsMove(c: Cluster, a: Action)
    requires Enabled(c, a) && !ElectionAction(a)
    ensures var s, e := c.servers[a.id], EffectOf(c, a);
      && Moved(s.rep, e.server.rep) && e.server.tally == s.tally && SameBallots(c.history, e.history)
      && forall m :: m in e.sent ==> !m.VoteResp?
  {
    if a.DoStartCommand? || a.DoAppend? || a.DoAppendReply? || a.DoInstall? {
      HandlersMove(c, a);
    } else {
      hide ServiceModel.HandleApply;
      hide TakeSnapshot;
      if a.DoCompact? {
        CompactMoves(c.servers[a.id].rep, c.servers[a.id].service, a.saveOk, a.setLogOk);
      }
    }
  }

  lemma CompactMoves(r: Replica, svc: ServiceModel.Service, saveOk: bool, setLogOk: bool)
    ensures Unmoved(r, TakeSnapshot(r, svc.lastAppliedIndex, Encoded(svc.store), saveOk, setLogOk).0)
  {
  }

  lemma HandlersMove(c: Cluster, a: Action)
    requires Enabled(c, a) && (a.DoStartCommand? || a.DoAppend? || a.DoAppendReply? || a.DoInstall?)
    ensures var s, e := c.servers[a.id], EffectOf(c, a);
      && Moved(s.rep, e.server.rep) && e.server.tally == s.tally && SameBallots(c.history, e.history)
      && forall m :: m in e.sent ==> !m.VoteResp?
  {
    hide Moved;
    hide HandleAppendEntries;
    hide HandleInstallSnapshot;
    hide OnAppendReply;
    hide StartCommand;
    hide Holders;
    hide LogOf;
    var r := c.servers[a.id].rep;
    match a
    case DoStartCommand(id, command, appendOk, commitOk) => CommandMoves(c.ConfigOf(id), r, command, appendOk, commitOk);
    case DoAppend(_, req, f) => AppendMoves(r, req, f);
    case DoAppendReply(id, peer, req, resp, ok) => ReplyMoves(c.ConfigOf(id), r, peer, req, resp, ok);
    case DoInstall(_, req, f) => InstallMoves(r, req, f);
  }

  // ---------------------------------------------------------------- the invariant

  /** The durable vote is the one on record for the durable term, and nothing is on record for later terms. */
  predicate BallotOnDisk(h: History, id: NodeId, d: HardState) {
    && (forall k :: k in h.votes && k.node == id ==>
          k.term <= d.currentTerm && (k.term == d.currentTerm ==> d.votedFor == Some(h.votes[k])))
    && (d.votedFor.Some? ==> Voted(h, id, d.currentTerm, d.votedFor.value))
  }

  predicate Voted(h: History, id: NodeId, t: nat, cand: NodeId) {
    Key(id, t) in h.votes && h.votes[Key(id, t)] == cand
  }

  /** The votes a running candidate loop has counted were cast for it in its term. */
  predicate TallyTrue(h: History, members: set<NodeId>, id: NodeId, s: Server) {
    s.rep.node.role == Candidate && s.tally.Some? ==>
      && s.tally.value.term == s.rep.node.currentTerm
      && s.rep.node.votedFor == Some(id)
      && s.tally.value.granted <= members - {id}
      && forall x :: x in s.tally.value.granted ==> Voted(h, x, s.rep.node.currentTerm, id)
  }

  predicate BallotServer(h: History, members: set<NodeId>, id: NodeId, s: Server) {
    && TermsInv(s)
    && BallotOnDisk(h, id, s.rep.disk.hard)
    && TallyTrue(h, members, id, s)
    && (s.rep.node.role == Leader ==> Elected(h, s.rep.node.currentTerm, id))
  }

  predicate Elected(h: History, t: nat, id: NodeId) { t in h.elections && h.elections[t].leader == id }

  /** Every election on record is backed by the votes of a quorum. */
  predicate Backed(h: History, members: set<NodeId>, t: nat)
    requires t in h.elections
  {
    && IsQuorum(members, h.elections[t].quorum)
    && forall x :: x in h.elections[t].quorum ==> Voted(h, x, t, h.elections[t].leader)
  }

  predicate BallotMessage(h: History, members: set<NodeId>, m: Message) {
    m.VoteResp? ==>
      && m.voter in members && m.voter != m.vreq.candidate
      && (m.vresp.granted ==> Voted(h, m.voter, m.vreq.term, m.vreq.candidate))
  }

  predicate BallotInv(c: Cluster) {
    && (forall t {:trigger Backed(c.history, c.servers.Keys, t)} :: t in c.history.elections ==>
          Backed(c.history, c.servers.Keys, t))
    && (forall id {:trigger BallotServer(c.history, c.servers.Keys, id, c.servers[id])} :: id in c.servers ==>
          BallotServer(c.history, c.servers.Keys, id, c.servers[id]))
    && (forall m :: m in c.net ==> BallotMessage(c.history, c.servers.Keys, m))
  }

  /** No vote and no winner on record changes. */
  predicate Kept(h: History, h': History) {
    && (forall k :: k in h.votes ==> k in h'.votes && h'.votes[k] == h.votes[k])
    && (forall t :: t in h.elections ==> Elected(h', t, h.elections[t].leader))
  }

  /** An action of `id` adds votes of `id` only. */
  predicate Grows(h: History, h': History, id: NodeId) {
    Kept(h, h') && forall k :: k in h'.votes && k.node != id ==> k in h.votes
  }

  // ---------------------------------------------------------------- steps

  lemma OtherServer(h: History, h': History, members: set<NodeId>, id: NodeId, o: NodeId, s: Server)
    requires BallotServer(h, members, o, s) && Grows(h, h', id) && o != id
    ensures BallotServer(h', members, o, s)
  {
  }

  lemma StillBacked(h: History, h': History, members: set<NodeId>, t: nat)
    requires t in h.elections && Backed(h, members, t) && Kept(h, h') && h'.elections == h.elections
    ensures Backed(h', members, t)
  {
  }

  lemma MovedServer(h: History, h': History, members: set<NodeId>, id: NodeId, s: Server, s': Server)
    requires BallotServer(h, members, id, s) && SameBallots(h, h') && Moved(s.rep, s'.rep)
    requires s'.tally == s.tally || s'.tally.None?
    ensures BallotServer(h', members, id, s')
  {
  }

  lemma StandServer(h: History, members: set<NodeId>, id: NodeId, s: Server, ok: bool)
    requires BallotServer(h, members, id, s) && s.rep.node.role != Leader
    ensures var e := StartElectionEffect(h, s, id, ok);
      Grows(h, e.history, id) && e.history.elections == h.elections && BallotServer(e.history, members, id, e.server)
  {
  }

  lemma GrantServer(h: History, members: set<NodeId>, id: NodeId, s: Server, req: VoteRequest, termOk: bool, voteOk: bool)
    requires BallotServer(h, members, id, s) && req.candidate != id
    ensures var e := VoteEffect(h, s, id, req, termOk, voteOk);
      && Grows(h, e.history, id) && e.history.elections == h.elections && BallotServer(e.history, members, id, e.server)
      && forall m :: m in e.sent && id in members ==> BallotMessage(e.history, members, m)
  {
    DeniedMoves(s.rep, req, termOk, voteOk);
    StepsElection.VoteCases(s.rep, req, termOk, voteOk);
    var e := VoteEffect(h, s, id, req, termOk, voteOk);
    hide HandleRequestVote;
    hide UpToDate;
    if Moved(s.rep, e.server.rep) && e.history == h {
      hide Moved;
      MovedServer(h, h, members, id, s, e.server);
      hide BallotServer;
    }
  }

  lemma RestartServer(h: History, members: set<NodeId>, id: NodeId, s: Server)
    requires BallotServer(h, members, id, s)
    ensures BallotServer(h, members, id, Restarted(s.rep.disk))
  {
    hide TrimmedLog;
  }

  /** A second quorum of votes in a term is for the winner on record. */
  lemma SameWinner(h: History, members: set<NodeId>, t: nat, id: NodeId, q: set<NodeId>)
    requires IsQuorum(members, q) && forall x :: x in q ==> Voted(h, x, t, id)
    requires t in h.elections && Backed(h, members, t)
    ensures h.elections[t].leader == id
  {
    var x := Safety.QuorumsMeet(members, q, h.elections[t].quorum);
    assert Voted(h, x, t, id) && Voted(h, x, t, h.elections[t].leader);
  }

  lemma WinServer(h: History, members: set<NodeId>, cfg: Config, s: Server, granted: set<NodeId>)
    requires cfg.id in members && cfg.peers == members - {cfg.id} && BallotServer(h, members, cfg.id, s)
    requires s.rep.node.role == Candidate && s.tally.Some?
    requires granted <= members - {cfg.id} && 1 + |granted| >= cfg.QuorumSize()
    requires forall x :: x in granted ==> Voted(h, x, s.rep.node.currentTerm, cfg.id)
    requires forall t {:trigger Backed(h, members, t)} :: t in h.elections ==> Backed(h, members, t)
    ensures var n := s.rep.node;
      var h' := Elect(h, n.currentTerm, cfg.id, Full(h, n), granted + {cfg.id});
      && Grows(h, h', cfg.id)
      && (forall t {:trigger Backed(h', members, t)} :: t in h'.elections ==> Backed(h', members, t))
      && BallotServer(h', members, cfg.id, s.(rep := s.rep.(node := BecomeLeader(cfg, n)), tally := None))
  {
    hide Full;
    hide Backed;
    var t, q := s.rep.node.currentTerm, granted + {cfg.id};
    Preservation.GrantedAreQuorum(members, cfg.id, granted);
    assert Voted(h, cfg.id, t, cfg.id);
    WinRecord(h, members, t, cfg.id, Full(h, s.rep.node), q);
    LeadServer(h, Elect(h, t, cfg.id, Full(h, s.rep.node), q), members, cfg, s);
  }

  lemma WinRecord(h: History, members: set<NodeId>, t: nat, id: NodeId, log: seq<LogEntry>, q: set<NodeId>)
    requires forall u {:trigger Backed(h, members, u)} :: u in h.elections ==> Backed(h, members, u)
    requires IsQuorum(members, q) && forall x :: x in q ==> Voted(h, x, t, id)
    ensures var h' := Elect(h, t, id, log, q);
      Grows(h, h', id) && forall u {:trigger Backed(h', members, u)} :: u in h'.elections ==> Backed(h', members, u)
  {
    var h' := Elect(h, t, id, log, q);
    if t in h.elections {
      assert Backed(h, members, t);
      SameWinner(h, members, t, id, q);
    }
    forall u {:trigger Backed(h', members, u)} | u in h'.elections ensures Backed(h', members, u) {
      if u != t {
        assert Backed(h, members, u);
      }
    }
  }

  lemma LeadServer(h: History, h': History, members: set<NodeId>, cfg: Config, s: Server)
    requires BallotServer(h, members, cfg.id, s) && s.rep.node.role == Candidate && s.tally.Some?
    requires h'.votes == h.votes && Elected(h', s.rep.node.currentTerm, cfg.id)
    ensures BallotServer(h', members, cfg.id, s.(rep := s.rep.(node := BecomeLeader(cfg, s.rep.node)), tally := None))
  {
    hide SetAll;
  }

  /** What an action must do: grow the record by votes of its own, keep elections backed, keep the acting server's
      part of the invariant, and send only responses on record. */
  predicate GoodBallot(h: History, members: set<NodeId>, id: NodeId, e: Effect) {
    && Grows(h, e.history, id)
    && (forall t {:trigger Backed(e.history, members, t)} :: t in e.history.elections ==> Backed(e.history, members, t))
    && BallotServer(e.history, members, id, e.server)
    && forall m :: m in e.sent ==> BallotMessage(e.history, members, m)
  }

  lemma SameElections(h: History, members: set<NodeId>, id: NodeId, e: Effect)
    requires forall t {:trigger Backed(h, members, t)} :: t in h.elections ==> Backed(h, members, t)
    requires Grows(h, e.history, id) && e.history.elections == h.elections && BallotServer(e.history, members, id, e.server)
    requires forall m :: m in e.sent ==> BallotMessage(e.history, members, m)
    ensures GoodBallot(h, members, id, e)
  {
    forall t {:trigger Backed(e.history, members, t)} | t in e.history.elections ensures Backed(e.history, members, t) {
      assert Backed(h, members, t);
      StillBacked(h, e.history, members, t);
    }
  }

  lemma CountBallot(c: Cluster, a: Action)
    requires BallotInv(c) && Enabled(c, a) && a.DoCountVote?
    ensures GoodBallot(c.history, c.servers.Keys, a.id, EffectOf(c, a))
  {
    var h, members, s, e := c.history, c.servers.Keys, c.servers[a.id], EffectOf(c, a);
    assert BallotServer(h, members, a.id, s);
    assert BallotMessage(h, members, VoteResp(a.voter, a.vreq, a.vresp));
    var n, granted := s.rep.node, if a.vresp.granted then s.tally.value.granted + {a.voter} else s.tally.value.granted;
    hide BecomeLeader;
    hide Elect;
    if a.vresp.term > n.currentTerm || n.role != Candidate {
      MovedServer(h, h, members, a.id, s, e.server);
      SameElections(h, members, a.id, e);
    } else if 1 + |granted| >= c.ConfigOf(a.id).QuorumSize() {
      WinServer(h, members, c.ConfigOf(a.id), s, granted);
    } else {
      SameElections(h, members, a.id, e);
    }
  }

  lemma ActionBallot(c: Cluster, a: Action)
    requires BallotInv(c) && Enabled(c, a)
    ensures GoodBallot(c.history, c.servers.Keys, a.id, EffectOf(c, a))
  {
    var h, members, s, e := c.history, c.servers.Keys, c.servers[a.id], EffectOf(c, a);
    assert BallotServer(h, members, a.id, s);
    hide BallotServer;
    if a.DoCountVote? {
      CountBallot(c, a);
    } else {
      if ElectionAction(a) {
        ElectionActionBallot(c, a);
      } else {
        OtherActionsMove(c, a);
        hide EffectOf;
        MovedServer(h, e.history, members, a.id, s, e.server);
      }
      hide EffectOf;
      hide Moved;
      SameElections(h, members, a.id, e);
    }
  }

  lemma ElectionActionBallot(c: Cluster, a: Action)
    requires Enabled(c, a) && ElectionAction(a) && !a.DoCountVote?
    requires BallotServer(c.history, c.servers.Keys, a.id, c.servers[a.id])
    ensures var h, e := c.history, EffectOf(c, a);
      && Grows(h, e.history, a.id) && e.history.elections == h.elections
      && BallotServer(e.history, c.servers.Keys, a.id, e.server)
      && forall m :: m in e.sent ==> BallotMessage(e.history, c.servers.Keys, m)
  {
    hide BallotServer;
    hide VoteEffect;
    hide Restarted;
    var h, members, s := c.history, c.servers.Keys, c.servers[a.id];
    match a
    case DoStartElection(id, ok) => StandServer(h, members, id, s, ok);
    case DoVote(id, req, termOk, voteOk) => GrantServer(h, members, id, s, req, termOk, voteOk);
    case DoRestart(id) => RestartServer(h, members, id, s);
    case DoTimeout(id) => TimeoutServer(h, members, id, s);
  }

  lemma TimeoutServer(h: History, members: set<NodeId>, id: NodeId, s: Server)
    requires BallotServer(h, members, id, s) && s.rep.node.role == Follower
    ensures BallotServer(h, members, id, s.(rep := s.rep.(node := Timeout(s.rep.node)), tally := None))
  {
  }

  /** Every action, a restart from any disk included, keeps the invariant and the record of votes and winners. */
  lemma BallotStep(c: Cluster, a: Action)
    requires BallotInv(c) && Enabled(c, a)
    ensures var c' := Apply(c, a);
      BallotInv(c') && Kept(c.history, c'.history) && c'.servers.Keys == c.servers.Keys
  {
    ActionBallot(c, a);
    hide EffectOf;
    hide BallotServer;
    hide Backed;
    var c' := Apply(c, a);
    assert c'.servers.Keys == c.servers.Keys;
    forall id {:trigger BallotServer(c'.history, c'.servers.Keys, id, c'.servers[id])} | id in c'.servers
      ensures BallotServer(c'.history, c'.servers.Keys, id, c'.servers[id])
    {
      if id != a.id {
        assert BallotServer(c.history, c.servers.Keys, id, c.servers[id]);
        OtherServer(c.history, c'.history, c.servers.Keys, a.id, id, c.servers[id]);
      }
    }
  }

  // ---------------------------------------------------------------- executions

  lemma InitBallots(c: Cluster)
    requires Init(c)
    ensures BallotInv(c)
  {
    hide TrimmedLog;
  }

  lemma {:induction false} ExecutionBallots(run: seq<Cluster>, i: nat, j: nat)
    requires IsExecution(run) && i <= j < |run|
    ensures BallotInv(run[j]) && Kept(run[i].history, run[j].history) && run[j].servers.Keys == run[i].servers.Keys
  {
    hide Init;
    hide BallotInv;
    hide Enabled;
    hide Apply;
    if j == 0 {
      InitBallots(run[0]);
    } else {
      ExecutionBallots(run, if i < j then i else j - 1, j - 1);
      assert StepAt(run, j - 1);
      var a :| Enabled(run[j - 1], a) && run[j] == Apply(run[j - 1], a);
      BallotStep(run[j - 1], a);
    }
  }

  /** Election Safety: a term has at most one leader, over the whole execution. */
  lemma ElectionSafety(run: seq<Cluster>, i: nat, j: nat, a: NodeId, b: NodeId)
    requires IsExecution(run) && i < |run| && j < |run| && a in run[i].servers && b in run[j].servers
    requires run[i].servers[a].rep.node.role == Leader && run[j].servers[b].rep.node.role == Leader
    requires run[i].servers[a].rep.node.currentTerm == run[j].servers[b].rep.node.currentTerm
    ensures a == b
  {
    if i <= j {
      ExecutionBallots(run, i, i);
      ExecutionBallots(run, i, j);
    } else {
      ExecutionBallots(run, j, j);
      ExecutionBallots(run, j, i);
    }
    hide IsExecution;
    assert BallotServer(run[i].history, run[i].servers.Keys, a, run[i].servers[a]);
    assert BallotServer(run[j].history, run[j].servers.Keys, b, run[j].servers[b]);
  }

  /** A member grants one vote per term over the whole execution, whatever crashes and failed writes come between. */
  lemma OneVotePerTerm(
    run: seq<Cluster>, i: nat, j: nat, voter: NodeId, x: VoteRequest, xr: VoteResponse, y: VoteRequest, yr: VoteResponse)
    requires IsExecution(run) && i < |run| && j < |run|
    requires VoteResp(voter, x, xr) in run[i].net && xr.granted
    requires VoteResp(voter, y, yr) in run[j].net && yr.granted && x.term == y.term
    ensures x.candidate == y.candidate
  {
    if i <= j {
      ExecutionBallots(run, i, i);
      ExecutionBallots(run, i, j);
    } else {
      ExecutionBallots(run, j, j);
      ExecutionBallots(run, j, i);
    }
    hide IsExecution;
    assert BallotMessage(run[i].history, run[i].servers.Keys, VoteResp(voter, x, xr));
    assert BallotMessage(run[j].history, run[j].servers.Keys, VoteResp(voter, y, yr));
  }

  /** Only counting a vote makes a leader. */
  lemma RoleStep(c: Cluster, a: Action)
    requires Enabled(c, a) && !a.DoCountVote? && EffectOf(c, a).server.rep.node.role == Leader
    ensures c.servers[a.id].rep.node.role == Leader
  {
    hide HandleRequestVote;
    hide TrimmedLog;
    hide HandleAppendEntries;
    hide HandleInstallSnapshot;
    hide OnAppendReply;
    hide StartCommand;
    hide TakeSnapshot;
    if a.DoVote? {
      StepsElection.VoteCases(c.servers[a.id].rep, a.vreq, a.termOk, a.voteOk);
    } else if !ElectionAction(a) {
      OtherActionsMove(c, a);
      hide EffectOf;
    }
  }

  /** The majority comparison sits in the branch that reads a vote of somebody else, so in a cluster of one member
      no execution has a leader. */
  lemma {:induction false} SingleMemberNeverLeads(run: seq<Cluster>, i: nat, a: NodeId)
    requires IsExecution(run) && i < |run| && run[0].servers.Keys == {a}
    ensures NoLeader(run[i], a)
  {
    hide Init;
    hide StepAt;
    hide NoLeader;
    if i == 0 {
      InitNoLeader(run[0], a);
    } else {
      SingleMemberNeverLeads(run, i - 1, a);
      SingleMemberStep(run, i - 1, a);
    }
  }

  predicate NoLeader(c: Cluster, a: NodeId) {
    c.servers.Keys == {a} && c.servers[a].rep.node.role != Leader
  }

  lemma InitNoLeader(c: Cluster, a: NodeId)
    requires Init(c) && c.servers.Keys == {a}
    ensures NoLeader(c, a)
  {
    assert a in c.servers;
  }

  lemma SingleMemberStep(run: seq<Cluster>, i: nat, a: NodeId)
    requires IsExecution(run) && i + 1 < |run| && NoLeader(run[i], a)
    ensures NoLeader(run[i + 1], a)
  {
    hide Init;
    hide BallotInv;
    hide Enabled;
    hide EffectOf;
    ExecutionBallots(run, i, i);
    assert StepAt(run, i);
    hide IsExecution;
    var act :| Enabled(run[i], act) && run[i + 1] == Apply(run[i], act);
    NoVoteAlone(run[i], act, a);
    if EffectOf(run[i], act).server.rep.node.role == Leader {
      RoleStep(run[i], act);
    }
  }

  lemma NoVoteAlone(c: Cluster, act: Action, a: NodeId)
    requires BallotInv(c) && Enabled(c, act) && c.servers.Keys == {a}
    ensures act.id == a && !act.DoCountVote?
  {
    if act.DoCountVote? {
      VoteFromPeer(c, act);
    }
  }

  lemma VoteFromPeer(c: Cluster, a: Action)
    requires BallotInv(c) && Enabled(c, a) && a.DoCountVote?
    ensures a.voter in c.servers && a.voter != a.id
  {
    assert BallotMessage(c.history, c.servers.Keys, VoteResp(a.voter, a.vreq, a.vresp));
  }
}
