/** Every action of every server keeps the invariant of the cluster. */
module Preservation {
  import opened Types
  import opened NodeModel
  import opened Cluster
  import opened Invariants
  import opened Frames
  import opened StepsQuiet
  import opened StepsElection
  import opened StepsReplication
  import opened StepsCommit
  import opened StepsSnapshot

  /** An action leaves its own server, the history and its messages in order. */
  ghost predicate Good(h: History, members: set<NodeId>, id: NodeId, e: Effect) {
    && Extends(h, e.history)
    && HistInv(e.history, members)
    && ServerInv(e.history, members, id, e.server)
    && forall m :: m in e.sent ==> MessageInv(e.history, members, m)
  }

  /** An action of `id` only adds records of `id`: its votes, its acknowledgements, and what it does as leader. */
  predicate OwnChanges(h: History, h': History, id: NodeId) {
    && (forall k :: k in h'.ballots && k.node != id ==> k in h.ballots)
    && (forall k :: k in h'.votes && k.node != id ==> k in h.votes)
    && (forall k :: k in h'.acks && k.node != id ==> k in h.acks && h'.acks[k] == h.acks[k])
    && h'.elections == h.elections
    && (forall t {:trigger SameTenure(h, h', t)} :: t in h.elections && h.elections[t].leader != id && t in h.logs ==>
          SameTenure(h, h', t))
  }

  lemma OwnChangesUntouched(h: History, h': History, id: NodeId, o: NodeId, term: nat)
    requires OwnChanges(h, h', id) && o != id
    ensures Untouched(h, h', o, term)
  {
  }

  lemma OwnChangesSelf(h: History, h': History, id: NodeId)
    requires h' == h.(delivered := h'.delivered)
    ensures OwnChanges(h, h', id)
  {
  }

  // ---------------------------------------------------------------- one lemma per kind of action

  lemma QuietAction(h: History, members: set<NodeId>, id: NodeId, e: Effect)
    requires HistInv(h, members) && ServerInv(h, members, id, e.server) && e.history == h
    requires forall m :: m in e.sent ==> MessageInv(h, members, m)
    ensures Good(h, members, id, e) && OwnChanges(h, e.history, id)
  {
    hide HistInv;
    hide ServerInv;
    hide MessageInv;
    ExtendsSelf(h);
    OwnChangesSelf(h, h, id);
  }

  lemma StartElectionAction(h: History, members: set<NodeId>, id: NodeId, s: Server, ok: bool)
    requires HistInv(h, members) && ServerInv(h, members, id, s)
    requires s.rep.node.role != Leader
    ensures Good(h, members, id, StartElectionEffect(h, s, id, ok))
    ensures OwnChanges(h, StartElectionEffect(h, s, id, ok).history, id)
  {
    hide Extends;
    hide HistInv;
    hide ServerInv;
    hide MessageInv;
    hide OwnChanges;
    hide StartElectionEffect;
    StartElectionStep(h, members, id, s, ok);
    StartElectionOwn(h, members, id, s, ok);
  }

  lemma StartElectionOwn(h: History, members: set<NodeId>, id: NodeId, s: Server, ok: bool)
    ensures OwnChanges(h, StartElectionEffect(h, s, id, ok).history, id)
    ensures forall m :: m in StartElectionEffect(h, s, id, ok).sent ==>
      MessageInv(StartElectionEffect(h, s, id, ok).history, members, m)
  {
  }

  lemma VoteAction(h: History, members: set<NodeId>, id: NodeId, s: Server, req: VoteRequest, termOk: bool, voteOk: bool)
    requires HistInv(h, members) && ServerInv(h, members, id, s) && id in members && req.candidate != id
    requires MessageInv(h, members, VoteReq(req))
    ensures Good(h, members, id, VoteEffect(h, s, id, req, termOk, voteOk))
    ensures OwnChanges(h, VoteEffect(h, s, id, req, termOk, voteOk).history, id)
  {
    hide Extends;
    hide HistInv;
    hide ServerInv;
    hide HandleRequestVote;
    VoteStep(h, members, id, s, req, termOk, voteOk);
  }

  lemma LeaderOwns(h: History, members: set<NodeId>, id: NodeId, s: Server)
    requires ServerInv(h, members, id, s) && s.rep.node.role == Leader
    ensures s.rep.node.currentTerm in h.logs && s.rep.node.currentTerm in h.elections
    ensures h.elections[s.rep.node.currentTerm].leader == id
  {
  }

  lemma StartCommandAction(
    h: History, members: set<NodeId>, id: NodeId, s: Server, command: Command, appendOk: bool, commitOk: bool)
    requires HistInv(h, members) && ServerInv(h, members, id, s) && id in members
    ensures var e := StartCommandEffect(h, s, Config(id, members - {id}), command, appendOk, commitOk);
      Good(h, members, id, e) && OwnChanges(h, e.history, id)
  {
    hide Extends;
    hide HistInv;
    hide ServerInv;
    StartCommandStep(h, members, id, s, command, appendOk, commitOk);
    if s.rep.node.role == Leader {
      LeaderOwns(h, members, id, s);
    }
    StartCommandOwn(h, Config(id, members - {id}), s, command, appendOk, commitOk);
  }

  lemma StartCommandOwn(h: History, cfg: Config, s: Server, command: Command, appendOk: bool, commitOk: bool)
    requires s.rep.node.role == Leader ==>
      s.rep.node.currentTerm in h.elections && h.elections[s.rep.node.currentTerm].leader == cfg.id
    ensures OwnChanges(h, StartCommandEffect(h, s, cfg, command, appendOk, commitOk).history, cfg.id)
    ensures StartCommandEffect(h, s, cfg, command, appendOk, commitOk).sent == {}
  {
    AdvanceKeepsTerm(cfg, StartCommandAppended(cfg, s.rep, command), commitOk);
  }

  function StartCommandAppended(cfg: Config, r: Replica, command: Command): Replica {
    Appended(cfg, r, LogEntry(r.node.currentTerm, command))
  }

  lemma AdvanceKeepsTerm(cfg: Config, r: Replica, ok: bool)
    ensures AdvanceCommit(cfg, r, ok).node.currentTerm == r.node.currentTerm
    ensures AdvanceCommit(cfg, r, ok).node.role == r.node.role
  {
  }

  lemma AppendAction(h: History, members: set<NodeId>, id: NodeId, s: Server, req: AppendRequest, f: AppendFaults)
    requires HistInv(h, members) && ServerInv(h, members, id, s) && id in members && AppendReqInv(h, req)
    ensures Good(h, members, id, AppendEffect(h, s, id, req, f))
    ensures OwnChanges(h, AppendEffect(h, s, id, req, f).history, id)
  {
    hide Extends;
    hide HistInv;
    hide ServerInv;
    hide HandleAppendEntries;
    hide Acknowledged;
    AppendStep(h, members, id, s, req, f);
    AppendReqFrame(h, AppendEffect(h, s, id, req, f).history, req);
  }

  lemma AppendReplyAction(
    h: History, members: set<NodeId>, id: NodeId, s: Server, peer: NodeId, req: AppendRequest, resp: AppendResponse,
    ok: bool)
    requires HistInv(h, members) && ServerInv(h, members, id, s) && id in members
    requires MessageInv(h, members, AppendResp(peer, req, resp))
    ensures var e := AppendReplyEffect(h, s, Config(id, members - {id}), peer, req, resp, ok);
      Good(h, members, id, e) && OwnChanges(h, e.history, id)
  {
    hide Extends;
    hide HistInv;
    hide ServerInv;
    hide MessageInv;
    AppendReplyStep(h, members, id, s, peer, req, resp, ok);
    if s.rep.node.role == Leader {
      LeaderOwns(h, members, id, s);
    }
    AppendReplyOwn(h, Config(id, members - {id}), s, peer, req, resp, ok);
  }

  lemma AppendReplyOwn(h: History, cfg: Config, s: Server, peer: NodeId, req: AppendRequest, resp: AppendResponse, ok: bool)
    requires s.rep.node.role == Leader ==>
      s.rep.node.currentTerm in h.elections && h.elections[s.rep.node.currentTerm].leader == cfg.id
    ensures OwnChanges(h, AppendReplyEffect(h, s, cfg, peer, req, resp, ok).history, cfg.id)
    ensures AppendReplyEffect(h, s, cfg, peer, req, resp, ok).sent == {}
  {
    hide AdvanceCommit;
    hide BackOff;
    hide AppendReplyEffect;
    AppendReplyCases(h, s, cfg, peer, req, resp, ok);
    var n := s.rep.node;
    AdvanceKeepsTerm(cfg, s.rep.(node := RecordMatch(n, peer, req.prevLogIndex + |req.entries|)), ok);
  }

  lemma DeliverEntryAction(h: History, members: set<NodeId>, id: NodeId, s: Server)
    requires HistInv(h, members) && ServerInv(h, members, id, s)
    requires s.rep.node.pendingSnapshot.None? && HasWork(s.rep.node) && ReadInBounds(s.rep.node)
    ensures Good(h, members, id, DeliverEntryEffect(h, s, id))
    ensures OwnChanges(h, DeliverEntryEffect(h, s, id).history, id)
  {
    var e := DeliverEntryEffect(h, s, id);
    DeliverEntryStep(h, members, id, s);
    DeliverEntryApplyInv(h, s, id);
    OwnChangesSelf(h, e.history, id);
    DeliveredOnly(h, e.history, members, id, e.server);
  }

  lemma DeliveredOnly(h: History, h': History, members: set<NodeId>, id: NodeId, s: Server)
    requires HistInv(h, members) && ServerInv(h, members, id, s) && DeliveredInv(h')
    requires h' == h.(delivered := h'.delivered) && h.delivered <= h'.delivered
    ensures Extends(h, h') && HistInv(h', members) && ServerInv(h', members, id, s)
  {
    hide ServerInv;
    assert Extends(h, h');
    hide Extends;
    HistDelivered(h, h', members);
    OwnChangesSelf(h, h', id + 1);
    OwnChangesUntouched(h, h', id + 1, id, s.rep.disk.hard.currentTerm);
    hide Untouched;
    ServerFrame(h, h', members, id, s);
  }

  lemma HistDelivered(h: History, h': History, members: set<NodeId>)
    requires HistInv(h, members) && DeliveredInv(h') && Extends(h, h')
    requires h' == h.(delivered := h'.delivered)
    ensures HistInv(h', members)
  {
    hide Extends;
    LogsSame(h, h');
    NoLateAcksSame(h, h');
    ElectionsSame(h, h', members);
    DecisionsSame(h, h', members);
  }

  lemma NoLateAcksSame(h: History, h': History)
    requires h'.acks == h.acks
    ensures NoLateAcks(h, h')
  {
  }

  // ---------------------------------------------------------------- counting votes

  lemma TallyStep(h: History, members: set<NodeId>, id: NodeId, s: Server, tally: Option<Tally>)
    requires ServerInv(h, members, id, s) && (tally.Some? ==> s.tally.Some?)
    requires CandidateInv(h, members, id, s.(tally := tally))
    ensures ServerInv(h, members, id, s.(tally := tally))
  {
    QuietServer(h, members, id, s, s.(tally := tally));
  }

  /** Every vote counted for a running candidate is a vote recorded for it, and the next one is too. */
  lemma GrantedVotes(
    h: History, members: set<NodeId>, id: NodeId, s: Server, from: NodeId, req: VoteRequest, resp: VoteResponse)
    requires CandidateInv(h, members, id, s) && s.tally.Some? && s.rep.node.role == Candidate
    requires MessageInv(h, members, VoteResp(from, req, resp))
    requires req.candidate == id && req.term == s.tally.value.term
    ensures var granted := if resp.granted then s.tally.value.granted + {from} else s.tally.value.granted;
      && granted <= members - {id}
      && forall x :: x in granted ==>
           Key(x, s.rep.node.currentTerm) in h.votes && h.votes[Key(x, s.rep.node.currentTerm)] == id
  {
  }

  lemma OwnVote(h: History, members: set<NodeId>, id: NodeId, s: Server)
    requires ServerInv(h, members, id, s) && s.tally.Some? && s.rep.node.role == Candidate
    ensures Key(id, s.rep.node.currentTerm) in h.votes && h.votes[Key(id, s.rep.node.currentTerm)] == id
  {
  }

  /** A vote on record is in the voter's past, and was justified by the candidate's last position. */
  lemma VoteOnRecord(h: History, members: set<NodeId>, x: NodeId, sx: Server, id: NodeId, t: nat)
    requires ServerInv(h, members, x, sx) && Key(x, t) in h.votes && h.votes[Key(x, t)] == id
    ensures t <= sx.rep.disk.hard.currentTerm && Key(id, t) in h.ballots
    ensures Justified(h, x, t, h.ballots[Key(id, t)], t + 1)
  {
  }

  lemma GrantedAreQuorum(members: set<NodeId>, id: NodeId, granted: set<NodeId>)
    requires id in members && granted <= members - {id}
    requires 1 + |granted| >= Config(id, members - {id}).QuorumSize()
    ensures IsQuorum(members, granted + {id})
  {
    assert Config(id, members - {id}).Members() == members;
    assert |granted + {id}| == |granted| + 1;
  }

  lemma WinAction(c: Cluster, id: NodeId, granted: set<NodeId>)
    requires Inv(c) && id in c.servers && c.servers[id].rep.node.role == Candidate && c.servers[id].tally.Some?
    requires granted <= c.servers.Keys - {id} && 1 + |granted| >= c.ConfigOf(id).QuorumSize()
    requires var t := c.servers[id].rep.node.currentTerm;
      forall x :: x in granted ==> Key(x, t) in c.history.votes && c.history.votes[Key(x, t)] == id
    ensures var s := c.servers[id];
      var n := s.rep.node;
      var h' := Elect(c.history, n.currentTerm, id, Full(c.history, n), granted + {id});
      && Good(c.history, c.servers.Keys, id,
           Effect(s.(rep := s.rep.(node := BecomeLeader(c.ConfigOf(id), n)), tally := None), h', {}))
      && forall o :: o in c.servers && o != id ==> Untouched(c.history, h', o, c.servers[o].rep.disk.hard.currentTerm)
  {
    hide Inv;
    hide HistInv;
    hide ServerInv;
    hide Extends;
    hide IsQuorum;
    hide Justified;
    hide BecomeLeader;
    hide Elect;
    hide Full;
    hide Untouched;
    var h, members, s := c.history, c.servers.Keys, c.servers[id];
    var q := granted + {id};
    GrantedAreQuorum(members, id, granted);
    Unpack(c, id);
    VotersOnRecord(c, id, granted);
    WinStep(h, members, id, s, q);
    ElectUntouched(c, id, s.rep.node.currentTerm, Full(h, s.rep.node), q);
  }

  lemma VotersOnRecord(c: Cluster, id: NodeId, granted: set<NodeId>)
    requires Inv(c) && id in c.servers && c.servers[id].rep.node.role == Candidate && c.servers[id].tally.Some?
    requires granted <= c.servers.Keys - {id}
    requires var t := c.servers[id].rep.node.currentTerm;
      forall x :: x in granted ==> Key(x, t) in c.history.votes && c.history.votes[Key(x, t)] == id
    ensures var h, t := c.history, c.servers[id].rep.node.currentTerm;
      forall x :: x in granted + {id} ==>
        && Key(x, t) in h.votes && h.votes[Key(x, t)] == id
        && t <= c.servers[x].rep.disk.hard.currentTerm && Key(id, t) in h.ballots
        && Justified(h, x, t, h.ballots[Key(id, t)], t + 1)
  {
    hide HistInv;
    hide ServerInv;
    hide Justified;
    var h, members, s := c.history, c.servers.Keys, c.servers[id];
    var t := s.rep.node.currentTerm;
    assert ServerInv(h, members, id, s);
    OwnVote(h, members, id, s);
    forall x | x in granted + {id}
      ensures
        && Key(x, t) in h.votes && h.votes[Key(x, t)] == id
        && t <= c.servers[x].rep.disk.hard.currentTerm && Key(id, t) in h.ballots
        && Justified(h, x, t, h.ballots[Key(id, t)], t + 1)
    {
      assert ServerInv(h, members, x, c.servers[x]);
      VoteOnRecord(h, members, x, c.servers[x], id, t);
    }
  }

  lemma ElectUntouched(c: Cluster, id: NodeId, t: nat, log: seq<LogEntry>, q: set<NodeId>)
    requires q <= c.servers.Keys && t !in c.history.elections
    requires forall x :: x in q ==> t <= c.servers[x].rep.disk.hard.currentTerm
    ensures forall o :: o in c.servers && o != id ==>
      Untouched(c.history, Elect(c.history, t, id, log, q), o, c.servers[o].rep.disk.hard.currentTerm)
  {
  }

  lemma CountVoteAction(c: Cluster, id: NodeId, from: NodeId, req: VoteRequest, resp: VoteResponse, ok: bool)
    requires Inv(c) && Enabled(c, DoCountVote(id, from, req, resp, ok))
    ensures var e := CountVoteEffect(c.history, c.servers[id], c.ConfigOf(id), from, resp, ok);
      && Good(c.history, c.servers.Keys, id, e)
      && forall o :: o in c.servers && o != id ==>
           Untouched(c.history, e.history, o, c.servers[o].rep.disk.hard.currentTerm)
  {
    hide Good;
    hide HistInv;
    hide Untouched;
    hide StepDown;
    hide BecomeLeader;
    var h, members, s := c.history, c.servers.Keys, c.servers[id];
    var e := CountVoteEffect(h, s, c.ConfigOf(id), from, resp, ok);
    var n := s.rep.node;
    assert ServerInv(h, members, id, s);
    if resp.term > n.currentTerm {
      TallyStep(h, members, id, s, None);
      StepDownStep(h, members, id, s.(tally := None), resp.term, ok);
      CountVoteQuiet(c, id, e);
    } else if n.role != Candidate {
      TallyStep(h, members, id, s, None);
      CountVoteQuiet(c, id, e);
    } else {
      GrantedVotes(h, members, id, s, from, req, resp);
      var granted := if resp.granted then s.tally.value.granted + {from} else s.tally.value.granted;
      if 1 + |granted| >= c.ConfigOf(id).QuorumSize() {
        WinAction(c, id, granted);
      } else {
        TallyStep(h, members, id, s, e.server.tally);
        CountVoteQuiet(c, id, e);
      }
    }
  }

  lemma CountVoteQuiet(c: Cluster, id: NodeId, e: Effect)
    requires HistInv(c.history, c.servers.Keys) && ServerInv(c.history, c.servers.Keys, id, e.server)
    requires e.history == c.history && e.sent == {}
    ensures Good(c.history, c.servers.Keys, id, e)
    ensures forall o :: o in c.servers && o != id ==>
      Untouched(c.history, e.history, o, c.servers[o].rep.disk.hard.currentTerm)
  {
    hide HistInv;
    hide ServerInv;
    QuietAction(c.history, c.servers.Keys, id, e);
    forall o | o in c.servers && o != id
      ensures Untouched(c.history, e.history, o, c.servers[o].rep.disk.hard.currentTerm)
    {
      OwnChangesUntouched(c.history, e.history, id, o, c.servers[o].rep.disk.hard.currentTerm);
    }
  }

  // ---------------------------------------------------------------- the invariant is inductive

  /** Membership is static and history is never rewritten. */
  predicate Continues(c: Cluster, c': Cluster) {
    c'.servers.Keys == c.servers.Keys && Extends(c.history, c'.history)
  }

  /** Good effects on the acting server, with the other servers untouched, keep the cluster's invariant. */
  lemma Assemble(c: Cluster, a: Action)
    requires Inv(c) && Enabled(c, a)
    requires Good(c.history, c.servers.Keys, a.id, EffectOf(c, a))
    requires forall o :: o in c.servers && o != a.id ==>
      Untouched(c.history, EffectOf(c, a).history, o, c.servers[o].rep.disk.hard.currentTerm)
    ensures Inv(Apply(c, a)) && Continues(c, Apply(c, a))
  {
    assert a.id in c.servers;
    hide EffectOf;
    hide Enabled;
    hide HistInv;
    hide ServerInv;
    hide MessageInv;
    hide Extends;
    hide Untouched;
    var h, members := c.history, c.servers.Keys;
    var e := EffectOf(c, a);
    var c' := Apply(c, a);
    assert c'.servers.Keys == members;
    forall o {:trigger ServerInv(c'.history, members, o, c'.servers[o])} | o in c'.servers
      ensures ServerInv(c'.history, members, o, c'.servers[o])
    {
      if o != a.id {
        assert ServerInv(h, members, o, c.servers[o]);
        HistHasAcks(h, members);
        ServerFrame(h, e.history, members, o, c.servers[o]);
      }
    }
    forall m | m in c'.net ensures MessageInv(c'.history, members, m) {
      if m in c.net {
        MessageFrame(h, e.history, members, m);
      }
    }
  }

  lemma HistHasAcks(h: History, members: set<NodeId>)
    requires HistInv(h, members)
    ensures AcksInv(h)
  {
  }

  lemma AssembleOwn(c: Cluster, a: Action)
    requires Inv(c) && Enabled(c, a)
    requires Good(c.history, c.servers.Keys, a.id, EffectOf(c, a))
    requires OwnChanges(c.history, EffectOf(c, a).history, a.id)
    ensures Inv(Apply(c, a)) && Continues(c, Apply(c, a))
  {
    hide EffectOf;
    hide Enabled;
    hide Inv;
    hide Continues;
    hide Good;
    hide Apply;
    forall o | o in c.servers && o != a.id
      ensures Untouched(c.history, EffectOf(c, a).history, o, c.servers[o].rep.disk.hard.currentTerm)
    {
      OwnChangesUntouched(c.history, EffectOf(c, a).history, a.id, o, c.servers[o].rep.disk.hard.currentTerm);
    }
    Assemble(c, a);
  }

  /** The acting server, the history and every message already sent. */
  lemma Unpack(c: Cluster, id: NodeId)
    requires Inv(c) && id in c.servers
    ensures HistInv(c.history, c.servers.Keys) && ServerInv(c.history, c.servers.Keys, id, c.servers[id])
    ensures forall m :: m in c.net ==> MessageInv(c.history, c.servers.Keys, m)
  {
    hide HistInv;
    hide ServerInv;
    hide MessageInv;
    assert ServerInv(c.history, c.servers.Keys, id, c.servers[id]);
  }

  lemma LeaderFacts(h: History, members: set<NodeId>, id: NodeId, s: Server)
    requires ServerInv(h, members, id, s) && s.rep.node.role == Leader
    ensures var n := s.rep.node;
      && n.currentTerm in h.logs && n.currentTerm in h.elections && h.elections[n.currentTerm].leader == id
      && Full(h, n) == h.logs[n.currentTerm]
      && n.snapshotIndex <= |h.committed| && n.snapshotTerm == TermAt(h.committed, n.snapshotIndex)
      && Covered(h, n.commitIndex, n.currentTerm) && n.commitIndex <= n.LastIndex()
  {
    assert |Full(h, s.rep.node)| == s.rep.node.LastIndex();
  }

  lemma BuildAppendMessage(h: History, members: set<NodeId>, id: NodeId, s: Server, peer: NodeId)
    requires ServerInv(h, members, id, s) && (Builds(s.rep.node, peer) ==> SliceInBounds(s.rep.node, peer))
    ensures forall m :: m in BuildAppendEffect(h, s, id, peer).sent ==> MessageInv(h, members, m)
  {
    hide ServerInv;
    hide AppendReqInv;
    hide AppendRequestFor;
    if Builds(s.rep.node, peer) {
      LeaderFacts(h, members, id, s);
      AppendRequestSound(h, id, s.rep.node, peer);
    }
  }

  lemma BuildSnapshotMessage(h: History, members: set<NodeId>, id: NodeId, s: Server, peer: NodeId)
    requires ServerInv(h, members, id, s) && (s.rep.node.snapshotIndex != 0 ==> s.rep.node.snapshot.Some?)
    ensures forall m :: m in BuildSnapshotEffect(h, s, id, peer).sent ==> MessageInv(h, members, m)
  {
    if s.rep.node.role == Leader && s.rep.node.snapshotIndex != 0 {
      SnapshotRequestSound(h, members, id, s);
    }
  }

  lemma TimeoutPreserves(c: Cluster, a: Action)
    requires Inv(c) && Enabled(c, a) && a.DoTimeout?
    ensures Inv(Apply(c, a)) && Continues(c, Apply(c, a))
  {
    hide Inv;
    hide Continues;
    hide HistInv;
    hide ServerInv;
    hide Good;
    hide OwnChanges;
    hide Apply;
    var h, members, s := c.history, c.servers.Keys, c.servers[a.id];
    Unpack(c, a.id);
    TimeoutStep(h, members, a.id, s);
    QuietAction(h, members, a.id, EffectOf(c, a));
    AssembleOwn(c, a);
  }

  lemma StartElectionPreserves(c: Cluster, a: Action)
    requires Inv(c) && Enabled(c, a) && a.DoStartElection?
    ensures Inv(Apply(c, a)) && Continues(c, Apply(c, a))
  {
    hide Inv;
    hide Continues;
    hide HistInv;
    hide ServerInv;
    hide Good;
    hide OwnChanges;
    hide Apply;
    var h, members, s := c.history, c.servers.Keys, c.servers[a.id];
    Unpack(c, a.id);
    hide StartElectionEffect;
    StartElectionAction(h, members, a.id, s, a.ok);
    AssembleOwn(c, a);
  }

  lemma VotePreserves(c: Cluster, a: Action)
    requires Inv(c) && Enabled(c, a) && a.DoVote?
    ensures Inv(Apply(c, a)) && Continues(c, Apply(c, a))
  {
    hide Inv;
    hide Continues;
    hide HistInv;
    hide ServerInv;
    hide Good;
    hide OwnChanges;
    hide Apply;
    var h, members, s := c.history, c.servers.Keys, c.servers[a.id];
    Unpack(c, a.id);
    hide VoteEffect;
    VoteAction(h, members, a.id, s, a.vreq, a.termOk, a.voteOk);
    AssembleOwn(c, a);
  }

  lemma StartCommandPreserves(c: Cluster, a: Action)
    requires Inv(c) && Enabled(c, a) && a.DoStartCommand?
    ensures Inv(Apply(c, a)) && Continues(c, Apply(c, a))
  {
    hide Inv;
    hide Continues;
    hide HistInv;
    hide ServerInv;
    hide Good;
    hide OwnChanges;
    hide Apply;
    var h, members, s := c.history, c.servers.Keys, c.servers[a.id];
    Unpack(c, a.id);
    hide StartCommandEffect;
    StartCommandAction(h, members, a.id, s, a.command, a.appendOk, a.commitOk);
    AssembleOwn(c, a);
  }

  lemma BuildAppendPreserves(c: Cluster, a: Action)
    requires Inv(c) && Enabled(c, a) && a.DoBuildAppend?
    ensures Inv(Apply(c, a)) && Continues(c, Apply(c, a))
  {
    hide Inv;
    hide Continues;
    hide HistInv;
    hide ServerInv;
    hide Good;
    hide OwnChanges;
    hide Apply;
    var h, members, s := c.history, c.servers.Keys, c.servers[a.id];
    Unpack(c, a.id);
    var e := EffectOf(c, a);
    var n := e.server.rep.node;
    FlightStep(h, members, a.id, s, n.inFlight, n.replicatePending);
    BuildAppendMessage(h, members, a.id, s, a.peer);
    QuietAction(h, members, a.id, e);
    AssembleOwn(c, a);
  }

  lemma AppendPreserves(c: Cluster, a: Action)
    requires Inv(c) && Enabled(c, a) && a.DoAppend?
    ensures Inv(Apply(c, a)) && Continues(c, Apply(c, a))
  {
    hide Inv;
    hide Continues;
    hide HistInv;
    hide ServerInv;
    hide Good;
    hide OwnChanges;
    hide Apply;
    var h, members, s := c.history, c.servers.Keys, c.servers[a.id];
    Unpack(c, a.id);
    hide AppendEffect;
    hide HandleAppendEntries;
    AppendAction(h, members, a.id, s, a.areq, a.faults);
    AssembleOwn(c, a);
  }

  lemma AppendReplyPreserves(c: Cluster, a: Action)
    requires Inv(c) && Enabled(c, a) && a.DoAppendReply?
    ensures Inv(Apply(c, a)) && Continues(c, Apply(c, a))
  {
    hide Inv;
    hide Continues;
    hide HistInv;
    hide ServerInv;
    hide Good;
    hide OwnChanges;
    hide Apply;
    var h, members, s := c.history, c.servers.Keys, c.servers[a.id];
    Unpack(c, a.id);
    hide AppendReplyEffect;
    AppendReplyAction(h, members, a.id, s, a.peer, a.areq, a.aresp, a.ok);
    AssembleOwn(c, a);
  }

  lemma RpcDonePreserves(c: Cluster, a: Action)
    requires Inv(c) && Enabled(c, a) && a.DoRpcDone?
    ensures Inv(Apply(c, a)) && Continues(c, Apply(c, a))
  {
    hide Inv;
    hide Continues;
    hide HistInv;
    hide ServerInv;
    hide Good;
    hide OwnChanges;
    hide Apply;
    var h, members, s := c.history, c.servers.Keys, c.servers[a.id];
    Unpack(c, a.id);
    var n := EffectOf(c, a).server.rep.node;
    FlightStep(h, members, a.id, s, n.inFlight, n.replicatePending);
    QuietAction(h, members, a.id, EffectOf(c, a));
    AssembleOwn(c, a);
  }

  lemma BuildSnapshotPreserves(c: Cluster, a: Action)
    requires Inv(c) && Enabled(c, a) && a.DoBuildSnapshot?
    ensures Inv(Apply(c, a)) && Continues(c, Apply(c, a))
  {
    hide Inv;
    hide Continues;
    hide HistInv;
    hide ServerInv;
    hide Good;
    hide OwnChanges;
    hide Apply;
    var h, members, s := c.history, c.servers.Keys, c.servers[a.id];
    Unpack(c, a.id);
    var e := EffectOf(c, a);
    var n := e.server.rep.node;
    FlightStep(h, members, a.id, s, n.inFlight, n.replicatePending);
    BuildSnapshotMessage(h, members, a.id, s, a.peer);
    QuietAction(h, members, a.id, e);
    AssembleOwn(c, a);
  }

  lemma InstallPreserves(c: Cluster, a: Action)
    requires Inv(c) && Enabled(c, a) && a.DoInstall?
    ensures Inv(Apply(c, a)) && Continues(c, Apply(c, a))
  {
    hide Inv;
    hide Continues;
    hide HistInv;
    hide ServerInv;
    hide Good;
    hide OwnChanges;
    hide Apply;
    var h, members, s := c.history, c.servers.Keys, c.servers[a.id];
    Unpack(c, a.id);
    hide HandleInstallSnapshot;
    assert MessageInv(h, members, SnapReq(a.id, a.sreq));
    InstallStep(h, members, a.id, s, a.sreq, a.sfaults);
    QuietAction(h, members, a.id, EffectOf(c, a));
    AssembleOwn(c, a);
  }

  lemma InstallReplyPreserves(c: Cluster, a: Action)
    requires Inv(c) && Enabled(c, a) && a.DoInstallReply?
    ensures Inv(Apply(c, a)) && Continues(c, Apply(c, a))
  {
    hide Inv;
    hide Continues;
    hide HistInv;
    hide ServerInv;
    hide Good;
    hide OwnChanges;
    hide Apply;
    var h, members, s := c.history, c.servers.Keys, c.servers[a.id];
    Unpack(c, a.id);
    hide OnSnapshotReply;
    assert MessageInv(h, members, SnapResp(a.peer, a.sreq, a.sresp));
    InstallReplyStep(h, members, a.id, s, a.peer, a.sreq, a.sresp, a.ok);
    QuietAction(h, members, a.id, EffectOf(c, a));
    AssembleOwn(c, a);
  }

  lemma CompactPreserves(c: Cluster, a: Action)
    requires Inv(c) && Enabled(c, a) && a.DoCompact?
    ensures Inv(Apply(c, a)) && Continues(c, Apply(c, a))
  {
    hide Inv;
    hide Continues;
    hide HistInv;
    hide ServerInv;
    hide Good;
    hide OwnChanges;
    hide Apply;
    var h, members, s := c.history, c.servers.Keys, c.servers[a.id];
    Unpack(c, a.id);
    hide TakeSnapshot;
    CompactStep(h, members, a.id, s, a.saveOk, a.setLogOk);
    QuietAction(h, members, a.id, EffectOf(c, a));
    AssembleOwn(c, a);
  }

  lemma DeliverSnapshotPreserves(c: Cluster, a: Action)
    requires Inv(c) && Enabled(c, a) && a.DoDeliverSnapshot?
    ensures Inv(Apply(c, a)) && Continues(c, Apply(c, a))
  {
    hide Inv;
    hide Continues;
    hide HistInv;
    hide ServerInv;
    hide Good;
    hide OwnChanges;
    hide Apply;
    var h, members, s := c.history, c.servers.Keys, c.servers[a.id];
    Unpack(c, a.id);
    DeliverSnapshotStep(h, members, a.id, s);
    QuietAction(h, members, a.id, EffectOf(c, a));
    AssembleOwn(c, a);
  }

  lemma DeliverEntryPreserves(c: Cluster, a: Action)
    requires Inv(c) && Enabled(c, a) && a.DoDeliverEntry?
    ensures Inv(Apply(c, a)) && Continues(c, Apply(c, a))
  {
    hide Inv;
    hide Continues;
    hide HistInv;
    hide ServerInv;
    hide Good;
    hide OwnChanges;
    hide Apply;
    var h, members, s := c.history, c.servers.Keys, c.servers[a.id];
    Unpack(c, a.id);
    hide DeliverEntryEffect;
    DeliverEntryAction(h, members, a.id, s);
    AssembleOwn(c, a);
  }

  lemma ServePreserves(c: Cluster, a: Action)
    requires Inv(c) && Enabled(c, a) && a.DoServe?
    ensures Inv(Apply(c, a)) && Continues(c, Apply(c, a))
  {
    hide Inv;
    hide Continues;
    hide HistInv;
    hide ServerInv;
    hide Good;
    hide OwnChanges;
    hide Apply;
    var h, members, s := c.history, c.servers.Keys, c.servers[a.id];
    Unpack(c, a.id);
    ServeStep(h, members, a.id, s);
    QuietAction(h, members, a.id, EffectOf(c, a));
    AssembleOwn(c, a);
  }

  lemma RestartPreserves(c: Cluster, a: Action)
    requires Inv(c) && Enabled(c, a) && a.DoRestart? && Mirror(c.servers[a.id].rep)
    ensures Inv(Apply(c, a)) && Continues(c, Apply(c, a))
  {
    hide Inv;
    hide Continues;
    hide HistInv;
    hide ServerInv;
    hide Good;
    hide OwnChanges;
    hide Apply;
    var h, members, s := c.history, c.servers.Keys, c.servers[a.id];
    Unpack(c, a.id);
    hide Restarted;
    RestartStep(h, members, a.id, s);
    QuietAction(h, members, a.id, EffectOf(c, a));
    AssembleOwn(c, a);
  }

  lemma CountVotePreserves(c: Cluster, a: Action)
    requires Inv(c) && Enabled(c, a) && a.DoCountVote?
    ensures Inv(Apply(c, a)) && Continues(c, Apply(c, a))
  {
    hide Inv;
    hide Continues;
    hide Good;
    hide Untouched;
    hide CountVoteEffect;
    hide Apply;
    CountVoteAction(c, a.id, a.voter, a.vreq, a.vresp, a.ok);
    Assemble(c, a);
  }

  /** Every action keeps the invariant. */
  lemma StepPreservesInv(c: Cluster, a: Action)
    requires Inv(c) && Enabled(c, a) && Recovers(c, a)
    ensures Inv(Apply(c, a)) && Continues(c, Apply(c, a))
  {
    hide Inv;
    hide Continues;
    hide Enabled;
    hide Apply;
    match a
    case DoTimeout(_) => TimeoutPreserves(c, a);
    case DoStartElection(_, _) => StartElectionPreserves(c, a);
    case DoVote(_, _, _, _) => VotePreserves(c, a);
    case DoCountVote(_, _, _, _, _) => CountVotePreserves(c, a);
    case DoStartCommand(_, _, _, _) => StartCommandPreserves(c, a);
    case DoBuildAppend(_, _) => BuildAppendPreserves(c, a);
    case DoAppend(_, _, _) => AppendPreserves(c, a);
    case DoAppendReply(_, _, _, _, _) => AppendReplyPreserves(c, a);
    case DoRpcDone(_, _) => RpcDonePreserves(c, a);
    case DoBuildSnapshot(_, _) => BuildSnapshotPreserves(c, a);
    case DoInstall(_, _, _) => InstallPreserves(c, a);
    case DoInstallReply(_, _, _, _, _) => InstallReplyPreserves(c, a);
    case DoCompact(_, _, _) => CompactPreserves(c, a);
    case DoDeliverSnapshot(_) => DeliverSnapshotPreserves(c, a);
    case DoDeliverEntry(_) => DeliverEntryPreserves(c, a);
    case DoServe(_) => ServePreserves(c, a);
    case DoRestart(_) => RestartPreserves(c, a);
  }

  lemma FreshParts(h: History, d: Disk, s: Server)
    requires h.committed == [] && s == Restarted(d)
    requires d.base == 0 && d.log == [] && d.snap == None && d.hard.commitIndex == 0
    ensures Full(h, s.rep.node) == [] && s.rep.node.role == Follower && s.rep.node.snapshotIndex == 0
    ensures s.rep.node.commitIndex == 0
    ensures TermsInv(s) && SnapshotInv(h, s) && Saved(s.rep) && ApplyInv(h, s)
  {
    assert h.committed[..0] == [];
    assert Full(h, s.rep.node) == [];
  }

  lemma FreshDurable(id: NodeId)
    ensures DurableInv(EMPTY_HISTORY, id, [], 0, EMPTY_DISK.hard)
    ensures KnownInv(EMPTY_HISTORY, [], 0, 0)
  {
  }

  lemma FreshServer(members: set<NodeId>, id: NodeId)
    ensures ServerInv(EMPTY_HISTORY, members, id, Restarted(EMPTY_DISK))
  {
    FreshParts(EMPTY_HISTORY, EMPTY_DISK, Restarted(EMPTY_DISK));
    FreshDurable(id);
    hide TermsInv;
    hide SnapshotInv;
    hide ApplyInv;
    hide Saved;
    FollowerServer(EMPTY_HISTORY, members, id, Restarted(EMPTY_DISK), []);
  }

  lemma FreshHistory(members: set<NodeId>)
    ensures HistInv(EMPTY_HISTORY, members)
  {
  }

  /** The initial state satisfies the invariant. */
  lemma InitInv(c: Cluster)
    requires Init(c)
    ensures Inv(c)
  {
    hide HistInv;
    hide ServerInv;
    hide Restarted;
    FreshHistory(c.servers.Keys);
    forall id {:trigger ServerInv(c.history, c.servers.Keys, id, c.servers[id])} | id in c.servers
      ensures ServerInv(c.history, c.servers.Keys, id, c.servers[id])
    {
      FreshServer(c.servers.Keys, id);
    }
  }
}
