/** Steps that change terms, votes and leadership. */
module StepsElection {
  import opened Types
  import opened NodeModel
  import opened Cluster
  import opened Invariants
  import opened Safety
  import opened Frames
  import opened StepsQuiet

  // ---------------------------------------------------------------- a higher term

  /** Moving to a later term without a vote keeps everything that was durable. */
  lemma DurableNewTerm(h: History, id: NodeId, full: seq<LogEntry>, from: nat, d: HardState, d': HardState)
    requires AcksInv(h) && DurableInv(h, id, full, from, d)
    requires d.currentTerm < d'.currentTerm && d'.votedFor == None
    requires KnownInv(h, full, d'.commitIndex, d.currentTerm)
    ensures DurableInv(h, id, full, from, d')
  {
    ExtendsSelf(h);
    LogInvGrows(h, h, full, from, d.currentTerm, d'.currentTerm);
    KnownInvGrows(h, h, full, d'.commitIndex, d.currentTerm, d'.currentTerm);
    AckInvGrows(h, h, id, full, d.currentTerm, d'.currentTerm);
  }

  /** Rewriting the hard state with a commit index that is known. */
  lemma DurableNewCommit(h: History, id: NodeId, full: seq<LogEntry>, from: nat, d: HardState, commit: nat)
    requires DurableInv(h, id, full, from, d) && KnownInv(h, full, commit, d.currentTerm)
    ensures DurableInv(h, id, full, from, d.(commitIndex := commit))
  {
  }

  /** A node and its disk move to a later term: the node as follower, with or without the write. */
  lemma StepDownStep(h: History, members: set<NodeId>, id: NodeId, s: Server, term: nat, ok: bool)
    requires HistInv(h, members) && ServerInv(h, members, id, s) && s.rep.node.currentTerm < term
    ensures ServerInv(h, members, id, s.(rep := StepDown(s.rep, term, ok)))
  {
    var s' := s.(rep := StepDown(s.rep, term, ok));
    var n, n' := s.rep.node, s'.rep.node;
    assert Full(h, n') == Full(h, n);
    if ok {
      DurableNewTerm(h, id, Full(h, n), n.snapshotIndex, s.rep.disk.hard, s'.rep.disk.hard);
      ExtendsSelf(h);
      KnownInvGrows(h, h, Full(h, n), n.commitIndex, s.rep.disk.hard.currentTerm, term);
    }
  }

  /** The part of a request handler that adopts the request's term and becomes follower. */
  function Follow(r: Replica, term: nat): Replica {
    var a := if term > r.node.currentTerm then AdoptTerm(r, term) else r;
    a.(node := a.node.(role := Follower))
  }

  lemma FollowStep(h: History, members: set<NodeId>, id: NodeId, s: Server, term: nat)
    requires HistInv(h, members) && ServerInv(h, members, id, s)
    requires !s.rep.node.degraded && s.rep.node.currentTerm <= term
    ensures ServerInv(h, members, id, s.(rep := Follow(s.rep, term)))
  {
    if term > s.rep.node.currentTerm {
      assert Follow(s.rep, term) == StepDown(s.rep, term, true);
      StepDownStep(h, members, id, s, term, true);
    } else {
      QuietServer(h, members, id, s, s.(rep := Follow(s.rep, term)));
    }
  }

  // ---------------------------------------------------------------- votes

  lemma AtLeastTransitive(p: Position, q: Position, r: Position)
    requires AtLeast(p, q) && AtLeast(q, r)
    ensures AtLeast(p, r)
  {
  }

  /** What the node reports as its last position is the last position of its uncompacted log. */
  lemma LastPositionOfNode(h: History, n: Node)
    requires n.snapshotIndex <= |h.committed| && n.snapshotTerm == TermAt(h.committed, n.snapshotIndex)
    ensures LastPosition(Full(h, n)) == Position(n.LastTerm(), n.LastIndex())
  {
    if n.log == [] && n.snapshotIndex > 0 {
      assert Full(h, n)[n.snapshotIndex - 1] == h.committed[n.snapshotIndex - 1];
    }
  }

  /** A position no older than the voter's log justifies the vote. */
  lemma VoteJustified(h: History, id: NodeId, full: seq<LogEntry>, term: nat, pos: Position, t: nat)
    requires AcksInv(h) && AckInv(h, id, full, t) && t <= term && AtLeast(pos, LastPosition(full))
    ensures Justified(h, id, term, pos, term + 1)
  {
    ExtendsSelf(h);
    forall u: nat, i: nat {:trigger AckedAt(h, id, u, i)} | u < term && AckedAt(h, id, u, i)
      ensures AtLeast(pos, Position(u, i)) || Lost(h, u, i, term + 1)
    {
      if Retained(h, full, u, i) {
        AtLeastTransitive(pos, LastPosition(full), Position(u, i));
      } else {
        LostGrows(h, h, u, i, t + 1, term + 1);
      }
    }
  }

  /** Recording a vote of `id` in its present durable term. */
  lemma CastVote(h: History, h': History, id: NodeId, full: seq<LogEntry>, from: nat, d: HardState, d': HardState)
    requires AcksInv(h) && DurableInv(h, id, full, from, d) && Extends(h, h')
    requires d'.currentTerm == d.currentTerm && d'.votedFor.Some?
    requires KnownInv(h, full, d'.commitIndex, d.currentTerm)
    requires h' == h.(votes := h.votes[Key(id, d.currentTerm) := d'.votedFor.value])
    requires Key(d'.votedFor.value, d.currentTerm) in h.ballots
    requires AtLeast(h.ballots[Key(d'.votedFor.value, d.currentTerm)], LastPosition(full))
    ensures DurableInv(h', id, full, from, d')
  {
    var t := d.currentTerm;
    LogInvGrows(h, h', full, from, t, t);
    KnownInvGrows(h, h', full, d'.commitIndex, t, t);
    AckInvGrows(h, h', id, full, t, t);
    forall k | k in h'.votes && k.node == id
      ensures
        && k.term <= t
        && (k.term == t ==> d'.votedFor == Some(h'.votes[k]))
        && Key(h'.votes[k], k.term) in h'.ballots
        && Justified(h', id, k.term, h'.ballots[Key(h'.votes[k], k.term)], k.term + 1)
    {
      if k.term == t {
        VoteJustified(h', id, full, t, h'.ballots[Key(h'.votes[k], t)], t);
      } else {
        JustifiedGrows(h, h', id, k.term, h.ballots[Key(h.votes[k], k.term)], k.term + 1);
      }
    }
  }

  /** Standing in the present durable term, for the first time. */
  lemma StandForElection(h: History, h': History, id: NodeId, full: seq<LogEntry>, from: nat, d: HardState, pos: Position)
    requires AcksInv(h) && DurableInv(h, id, full, from, d)
    requires Key(id, d.currentTerm) !in h.ballots
    requires h' == h.(ballots := h.ballots[Key(id, d.currentTerm) := pos])
    ensures Extends(h, h') && DurableInv(h', id, full, from, d)
  {
    ExtendsRecords(h, h');
    LogInvGrows(h, h', full, from, d.currentTerm, d.currentTerm);
    KnownInvGrows(h, h', full, d.commitIndex, d.currentTerm, d.currentTerm);
    AckInvGrows(h, h', id, full, d.currentTerm, d.currentTerm);
    VoteInvGrows(h, h', id, d);
  }

  lemma VoteExtends(h: History, h': History, k: Key, cand: NodeId)
    requires k !in h.votes && h' == h.(votes := h.votes[k := cand])
    ensures Extends(h, h')
  {
    ExtendsRecords(h, h');
  }

  lemma SameAcks(h: History, h': History)
    requires AcksInv(h) && h'.acks == h.acks && h'.logs == h.logs
    ensures AcksInv(h')
  {
  }

  /** The durable side of starting an election. */
  lemma StartElectionDurable(
    h: History, h': History, id: NodeId, full: seq<LogEntry>, from: nat, d: HardState, t: nat, commit: nat)
    requires AcksInv(h) && DurableInv(h, id, full, from, d) && KnownInv(h, full, commit, d.currentTerm)
    requires d.currentTerm < t
    requires var k := Key(id, t);
      h' == h.(ballots := h.ballots[k := LastPosition(full)], votes := h.votes[k := id])
    ensures Extends(h, h')
    ensures DurableInv(h', id, full, from, HardState(t, Some(id), commit))
  {
    var d1 := HardState(t, None, commit);
    var h1 := h.(ballots := h.ballots[Key(id, t) := LastPosition(full)]);
    DurableNewTerm(h, id, full, from, d, d1);
    assert Key(id, t) !in h.ballots && Key(id, t) !in h.votes;
    assert KnownInv(h1, full, commit, t) by { assert DurableInv(h, id, full, from, d1); }
    hide DurableInv;
    hide KnownInv;
    hide AcksInv;
    StandForElection(h, h1, id, full, from, d1, LastPosition(full));
    VoteExtends(h1, h', Key(id, t), id);
    hide Extends;
    ExtendsTransitive(h, h1, h');
    SameAcks(h, h1);
    CastVote(h1, h', id, full, from, d1, HardState(t, Some(id), commit));
  }

  lemma StartElectionStep(h: History, members: set<NodeId>, id: NodeId, s: Server, ok: bool)
    requires HistInv(h, members) && ServerInv(h, members, id, s)
    requires s.rep.node.role != Leader
    ensures var e := StartElectionEffect(h, s, id, ok);
      && Extends(h, e.history)
      && HistInv(e.history, members)
      && ServerInv(e.history, members, id, e.server)
  {
    hide HistInv;
    hide ServerInv;
    hide Extends;
    hide StartElectionEffect;
    if ok {
      StandStep(h, members, id, s);
    } else {
      ExtendsSelf(h);
      FailedStandStep(h, members, id, s);
    }
  }

  lemma FailedStandStep(h: History, members: set<NodeId>, id: NodeId, s: Server)
    requires ServerInv(h, members, id, s) && s.rep.node.role != Leader
    ensures var e := StartElectionEffect(h, s, id, false); e.history == h && ServerInv(h, members, id, e.server)
  {
    QuietServer(h, members, id, s, StartElectionEffect(h, s, id, false).server);
  }

  lemma StandStep(h: History, members: set<NodeId>, id: NodeId, s: Server)
    requires HistInv(h, members) && ServerInv(h, members, id, s) && s.rep.node.role != Leader
    ensures var e := StartElectionEffect(h, s, id, true);
      Extends(h, e.history) && HistInv(e.history, members) && ServerInv(e.history, members, id, e.server)
  {
    var n, d, h' := s.rep.node, s.rep.disk.hard, StartElectionEffect(h, s, id, true).history;
    LastPositionOfNode(h, n);
    assert DurableInv(h, id, Full(h, n), n.snapshotIndex, d) && KnownInv(h, Full(h, n), n.commitIndex, d.currentTerm);
    assert AcksInv(h) && d.currentTerm <= n.currentTerm;
    hide HistInv;
    hide ServerInv;
    hide DurableInv;
    hide KnownInv;
    hide AcksInv;
    hide Extends;
    StartElectionDurable(h, h', id, Full(h, n), n.snapshotIndex, d, n.currentTerm + 1, n.commitIndex);
    HistVotes(h, h', members);
    CandidateServer(h, h', members, id, s);
  }

  /** The invariant of a candidate that has just started its election. */
  lemma CandidateOwn(h: History, h': History, members: set<NodeId>, id: NodeId, s: Server)
    requires TermsInv(s) && SnapshotInv(h, s) && PastInv(h, id, s.rep.disk.hard.currentTerm)
    requires Extends(h, h')
    requires h' == StartElectionEffect(h, s, id, true).history
    ensures TermsInv(StartElectionEffect(h, s, id, true).server)
    ensures CandidateInv(h', members, id, StartElectionEffect(h, s, id, true).server)
  {
    var n := s.rep.node;
    var n' := StartElectionEffect(h, s, id, true).server.rep.node;
    FullStable(h, h', n);
    assert Full(h', n') == Full(h', n);
    LastPositionOfNode(h, n);
  }

  lemma CandidateServer(h: History, h': History, members: set<NodeId>, id: NodeId, s: Server)
    requires ServerInv(h, members, id, s) && Extends(h, h') && s.rep.node.role != Leader
    requires h' == StartElectionEffect(h, s, id, true).history
    requires var d := StartElectionEffect(h, s, id, true).server.rep.disk.hard;
      DurableInv(h', id, Full(h, s.rep.node), s.rep.node.snapshotIndex, d)
    ensures ServerInv(h', members, id, StartElectionEffect(h, s, id, true).server)
  {
    var n := s.rep.node;
    var s' := StartElectionEffect(h, s, id, true).server;
    CandidateOwn(h, h', members, id, s);
    FullStable(h, h', n);
    assert Full(h', s'.rep.node) == Full(h, n);
    KnownInvGrows(h, h', Full(h, n), n.commitIndex, s.rep.disk.hard.currentTerm, s'.rep.node.currentTerm);
    SnapshotInvFrame(h, h', s);
    ApplyInvFrame(h, h', s);
    assert SnapshotInv(h', s');
    assert ApplyInv(h', s');
  }

  // ---------------------------------------------------------------- granting

  /** Casting a vote on the server: the node that asks is not itself and no other vote was cast this term. */
  lemma GrantStep(h: History, h': History, members: set<NodeId>, id: NodeId, s: Server, cand: NodeId)
    requires HistInv(h, members) && ServerInv(h, members, id, s) && !s.rep.node.degraded && cand != id
    requires s.rep.node.votedFor in {None, Some(cand)}
    requires Key(cand, s.rep.node.currentTerm) in h.ballots
    requires AtLeast(h.ballots[Key(cand, s.rep.node.currentTerm)], LastPosition(Full(h, s.rep.node)))
    requires h' == h.(votes := h.votes[Key(id, s.rep.node.currentTerm) := cand])
    ensures Extends(h, h') && HistInv(h', members)
    ensures ServerInv(h', members, id, s.(rep := SaveHard(s.rep.(node := s.rep.node.(votedFor := Some(cand))), true)))
  {
    var n := s.rep.node;
    var s' := s.(rep := SaveHard(s.rep.(node := n.(votedFor := Some(cand))), true));
    ExtendsRecords(h, h');
    HistVotes(h, h', members);
    CastVote(h, h', id, Full(h, n), n.snapshotIndex, s.rep.disk.hard, s'.rep.disk.hard);
    GrantServer(h, h', members, id, s, cand);
  }

  lemma GrantServer(h: History, h': History, members: set<NodeId>, id: NodeId, s: Server, cand: NodeId)
    requires ServerInv(h, members, id, s) && !s.rep.node.degraded && cand != id && Extends(h, h')
    requires s.rep.node.votedFor in {None, Some(cand)}
    requires h' == h.(votes := h'.votes)
    requires DurableInv(h', id, Full(h, s.rep.node), s.rep.node.snapshotIndex, s.rep.node.(votedFor := Some(cand)).Hard())
    ensures ServerInv(h', members, id, s.(rep := SaveHard(s.rep.(node := s.rep.node.(votedFor := Some(cand))), true)))
  {
    var n := s.rep.node;
    var n' := n.(votedFor := Some(cand));
    var s' := s.(rep := SaveHard(s.rep.(node := n'), true));
    LeaderSame(h, members, id, n, n');
    LeaderInvFrame(h, h', members, id, n');
    FullStable(h, h', n);
    assert Full(h', n') == Full(h, n);
    KnownInvGrows(h, h', Full(h, n), n.commitIndex, s.rep.disk.hard.currentTerm, n.currentTerm);
    hide LeaderInv;
    hide KnownInv;
    hide DurableInv;
    GrantRest(h, h', members, id, s, cand);
    hide TermsInv;
    hide SnapshotInv;
    hide ApplyInv;
    hide CandidateInv;
    hide Saved;
    hide Extends;
  }

  lemma GrantRest(h: History, h': History, members: set<NodeId>, id: NodeId, s: Server, cand: NodeId)
    requires TermsInv(s) && SnapshotInv(h, s) && ApplyInv(h, s) && Saved(s.rep) && CandidateInv(h, members, id, s)
    requires Extends(h, h') && cand != id && s.rep.node.votedFor in {None, Some(cand)} && !s.rep.node.degraded
    ensures var s' := s.(rep := SaveHard(s.rep.(node := s.rep.node.(votedFor := Some(cand))), true));
      && TermsInv(s') && SnapshotInv(h', s') && ApplyInv(h', s') && Saved(s'.rep) && CandidateInv(h', members, id, s')
  {
    SnapshotInvFrame(h, h', s);
    ApplyInvFrame(h, h', s);
  }

  /** A vote request is fresh enough exactly when its position is at least that of the uncompacted log. */
  lemma UpToDateMeansAtLeast(h: History, n: Node, req: VoteRequest)
    requires n.snapshotIndex <= |h.committed| && n.snapshotTerm == TermAt(h.committed, n.snapshotIndex)
    ensures UpToDate(req, n) <==> AtLeast(Position(req.lastLogTerm, req.lastLogIndex), LastPosition(Full(h, n)))
  {
    LastPositionOfNode(h, n);
  }

  lemma FollowTerm(r: Replica, term: nat)
    requires r.node.currentTerm <= term
    ensures Follow(r, term).node.currentTerm == term && Follow(r, term).node.degraded == r.node.degraded
  {
  }

  /** The replica after the term check of a vote request: only a higher term makes it follow. */
  function AfterTerm(r: Replica, term: nat): Replica { if term > r.node.currentTerm then Follow(r, term) else r }

  /** What a vote request can do to a replica. */
  lemma VoteCases(r: Replica, req: VoteRequest, termOk: bool, voteOk: bool)
    ensures var (r', resp) := HandleRequestVote(r, req, termOk, voteOk);
      var r1 := AfterTerm(r, req.term);
      if resp.Some? && resp.value.granted then
        && !r.node.degraded && r.node.currentTerm <= req.term
        && r1.node.votedFor in {None, Some(req.candidate)} && UpToDate(req, r1.node)
        && r' == SaveHard(r1.(node := r1.node.(votedFor := Some(req.candidate))), true)
      else
        r' == r || (!r.node.degraded && r.node.currentTerm <= req.term && r' == r1)
  {
  }

  lemma VoteStep(h: History, members: set<NodeId>, id: NodeId, s: Server, req: VoteRequest, termOk: bool, voteOk: bool)
    requires HistInv(h, members) && ServerInv(h, members, id, s) && req.candidate != id
    requires MessageInv(h, members, VoteReq(req))
    ensures var e := VoteEffect(h, s, id, req, termOk, voteOk);
      && Extends(h, e.history)
      && HistInv(e.history, members)
      && ServerInv(e.history, members, id, e.server)
  {
    hide HistInv;
    hide Extends;
    hide UpToDate;
    hide HandleRequestVote;
    hide Follow;
    var e := VoteEffect(h, s, id, req, termOk, voteOk);
    VoteCases(s.rep, req, termOk, voteOk);
    ExtendsSelf(h);
    if e.server != s || e.history != h {
      var s1 := s.(rep := AfterTerm(s.rep, req.term));
      if req.term > s.rep.node.currentTerm {
        FollowStep(h, members, id, s, req.term);
        FollowTerm(s.rep, req.term);
      }
      assert ServerInv(h, members, id, s1);
      if e.history != h || e.server != s1 {
        UpToDateMeansAtLeast(h, s1.rep.node, req);
        GrantStep(h, e.history, members, id, s1, req.candidate);
      }
    }
  }

  // ---------------------------------------------------------------- winning

  /** Election Safety: a quorum of votes in a term can only be for the node elected in that term, if any. */
  lemma SameWinner(h: History, members: set<NodeId>, id: NodeId, t: nat, q: set<NodeId>)
    requires ElectionsInv(h, members) && IsQuorum(members, q)
    requires forall x :: x in q ==> Key(x, t) in h.votes && h.votes[Key(x, t)] == id
    ensures t in h.elections ==> h.elections[t].leader == id
  {
    if t in h.elections {
      assert ElectionInv(h, members, t);
      var x := QuorumsMeet(members, q, h.elections[t].quorum);
      assert VoterInv(h, t, x);
    }
  }

  lemma LostEarlier(h: History, t: nat, i: nat, bound: nat)
    requires bound !in h.elections && Lost(h, t, i, bound + 1)
    ensures Lost(h, t, i, bound)
  {
  }

  /** A quorum that found the candidate's last position fresh enough had lost no committed entry, so that
      position is no earlier than any entry committed before. */
  lemma WinnerIsLate(h: History, members: set<NodeId>, t: nat, pos: Position, q: set<NodeId>, v: nat)
    requires LogsInv(h) && ElectionsInv(h, members) && t !in h.elections
    requires v in h.decisions && DecisionInv(h, members, v) && v < t
    requires IsQuorum(members, q) && forall x :: x in q ==> Justified(h, x, t, pos, t + 1)
    ensures AtLeast(pos, Position(v, h.decisions[v].index))
  {
    var i := h.decisions[v].index;
    var x := QuorumsMeet(members, q, h.decisions[v].quorum);
    assert AckedAt(h, x, v, i);
    assert Justified(h, x, t, pos, t + 1);
    if Lost(h, v, i, t + 1) {
      var u :| v < u < t + 1 && u in h.elections && !Agree(h.elections[u].log, h.logs[v], 0, i);
      LeaderCompleteness(h, members, v, i, h.decisions[v].quorum, u);
    }
  }

  /** The log of a winner is, as a whole, a prefix of the log of the leader of its last term. */
  lemma WinnerLog(h: History, members: set<NodeId>, full: seq<LogEntry>, s: nat, t: nat, q: set<NodeId>)
    requires LogsInv(h) && ElectionsInv(h, members) && DecisionsInv(h, members) && t !in h.elections
    requires s <= |full| && full != [] && LogInv(h, full, s, t)
    requires Agree(full, h.committed, 0, s) && Covered(h, s, t)
    requires IsQuorum(members, q) && forall x :: x in q ==> Justified(h, x, t, LastPosition(full), t + 1)
    ensures var u := full[|full| - 1].term; u < t && u in h.logs && Agree(full, h.logs[u], 0, |full|)
  {
    var last := |full| - 1;
    var u := full[last].term;
    if s == 0 {
      assert EntryInv(h, full, s, last, t);
    } else {
      var v :| v in h.decisions && v <= t && s <= h.decisions[v].index;
      assert DecisionInv(h, members, v);
      WinnerIsLate(h, members, t, LastPosition(full), q, v);
      if s <= last {
        assert EntryInv(h, full, s, last, t);
        assert Covered(h, s, v);
        CommittedInLeader(h, members, s, v, u);
      } else {
        assert LeaderLogInv(h, v) && LeaderEntryInv(h, v, last);
        LeaderTermsOrdered(h, v, last, last);
      }
    }
  }

  lemma WinnerTraced(h: History, members: set<NodeId>, full: seq<LogEntry>, s: nat, t: nat, q: set<NodeId>, k: nat)
    requires LogsInv(h) && ElectionsInv(h, members) && DecisionsInv(h, members) && t !in h.elections
    requires s <= |full| && LogInv(h, full, s, t) && k < |full|
    requires Agree(full, h.committed, 0, s) && Covered(h, s, t)
    requires IsQuorum(members, q) && forall x :: x in q ==> Justified(h, x, t, LastPosition(full), t + 1)
    ensures Traced(h, full, 0, k) && full[k].term < t
  {
    WinnerLog(h, members, full, s, t, q);
    var u := full[|full| - 1].term;
    assert LeaderLogInv(h, u) && LeaderEntryInv(h, u, k);
    LeaderTermsOrdered(h, u, k, k);
  }

  /** Recording the win keeps the history invariant. */
  lemma ElectHist(h: History, members: set<NodeId>, id: NodeId, full: seq<LogEntry>, t: nat, q: set<NodeId>)
    requires HistInv(h, members) && t !in h.elections && 0 < t
    requires forall k :: 0 <= k < |full| ==> Traced(h, full, 0, k) && full[k].term < t
    requires IsQuorum(members, q)
    requires forall x :: x in q ==>
      Key(x, t) in h.votes && h.votes[Key(x, t)] == id && Justified(h, x, t, LastPosition(full), t + 1)
    ensures Extends(h, Elect(h, t, id, full, q)) && HistInv(Elect(h, t, id, full, q), members)
  {
    var h' := Elect(h, t, id, full, q);
    ElectExtends(h, t, id, full, q);
    ElectLogs(h, id, full, t, q);
    hide LogsInv;
    ElectElections(h, members, id, full, t, q);
    hide ElectionsInv;
    DecisionsSame(h, h', members);
    hide DecisionsInv;
    hide Extends;
  }

  lemma ElectExtends(h: History, t: nat, id: NodeId, full: seq<LogEntry>, q: set<NodeId>)
    requires LogsInv(h) && t !in h.elections
    ensures Extends(h, Elect(h, t, id, full, q))
  {
  }

  lemma ElectLogs(h: History, id: NodeId, full: seq<LogEntry>, t: nat, q: set<NodeId>)
    requires LogsInv(h) && t !in h.elections && 0 < t
    requires forall k :: 0 <= k < |full| ==> Traced(h, full, 0, k) && full[k].term < t
    ensures LogsInv(Elect(h, t, id, full, q))
  {
    var h' := Elect(h, t, id, full, q);
    ElectExtends(h, t, id, full, q);
    forall u {:trigger LeaderLogInv(h', u)} | u in h'.logs ensures LeaderLogInv(h', u) {
      if u != t {
        assert LeaderLogInv(h, u);
        LeaderLogGrows(h, h', u);
      } else {
        forall k {:trigger LeaderEntryInv(h', t, k)} | 0 <= k < |full| ensures LeaderEntryInv(h', t, k) {
          assert Traced(h, full, 0, k);
        }
      }
    }
  }

  lemma ElectElections(h: History, members: set<NodeId>, id: NodeId, full: seq<LogEntry>, t: nat, q: set<NodeId>)
    requires AcksInv(h) && ElectionsInv(h, members) && t !in h.elections && IsQuorum(members, q)
    requires Extends(h, Elect(h, t, id, full, q))
    requires forall x :: x in q ==>
      Key(x, t) in h.votes && h.votes[Key(x, t)] == id && Justified(h, x, t, LastPosition(full), t + 1)
    ensures ElectionsInv(Elect(h, t, id, full, q), members)
  {
    var h' := Elect(h, t, id, full, q);
    forall u {:trigger ElectionInv(h', members, u)} | u in h'.elections ensures ElectionInv(h', members, u) {
      if u != t {
        assert ElectionInv(h, members, u);
        ElectionGrows(h, h', members, u);
      } else {
        forall x {:trigger VoterInv(h', t, x)} | x in q ensures VoterInv(h', t, x) {
          WinnerVoter(h, h', t, x, LastPosition(full));
        }
      }
    }
  }

  lemma WinnerVoter(h: History, h': History, t: nat, x: NodeId, pos: Position)
    requires Extends(h, h') && AcksInv(h) && t !in h.elections && h'.acks == h.acks
    requires Justified(h, x, t, pos, t + 1)
    ensures Justified(h', x, t, pos, t)
  {
    forall u: nat, i: nat {:trigger AckedAt(h, x, u, i)} | u < t && AckedAt(h, x, u, i)
      ensures AtLeast(pos, Position(u, i)) || Lost(h, u, i, t)
    {
      if Lost(h, u, i, t + 1) {
        LostEarlier(h, u, i, t);
      }
    }
    JustifiedGrows(h, h', x, t, pos, t);
  }

  /** The winner's durable record under its own election. */
  lemma ElectDurable(h: History, h': History, id: NodeId, full: seq<LogEntry>, from: nat, d: HardState, q: set<NodeId>)
    requires AcksInv(h) && DurableInv(h, id, full, from, d) && Extends(h, h')
    requires h' == Elect(h, d.currentTerm, id, full, q)
    ensures DurableInv(h', id, full, from, d)
  {
    LogInvGrows(h, h', full, from, d.currentTerm, d.currentTerm);
    KnownInvGrows(h, h', full, d.commitIndex, d.currentTerm, d.currentTerm);
    AckInvGrows(h, h', id, full, d.currentTerm, d.currentTerm);
    VoteInvGrows(h, h', id, d);
  }

  lemma WinServer(h: History, h': History, members: set<NodeId>, id: NodeId, s: Server, q: set<NodeId>)
    requires ServerInv(h, members, id, s) && Extends(h, h') && id in members
    requires s.rep.node.role == Candidate && s.tally.Some?
    requires s.rep.node.currentTerm !in h.decisions
    requires h' == Elect(h, s.rep.node.currentTerm, id, Full(h, s.rep.node), q)
    requires forall i :: 0 <= i < |Full(h, s.rep.node)| ==> Full(h, s.rep.node)[i].term < s.rep.node.currentTerm
    requires DurableInv(h', id, Full(h, s.rep.node), s.rep.node.snapshotIndex, s.rep.disk.hard)
    ensures ServerInv(h', members, id,
              s.(rep := s.rep.(node := BecomeLeader(Config(id, members - {id}), s.rep.node)), tally := None))
  {
    var n := s.rep.node;
    var cfg := Config(id, members - {id});
    var n' := BecomeLeader(cfg, n);
    var s' := s.(rep := s.rep.(node := n'), tally := None);
    FullStable(h, h', n);
    assert Full(h', n') == Full(h, n);
    assert |Full(h, n)| == n.LastIndex();
    NewLeader(h', members, id, n);
    hide LeaderInv;
    hide BecomeLeader;
    KnownInvGrows(h, h', Full(h, n), n.commitIndex, s.rep.disk.hard.currentTerm, n.currentTerm);
    WinRest(h, h', cfg, s);
    hide Extends;
    hide DurableInv;
    hide KnownInv;
    hide SnapshotInv;
    hide ApplyInv;
    hide TermsInv;
    hide Saved;
  }

  lemma WinRest(h: History, h': History, cfg: Config, s: Server)
    requires TermsInv(s) && SnapshotInv(h, s) && ApplyInv(h, s) && Saved(s.rep) && Extends(h, h')
    requires s.rep.node.role == Candidate && s.tally.Some?
    ensures var s' := s.(rep := s.rep.(node := BecomeLeader(cfg, s.rep.node)), tally := None);
      && TermsInv(s') && SnapshotInv(h', s') && ApplyInv(h', s') && Saved(s'.rep)
      && s'.rep.node.commitIndex == s.rep.node.commitIndex && s'.rep.node.snapshotIndex == s.rep.node.snapshotIndex
      && s'.rep.node.currentTerm == s.rep.node.currentTerm && s'.rep.node.role == Leader
  {
    SnapshotInvFrame(h, h', s);
    ApplyInvFrame(h, h', s);
  }

  lemma NewLeader(h: History, members: set<NodeId>, id: NodeId, n: Node)
    requires id in members && |Full(h, n)| == n.LastIndex()
    requires n.currentTerm in h.logs && n.currentTerm in h.elections && n.currentTerm !in h.decisions
    requires h.logs[n.currentTerm] == Full(h, n) && h.elections[n.currentTerm].leader == id
    requires forall i :: 0 <= i < |Full(h, n)| ==> Full(h, n)[i].term < n.currentTerm
    ensures LeaderInv(h, members, id, BecomeLeader(Config(id, members - {id}), n))
  {
    var n' := BecomeLeader(Config(id, members - {id}), n);
    assert Full(h, n') == Full(h, n);
    assert Config(id, members - {id}).Members() == members;
    forall p | p in members && p != id
      ensures MatchInv(h, p, n') && 1 <= Get(n'.nextIndex, p) <= n'.LastIndex() + 1
    {
    }
  }

  /** A candidate with a quorum of votes becomes the one leader of its term, with a log that traces to
      the leaders before it. */
  lemma WinStep(h: History, members: set<NodeId>, id: NodeId, s: Server, q: set<NodeId>)
    requires HistInv(h, members) && ServerInv(h, members, id, s) && id in members
    requires s.rep.node.role == Candidate && s.tally.Some? && IsQuorum(members, q)
    requires forall x :: x in q ==>
      && Key(x, s.rep.node.currentTerm) in h.votes && h.votes[Key(x, s.rep.node.currentTerm)] == id
      && Justified(h, x, s.rep.node.currentTerm, h.ballots[Key(id, s.rep.node.currentTerm)], s.rep.node.currentTerm + 1)
    ensures var h' := Elect(h, s.rep.node.currentTerm, id, Full(h, s.rep.node), q);
      && s.rep.node.currentTerm !in h.elections
      && Extends(h, h')
      && HistInv(h', members)
      && ServerInv(h', members, id,
           s.(rep := s.rep.(node := BecomeLeader(Config(id, members - {id}), s.rep.node)), tally := None))
  {
    var n := s.rep.node;
    var t := n.currentTerm;
    var full := Full(h, n);
    SameWinner(h, members, id, t, q);
    WinHist(h, members, id, s, q);
    ElectDurable(h, Elect(h, t, id, full, q), id, full, n.snapshotIndex, s.rep.disk.hard, q);
    WinServer(h, Elect(h, t, id, full, q), members, id, s, q);
  }

  lemma WinHist(h: History, members: set<NodeId>, id: NodeId, s: Server, q: set<NodeId>)
    requires HistInv(h, members) && IsQuorum(members, q) && s.rep.node.currentTerm !in h.elections
    requires SnapshotInv(h, s)
    requires s.rep.disk.hard.currentTerm == s.rep.node.currentTerm
    requires LogInv(h, Full(h, s.rep.node), s.rep.node.snapshotIndex, s.rep.node.currentTerm)
    requires Covered(h, s.rep.node.commitIndex, s.rep.node.currentTerm)
    requires forall x :: x in q ==>
      && Key(x, s.rep.node.currentTerm) in h.votes && h.votes[Key(x, s.rep.node.currentTerm)] == id
      && Justified(h, x, s.rep.node.currentTerm, LastPosition(Full(h, s.rep.node)), s.rep.node.currentTerm + 1)
    requires 0 < s.rep.node.currentTerm
    ensures var h' := Elect(h, s.rep.node.currentTerm, id, Full(h, s.rep.node), q);
      && Extends(h, h') && HistInv(h', members) && s.rep.node.currentTerm !in h.decisions
      && forall i :: 0 <= i < |Full(h, s.rep.node)| ==> Full(h, s.rep.node)[i].term < s.rep.node.currentTerm
  {
    var n := s.rep.node;
    var t := n.currentTerm;
    var full := Full(h, n);
    ExtendsSelf(h);
    CoveredGrows(h, h, n.commitIndex, n.snapshotIndex, t, t);
    forall k | 0 <= k < |full| ensures Traced(h, full, 0, k) && full[k].term < t {
      WinnerTraced(h, members, full, n.snapshotIndex, t, q, k);
    }
    assert t in h.decisions ==> DecisionInv(h, members, t);
    ElectHist(h, members, id, full, t, q);
  }
}
