/** Steps of a leader: appending commands and advancing the commit index. */
module StepsCommit {
  import opened Types
  import opened NodeModel
  import opened Cluster
  import opened Invariants
  import opened Safety
  import opened Frames
  import opened StepsQuiet
  import opened StepsElection
  import opened StepsReplication

  /** The scan stops at the greatest committable index, or leaves the commit index alone. */
  lemma {:induction false} CommitTargetIsGreatest(cfg: Config, n: Node, from: nat)
    ensures var target := CommitTarget(cfg, n, from);
      && n.commitIndex <= target
      && (n.commitIndex < target ==> target <= from && Committable(cfg, n, target))
      && forall i :: target < i <= from ==> !Committable(cfg, n, i)
  {
    if n.commitIndex < from && !Committable(cfg, n, from) {
      CommitTargetIsGreatest(cfg, n, from - 1);
    }
  }

  lemma HoldersAreQuorum(members: set<NodeId>, id: NodeId, n: Node, index: nat)
    requires id in members && Committable(Config(id, members - {id}), n, index)
    ensures IsQuorum(members, Holders(Config(id, members - {id}), n, index) + {id})
  {
    var cfg := Config(id, members - {id});
    assert cfg.Members() == members;
    assert |Holders(cfg, n, index) + {id}| == |Holders(cfg, n, index)| + 1;
  }

  /** The members a leader counts for a committable index have acknowledged it. */
  lemma CommittableIsChosen(h: History, members: set<NodeId>, id: NodeId, n: Node, index: nat)
    requires LeaderInv(h, members, id, n) && n.role == Leader && id in members && n.snapshotIndex <= |h.committed|
    requires n.commitIndex < index && Committable(Config(id, members - {id}), n, index)
    ensures Chosen(h, members, n.currentTerm, index, Holders(Config(id, members - {id}), n, index) + {id})
  {
    HoldersAreQuorum(members, id, n, index);
    assert Full(h, n)[index - 1] == n.EntryAt(index);
    var t := n.currentTerm;
    assert h.logs[t][index - 1].term == t;
    forall x {:trigger AckedAt(h, x, t, index)} | x in Holders(Config(id, members - {id}), n, index) + {id}
      ensures AckedAt(h, x, t, index)
    {
      if x != id {
        assert MatchInv(h, x, n);
      }
    }
  }

  /** An entry just chosen and everything committed before lie on one log. */
  lemma ChosenAgrees(h: History, members: set<NodeId>, t: nat, i: nat, q: set<NodeId>)
    requires LogsInv(h) && ElectionsInv(h, members) && DecisionsInv(h, members)
    requires Chosen(h, members, t, i, q) && t in h.logs && i <= |h.logs[t]|
    ensures Agree(h.logs[t], h.committed, 0, Min(i, |h.committed|))
  {
    if h.committed != [] {
      var u :| u in h.decisions && h.decisions[u].index == |h.committed|;
      assert DecisionInv(h, members, u);
      if u <= t {
        assert Covered(h, |h.committed|, u);
        CommittedInLeader(h, members, |h.committed|, u, t);
      } else {
        LeaderCompleteness(h, members, t, i, q, u);
        assert LeaderLogInv(h, u);
      }
    }
  }

  lemma DecideExtends(h: History, members: set<NodeId>, t: nat, i: nat, q: set<NodeId>)
    requires t in h.logs && i <= |h.logs[t]| && Agree(h.logs[t], h.committed, 0, Min(i, |h.committed|))
    requires t in h.decisions ==> h.decisions[t].index <= i
    ensures Extends(h, Decide(h, t, i, q))
    ensures Agree(h.logs[t], Decide(h, t, i, q).committed, 0, i)
  {
    var h' := Decide(h, t, i, q);
    assert IsPrefix(h.committed, h'.committed);
  }

  lemma DecideDecisions(h: History, members: set<NodeId>, t: nat, i: nat, q: set<NodeId>)
    requires DecisionsInv(h, members) && Chosen(h, members, t, i, q) && t in h.logs && 0 < i <= |h.logs[t]|
    requires t in h.decisions ==> h.decisions[t].index <= i
    requires Extends(h, Decide(h, t, i, q)) && Agree(h.logs[t], Decide(h, t, i, q).committed, 0, i)
    ensures DecisionsInv(Decide(h, t, i, q), members)
  {
    var h' := Decide(h, t, i, q);
    forall u {:trigger DecisionInv(h', members, u)} | u in h'.decisions ensures DecisionInv(h', members, u) {
      if u == t {
        ChosenGrows(h, h', members, t, i, q);
      } else {
        assert DecisionInv(h, members, u);
        DecisionGrows(h, h', members, u);
      }
    }
    if h'.committed == h.committed && h.committed != [] {
      var u :| u in h.decisions && h.decisions[u].index == |h.committed|;
      assert u in h'.decisions && h'.decisions[u].index == |h'.committed|;
    } else if h'.committed != [] {
      assert t in h'.decisions && h'.decisions[t].index == |h'.committed|;
    }
  }

  /** Recording a commit keeps the history invariant: the committed log only grows. */
  lemma DecideHist(h: History, members: set<NodeId>, t: nat, i: nat, q: set<NodeId>)
    requires HistInv(h, members) && Chosen(h, members, t, i, q) && t in h.logs && 0 < i <= |h.logs[t]|
    requires t in h.decisions ==> h.decisions[t].index <= i
    ensures Extends(h, Decide(h, t, i, q)) && HistInv(Decide(h, t, i, q), members)
    ensures Agree(h.logs[t], Decide(h, t, i, q).committed, 0, i)
  {
    var h' := Decide(h, t, i, q);
    ChosenAgrees(h, members, t, i, q);
    DecideExtends(h, members, t, i, q);
    LogsSame(h, h');
    ElectionsSame(h, h', members);
    DecideDecisions(h, members, t, i, q);
  }

  /** The leader's own invariant after it raised its commit index. */
  lemma LeaderCommits(h: History, h': History, members: set<NodeId>, id: NodeId, n: Node, i: nat)
    requires LeaderInv(h, members, id, n) && n.role == Leader && Extends(h, h')
    requires n.snapshotIndex <= |h.committed| && n.commitIndex < i && n.currentTerm in h.logs
    requires n.currentTerm in h'.decisions && h'.decisions[n.currentTerm].index == i
    requires h'.logs == h.logs
    ensures LeaderInv(h', members, id, n.(commitIndex := i))
  {
    var n' := n.(commitIndex := i);
    var t := n.currentTerm;
    FullStable(h, h', n);
    assert Full(h', n') == Full(h', n);
    forall j | 1 <= j <= |h'.logs[t]| && h'.logs[t][j - 1].term == t ensures AckedAt(h', id, t, j) {
      AckedAtGrows(h, h', id, t, j);
    }
    forall p | p in members && p != id
      ensures MatchInv(h', p, n') && 1 <= Get(n'.nextIndex, p) <= n'.LastIndex() + 1
    {
      assert MatchInv(h, p, n);
      MatchInvGrows(h, h', p, n);
      assert MatchInv(h', p, n);
    }
  }

  /** The replica after a commit, with or without the hard-state write. */
  function Committed(r: Replica, i: nat, ok: bool): Replica {
    var n := r.node.(commitIndex := i);
    if ok then SaveHard(r.(node := n), true) else r.(node := n.(degraded := true))
  }

  lemma CommitServer(h: History, h': History, members: set<NodeId>, id: NodeId, s: Server, i: nat, ok: bool)
    requires AcksInv(h) && ServerInv(h, members, id, s) && s.rep.node.role == Leader && Extends(h, h')
    requires h' == h.(decisions := h'.decisions, committed := h'.committed)
    requires s.rep.node.commitIndex < i
    requires s.rep.node.currentTerm in h'.decisions && h'.decisions[s.rep.node.currentTerm].index == i
    requires Agree(h.logs[s.rep.node.currentTerm], h'.committed, 0, i)
    ensures ServerInv(h', members, id, s.(rep := Committed(s.rep, i, ok)))
  {
    var n := s.rep.node;
    var d := s.rep.disk.hard;
    var full := Full(h, n);
    var s' := s.(rep := Committed(s.rep, i, ok));
    var n' := s'.rep.node;
    FullStable(h, h', n);
    assert Full(h', n') == full;
    DurableGrows(h, h', id, full, n.snapshotIndex, d);
    assert KnownInv(h', full, i, d.currentTerm) by {
      assert Covered(h', i, n.currentTerm);
    }
    DurableNewCommit(h', id, full, n.snapshotIndex, d, i);
    LeaderCommits(h, h', members, id, n, i);
    LeaderSame(h', members, id, n.(commitIndex := i), n');
    CommitRest(h, h', s, i, ok);
  }

  lemma CommitRest(h: History, h': History, s: Server, i: nat, ok: bool)
    requires TermsInv(s) && SnapshotInv(h, s) && ApplyInv(h, s) && Saved(s.rep) && Extends(h, h')
    requires s.rep.node.role == Leader && s.rep.node.commitIndex < i
    ensures var s' := s.(rep := Committed(s.rep, i, ok));
      TermsInv(s') && SnapshotInv(h', s') && ApplyInv(h', s') && Saved(s'.rep)
  {
    SnapshotInvFrame(h, h', s);
    ApplyInvFrame(h, h', s);
  }

  /** A leader commits an index its rule allows. */
  lemma CommitStep(h: History, members: set<NodeId>, id: NodeId, s: Server, i: nat, q: set<NodeId>, ok: bool)
    requires HistInv(h, members) && ServerInv(h, members, id, s) && s.rep.node.role == Leader && id in members
    requires s.rep.node.commitIndex < i && Committable(Config(id, members - {id}), s.rep.node, i)
    requires q == Holders(Config(id, members - {id}), s.rep.node, i) + {id}
    ensures var h' := Decide(h, s.rep.node.currentTerm, i, q);
      Extends(h, h') && HistInv(h', members) && ServerInv(h', members, id, s.(rep := Committed(s.rep, i, ok)))
  {
    var n := s.rep.node;
    CommittableIsChosen(h, members, id, n, i);
    assert AckedAt(h, id, n.currentTerm, i);
    DecideHist(h, members, n.currentTerm, i, q);
    CommitServer(h, Decide(h, n.currentTerm, i, q), members, id, s, i, ok);
  }

  /** The leader's commit rule, and what is recorded of it. */
  lemma AdvanceCommitCases(h: History, cfg: Config, r: Replica, ok: bool)
    ensures var i := CommitTarget(cfg, r.node, r.node.LastIndex());
      var r' := AdvanceCommit(cfg, r, ok);
      var h' := RecordCommit(h, cfg, r.node, r'.node);
      if i == r.node.commitIndex then r' == r && h' == h
      else
        && r.node.commitIndex < i && Committable(cfg, r.node, i)
        && r' == Committed(r, i, ok)
        && h' == Decide(h, r.node.currentTerm, i, Holders(cfg, r.node, i) + {cfg.id})
  {
    var i := CommitTarget(cfg, r.node, r.node.LastIndex());
    CommitTargetIsGreatest(cfg, r.node, r.node.LastIndex());
    assert Holders(cfg, Committed(r, i, ok).node, i) == Holders(cfg, r.node, i);
  }

  /** Advancing the commit index by the leader's rule. */
  lemma AdvanceCommitStep(h: History, members: set<NodeId>, id: NodeId, s: Server, ok: bool)
    requires HistInv(h, members) && ServerInv(h, members, id, s) && s.rep.node.role == Leader && id in members
    ensures var cfg := Config(id, members - {id});
      var r := AdvanceCommit(cfg, s.rep, ok);
      var h' := RecordCommit(h, cfg, s.rep.node, r.node);
      Extends(h, h') && HistInv(h', members) && ServerInv(h', members, id, s.(rep := r))
  {
    hide HistInv;
    hide ServerInv;
    hide Extends;
    hide AdvanceCommit;
    hide RecordCommit;
    hide CommitTarget;
    hide Committable;
    var cfg := Config(id, members - {id});
    var n := s.rep.node;
    var i := CommitTarget(cfg, n, n.LastIndex());
    AdvanceCommitCases(h, cfg, s.rep, ok);
    if i == n.commitIndex {
      ExtendsSelf(h);
    } else {
      CommitStep(h, members, id, s, i, Holders(cfg, n, i) + {id}, ok);
    }
  }

  // ---------------------------------------------------------------- appending a command

  /** The history after the leader of term `t` appended an entry to its own log. */
  function AppendedHistory(h: History, id: NodeId, t: nat, entry: LogEntry): History {
    var h1 := h.(logs := h.logs[t := LogOf(h, t) + [entry]]);
    RecordAck(h1, id, t, |LogOf(h, t)| + 1)
  }

  lemma AppendExtends(h: History, id: NodeId, t: nat, entry: LogEntry)
    requires t in h.logs
    ensures Extends(h, AppendedHistory(h, id, t, entry))
  {
    assert IsPrefix(h.logs[t], h.logs[t] + [entry]);
  }

  lemma AppendLogs(h: History, id: NodeId, t: nat, entry: LogEntry)
    requires LogsInv(h) && t in h.logs && entry.term == t
    ensures LogsInv(AppendedHistory(h, id, t, entry))
  {
    var h' := AppendedHistory(h, id, t, entry);
    AppendExtends(h, id, t, entry);
    forall u {:trigger LeaderLogInv(h', u)} | u in h'.logs ensures LeaderLogInv(h', u) {
      assert LeaderLogInv(h, u);
      if u != t {
        LeaderLogGrows(h, h', u);
      } else {
        forall k {:trigger LeaderEntryInv(h', t, k)} | 0 <= k < |h'.logs[t]| ensures LeaderEntryInv(h', t, k) {
          if k < |h.logs[t]| {
            assert LeaderEntryInv(h, t, k);
            assert IsPrefix(h.logs[h.logs[t][k].term], h'.logs[h.logs[t][k].term]);
          }
        }
      }
    }
  }

  lemma AppendHist(h: History, members: set<NodeId>, id: NodeId, t: nat, entry: LogEntry)
    requires HistInv(h, members) && t in h.logs && entry.term == t && PastInv(h, id, t)
    ensures Extends(h, AppendedHistory(h, id, t, entry)) && HistInv(AppendedHistory(h, id, t, entry), members)
  {
    var h' := AppendedHistory(h, id, t, entry);
    AppendExtends(h, id, t, entry);
    AppendLogs(h, id, t, entry);
    ElectionsSame(h, h', members);
    DecisionsSame(h, h', members);
  }

  /** The leader's durable record after it appended an entry. */
  lemma AppendDurable(h: History, id: NodeId, full: seq<LogEntry>, from: nat, d: HardState, entry: LogEntry)
    requires LogsInv(h) && AcksInv(h) && DurableInv(h, id, full, from, d)
    requires d.currentTerm in h.logs && full == h.logs[d.currentTerm] && entry.term == d.currentTerm
    ensures DurableInv(AppendedHistory(h, id, d.currentTerm, entry), id, full + [entry], from, d)
  {
    var t := d.currentTerm;
    var h' := AppendedHistory(h, id, t, entry);
    var full' := full + [entry];
    AppendExtends(h, id, t, entry);
    AppendLogs(h, id, t, entry);
    assert full' == h'.logs[t][..|full'|];
    AdoptLogInv(h', full', from, t);
    KnownInvGrows(h, h', full, d.commitIndex, t, t);
    VoteInvGrows(h, h', id, d);
    AppendAckInv(h, id, full, t, entry);
  }

  lemma AppendAckInv(h: History, id: NodeId, full: seq<LogEntry>, t: nat, entry: LogEntry)
    requires AcksInv(h) && AckInv(h, id, full, t) && t in h.logs && full == h.logs[t] && entry.term == t
    ensures AckInv(AppendedHistory(h, id, t, entry), id, full + [entry], t)
  {
    var h' := AppendedHistory(h, id, t, entry);
    var full' := full + [entry];
    AppendExtends(h, id, t, entry);
    forall u: nat, i: nat {:trigger AckedAt(h', id, u, i)} | AckedAt(h', id, u, i)
      ensures Retained(h', full', u, i) || Lost(h', u, i, t + 1)
    {
      if u != t {
        AckedAtOld(h, h', id, u, i);
        if Retained(h, full, u, i) {
          RetainedGrows(h, h', full, u, i);
        } else {
          LostGrows(h, h', u, i, t + 1, t + 1);
        }
      }
    }
  }

  /** The replica after the append itself. */
  function Appended(cfg: Config, r: Replica, entry: LogEntry): Replica {
    var n := r.node;
    var index := n.LastIndex() + 1;
    Replica(
      n.(log := n.log + [entry],
         matchIndex := n.matchIndex[cfg.id := index],
         nextIndex := n.nextIndex[cfg.id := index + 1]),
      AppendLog(r.disk, [entry]))
  }

  lemma AppendLeader(h: History, members: set<NodeId>, id: NodeId, r: Replica, entry: LogEntry)
    requires LeaderInv(h, members, id, r.node) && r.node.role == Leader && r.node.snapshotIndex <= |h.committed|
    requires LogsInv(h) && r.node.currentTerm in h.logs && entry.term == r.node.currentTerm
    ensures var h' := AppendedHistory(h, id, r.node.currentTerm, entry);
      LeaderInv(h', members, id, Appended(Config(id, members - {id}), r, entry).node)
  {
    var n := r.node;
    var t := n.currentTerm;
    var h' := AppendedHistory(h, id, t, entry);
    var n' := Appended(Config(id, members - {id}), r, entry).node;
    AppendExtends(h, id, t, entry);
    assert |Full(h, n)| == n.LastIndex();
    assert Full(h', n') == Full(h, n) + [entry];
    forall i | 1 <= i <= |h'.logs[t]| && h'.logs[t][i - 1].term == t ensures AckedAt(h', id, t, i) {
    }
    forall p | p in members && p != id
      ensures MatchInv(h', p, n') && 1 <= Get(n'.nextIndex, p) <= n'.LastIndex() + 1
    {
      assert MatchInv(h, p, n);
      forall i | n'.commitIndex < i <= Get(n'.matchIndex, p) && i <= |LogOf(h', t)| && LogOf(h', t)[i - 1].term == t
        ensures AckedAt(h', p, t, i)
      {
        assert LogOf(h, t)[i - 1] == LogOf(h', t)[i - 1];
        AckedAtGrows(h, h', p, t, i);
      }
    }
  }

  lemma AppendCommandStep(h: History, members: set<NodeId>, id: NodeId, s: Server, entry: LogEntry)
    requires HistInv(h, members) && ServerInv(h, members, id, s) && s.rep.node.role == Leader
    requires entry.term == s.rep.node.currentTerm
    ensures var h' := AppendedHistory(h, id, s.rep.node.currentTerm, entry);
      && Extends(h, h') && HistInv(h', members)
      && ServerInv(h', members, id, s.(rep := Appended(Config(id, members - {id}), s.rep, entry)))
  {
    var n := s.rep.node;
    var h' := AppendedHistory(h, id, n.currentTerm, entry);
    var r := Appended(Config(id, members - {id}), s.rep, entry);
    var s' := s.(rep := r);
    AppendHist(h, members, id, n.currentTerm, entry);
    AppendDurable(h, id, Full(h, n), n.snapshotIndex, s.rep.disk.hard, entry);
    AppendLeader(h, members, id, s.rep, entry);
    AppendRest(h, h', members, id, s, entry);
    assert Full(h', r.node) == Full(h, n) + [entry];
    KnownInvGrows(h, h', Full(h, n), n.commitIndex, n.currentTerm, n.currentTerm);
  }

  lemma AppendRest(h: History, h': History, members: set<NodeId>, id: NodeId, s: Server, entry: LogEntry)
    requires TermsInv(s) && SnapshotInv(h, s) && ApplyInv(h, s) && Saved(s.rep) && Extends(h, h')
    requires s.rep.node.role == Leader
    ensures var s' := s.(rep := Appended(Config(id, members - {id}), s.rep, entry));
      && TermsInv(s') && SnapshotInv(h', s') && ApplyInv(h', s') && Saved(s'.rep) && CandidateInv(h', members, id, s')
  {
    SnapshotInvFrame(h, h', s);
    ApplyInvFrame(h, h', s);
  }

  /** What a command does to the acting server and to the history. */
  lemma StartCommandCases(h: History, s: Server, cfg: Config, command: Command, appendOk: bool, commitOk: bool)
    requires s.rep.node.LastIndex() == |LogOf(h, s.rep.node.currentTerm)|
    ensures var e := StartCommandEffect(h, s, cfg, command, appendOk, commitOk);
      var n := s.rep.node;
      if n.degraded || n.role != Leader || !appendOk then e == Effect(s, h, {})
      else
        var entry := LogEntry(n.currentTerm, command);
        var r1 := Appended(cfg, s.rep, entry);
        var h1 := AppendedHistory(h, cfg.id, n.currentTerm, entry);
        var r := AdvanceCommit(cfg, r1, commitOk);
        e == Effect(s.(rep := r), RecordCommit(h1, cfg, r1.node, r.node), {})
  {
  }

  lemma LeaderLogLength(h: History, members: set<NodeId>, id: NodeId, s: Server)
    requires ServerInv(h, members, id, s) && s.rep.node.role == Leader
    ensures s.rep.node.LastIndex() == |LogOf(h, s.rep.node.currentTerm)|
  {
    assert |Full(h, s.rep.node)| == s.rep.node.LastIndex();
  }

  lemma StartCommandStep(
    h: History, members: set<NodeId>, id: NodeId, s: Server, command: Command, appendOk: bool, commitOk: bool)
    requires HistInv(h, members) && ServerInv(h, members, id, s) && id in members
    ensures var e := StartCommandEffect(h, s, Config(id, members - {id}), command, appendOk, commitOk);
      Extends(h, e.history) && HistInv(e.history, members) && ServerInv(e.history, members, id, e.server)
  {
    hide HistInv;
    hide ServerInv;
    hide Extends;
    hide AdvanceCommit;
    hide RecordCommit;
    hide AppendedHistory;
    var cfg := Config(id, members - {id});
    var n := s.rep.node;
    if n.degraded || n.role != Leader || !appendOk {
      ExtendsSelf(h);
    } else {
      LeaderLogLength(h, members, id, s);
      StartCommandCases(h, s, cfg, command, appendOk, commitOk);
      var entry := LogEntry(n.currentTerm, command);
      var s1 := s.(rep := Appended(cfg, s.rep, entry));
      var h1 := AppendedHistory(h, id, n.currentTerm, entry);
      AppendCommandStep(h, members, id, s, entry);
      AdvanceCommitStep(h1, members, id, s1, commitOk);
      ExtendsTransitive(h, h1, StartCommandEffect(h, s, cfg, command, appendOk, commitOk).history);
    }
  }

  // ---------------------------------------------------------------- replies

  lemma AppendReplyCases(
    h: History, s: Server, cfg: Config, peer: NodeId, req: AppendRequest, resp: AppendResponse, ok: bool)
    ensures var e := AppendReplyEffect(h, s, cfg, peer, req, resp, ok);
      var n := s.rep.node;
      if resp.term > n.currentTerm then e == Effect(s.(rep := StepDown(s.rep, resp.term, ok)), h, {})
      else if n.role != Leader || req.term != n.currentTerm then e == Effect(s, h, {})
      else if !resp.success then
        var nx := n.nextIndex[peer := BackOff(n, Get(n.nextIndex, peer), resp)];
        e == Effect(s.(rep := s.rep.(node := n.(nextIndex := nx, matchIndex := n.matchIndex))), h, {})
      else
        var last := req.prevLogIndex + |req.entries|;
        var n1 := n.(nextIndex := n.nextIndex[peer := Max(Get(n.nextIndex, peer), last + 1)],
                     matchIndex := n.matchIndex[peer := Max(Get(n.matchIndex, peer), last)]);
        var r1 := s.rep.(node := n1);
        var r := AdvanceCommit(cfg, r1, ok);
        e == Effect(s.(rep := r), RecordCommit(h, cfg, n1, r.node), {})
  {
  }

  lemma RefusedStep(
    h: History, members: set<NodeId>, id: NodeId, s: Server, peer: NodeId, req: AppendRequest, resp: AppendResponse)
    requires ServerInv(h, members, id, s) && s.rep.node.role == Leader
    requires MessageInv(h, members, AppendResp(peer, req, resp)) && req.term == s.rep.node.currentTerm
    ensures var n := s.rep.node;
      var nx := n.nextIndex[peer := BackOff(n, Get(n.nextIndex, peer), resp)];
      ServerInv(h, members, id, s.(rep := s.rep.(node := n.(nextIndex := nx, matchIndex := n.matchIndex))))
  {
    var n := s.rep.node;
    var nx := n.nextIndex[peer := BackOff(n, Get(n.nextIndex, peer), resp)];
    LeaderLogLength(h, members, id, s);
    if peer != id {
      assert MatchInv(h, peer, n);
      BackOffBound(n, Get(n.nextIndex, peer), resp, n.LastIndex());
      assert n.(matchIndex := n.matchIndex) == n;
    }
    ProgressStep(h, members, id, s, peer, nx, n.matchIndex);
  }

  /** Progress recorded for a peer that may be counted up to `last`. */
  lemma CountedStep(h: History, members: set<NodeId>, id: NodeId, s: Server, peer: NodeId, last: nat)
    requires ServerInv(h, members, id, s) && s.rep.node.role == Leader && peer in members
    requires last <= |LogOf(h, s.rep.node.currentTerm)| && Acknowledged(h, peer, s.rep.node.currentTerm, last)
    ensures ServerInv(h, members, id, s.(rep := s.rep.(node := RecordMatch(s.rep.node, peer, last))))
  {
    var n := s.rep.node;
    LeaderLogLength(h, members, id, s);
    var nx := n.nextIndex[peer := Max(Get(n.nextIndex, peer), last + 1)];
    var mx := n.matchIndex[peer := Max(Get(n.matchIndex, peer), last)];
    assert |Full(h, n)| == n.LastIndex();
    if peer != id {
      assert MatchInv(h, peer, n);
      MatchJustified(h, n, peer, last);
    }
    ProgressStep(h, members, id, s, peer, nx, mx);
  }

  lemma AppendReplyStep(
    h: History, members: set<NodeId>, id: NodeId, s: Server, peer: NodeId, req: AppendRequest, resp: AppendResponse,
    ok: bool)
    requires HistInv(h, members) && ServerInv(h, members, id, s) && id in members
    requires MessageInv(h, members, AppendResp(peer, req, resp))
    ensures var e := AppendReplyEffect(h, s, Config(id, members - {id}), peer, req, resp, ok);
      Extends(h, e.history) && HistInv(e.history, members) && ServerInv(e.history, members, id, e.server)
  {
    hide HistInv;
    hide ServerInv;
    hide Extends;
    hide Acknowledged;
    hide AdvanceCommit;
    hide RecordCommit;
    hide BackOff;
    var cfg := Config(id, members - {id});
    var n := s.rep.node;
    ExtendsSelf(h);
    AppendReplyCases(h, s, cfg, peer, req, resp, ok);
    if resp.term > n.currentTerm {
      StepDownStep(h, members, id, s, resp.term, ok);
    } else if n.role == Leader && req.term == n.currentTerm {
      if !resp.success {
        RefusedStep(h, members, id, s, peer, req, resp);
      } else {
        var last := req.prevLogIndex + |req.entries|;
        CountedStep(h, members, id, s, peer, last);
        AdvanceCommitStep(h, members, id, s.(rep := s.rep.(node := RecordMatch(n, peer, last))), ok);
      }
    }
  }

  lemma InstallReplyStep(
    h: History, members: set<NodeId>, id: NodeId, s: Server, peer: NodeId, req: SnapshotRequest, resp: SnapshotResponse,
    ok: bool)
    requires HistInv(h, members) && ServerInv(h, members, id, s)
    requires peer in members && SnapReqInv(h, req)
    ensures ServerInv(h, members, id, s.(rep := OnSnapshotReply(s.rep, peer, req, resp, ok)))
  {
    hide HistInv;
    hide ServerInv;
    hide Acknowledged;
    var n := s.rep.node;
    if resp.term > n.currentTerm {
      StepDownStep(h, members, id, s, resp.term, ok);
    } else if n.role == Leader && req.term == n.currentTerm {
      SnapshotAcknowledged(h, members, peer, req);
      CountedStep(h, members, id, s, peer, req.snapshot.lastIncludedIndex);
    }
  }
}
