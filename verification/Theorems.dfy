/** What holds in every run of the cluster, with crashes, restarts, lost and repeated messages, leader
    changes, compaction, installed snapshots and failing storage calls. */
module Theorems {
  import opened Types
  import opened NodeModel
  import opened StateMachine
  import opened Cluster
  import opened Invariants
  import opened Safety
  import opened Frames
  import opened StepsCommit
  import opened StepsSnapshot
  import opened Preservation
  import opened LogChanges
  import opened LogMatching
  import opened Agreement
  import opened Backoff
  import opened Durability
  import Elections

  // ---------------------------------------------------------------- runs

  lemma StepContinues(c: Cluster, c': Cluster)
    requires Inv(c) && Next(c, c')
    ensures Inv(c') && Continues(c, c')
  {
    hide Inv;
    hide Continues;
    hide Enabled;
    hide Recovers;
    hide Apply;
    var a :| Enabled(c, a) && Recovers(c, a) && c' == Apply(c, a);
    StepPreservesInv(c, a);
  }

  /** Every state of every run satisfies the invariant. */
  lemma {:induction false} RunInv(run: seq<Cluster>, i: nat)
    requires IsRun(run) && i < |run|
    ensures Inv(run[i])
  {
    hide Inv;
    hide Next;
    hide Init;
    if i == 0 {
      InitInv(run[0]);
    } else {
      RunInv(run, i - 1);
      assert NextAt(run, i - 1);
      StepContinues(run[i - 1], run[i]);
    }
  }

  lemma ContinuesSelf(c: Cluster)
    ensures Continues(c, c)
  {
    ExtendsSelf(c.history);
  }

  lemma ContinuesTransitive(c: Cluster, c1: Cluster, c2: Cluster)
    requires Continues(c, c1) && Continues(c1, c2)
    ensures Continues(c, c2)
  {
    ExtendsTransitive(c.history, c1.history, c2.history);
  }

  /** History is never rewritten along a run: what was committed stays committed. */
  lemma {:induction false} RunContinues(run: seq<Cluster>, i: nat, j: nat)
    requires IsRun(run) && i <= j < |run|
    ensures Continues(run[i], run[j])
  {
    hide Inv;
    hide Init;
    hide Next;
    hide Continues;
    if i == j {
      ContinuesSelf(run[i]);
    } else {
      RunContinues(run, i, j - 1);
      RunInv(run, j - 1);
      assert NextAt(run, j - 1);
      StepContinues(run[j - 1], run[j]);
      ContinuesTransitive(run[i], run[j - 1], run[j]);
    }
  }

  /** Every step of a run is an action between two states of the invariant. */
  lemma RunStep(run: seq<Cluster>, i: nat) returns (a: Action)
    requires IsRun(run) && i + 1 < |run|
    ensures Enabled(run[i], a) && Recovers(run[i], a) && run[i + 1] == Apply(run[i], a)
    ensures Inv(run[i]) && Inv(run[i + 1]) && Continues(run[i], run[i + 1])
  {
    RunInv(run, i);
    hide Inv;
    hide Init;
    hide Continues;
    hide Enabled;
    hide Recovers;
    hide Apply;
    assert NextAt(run, i);
    StepContinues(run[i], run[i + 1]);
    a :| Enabled(run[i], a) && Recovers(run[i], a) && run[i + 1] == Apply(run[i], a);
  }

  /** Runs are executions, so what holds of every execution holds of them. */
  lemma RunsAreExecutions(run: seq<Cluster>)
    requires IsRun(run)
    ensures IsExecution(run)
  {
    hide Init;
    hide Enabled;
    hide Recovers;
    hide Apply;
    forall i {:trigger StepAt(run, i)} | 0 <= i < |run| - 1 ensures StepAt(run, i) {
      assert NextAt(run, i);
    }
  }

  // ---------------------------------------------------------------- leaders

  lemma LeaderOnRecord(run: seq<Cluster>, i: nat, a: NodeId)
    requires IsRun(run) && i < |run| && a in run[i].servers && run[i].servers[a].rep.node.role == Leader
    ensures var c, n := run[i], run[i].servers[a].rep.node;
      && n.currentTerm in c.history.elections && c.history.elections[n.currentTerm].leader == a
      && n.currentTerm in c.history.logs && Full(c.history, n) == c.history.logs[n.currentTerm]
  {
    RunInv(run, i);
    hide HistInv;
    hide ServerInv;
    Unpack(run[i], a);
    LeaderFacts(run[i].history, run[i].servers.Keys, a, run[i].servers[a]);
  }

  // ---------------------------------------------------------------- commits

  /** Leader Completeness: a leader of term `u` has, in its log or under its snapshot, every entry that a
      leader of term `u` or earlier committed at any time of the run. */
  lemma LeaderHasCommitted(run: seq<Cluster>, i: nat, a: NodeId, t: nat)
    requires IsRun(run) && i < |run| && a in run[i].servers && run[i].servers[a].rep.node.role == Leader
    requires t in run[i].history.decisions && t <= run[i].servers[a].rep.node.currentTerm
    ensures Agree(FullOf(run[i], a), run[i].history.committed, 0, run[i].history.decisions[t].index)
  {
    var c := run[i];
    LeaderOnRecord(run, i, a);
    RunInv(run, i);
    assert Covered(c.history, c.history.decisions[t].index, t);
    CommittedInLeader(
      c.history, c.servers.Keys, c.history.decisions[t].index, t, c.servers[a].rep.node.currentTerm);
  }

  /** Leader Completeness for logs at election time: nothing committed before is missing from a new leader. */
  lemma ElectedWithCommitted(run: seq<Cluster>, i: nat, t: nat, u: nat)
    requires IsRun(run) && i < |run| && t in run[i].history.decisions && u in run[i].history.elections && t < u
    ensures Agree(run[i].history.elections[u].log, run[i].history.committed, 0, run[i].history.decisions[t].index)
  {
    var c := run[i];
    RunInv(run, i);
    assert DecisionInv(c.history, c.servers.Keys, t);
    var d := c.history.decisions[t];
    LeaderCompleteness(c.history, c.servers.Keys, t, d.index, d.quorum, u);
  }

  /** Whatever a server believes committed, is: its log up to its commit index is part of the one committed
      log, which only grows. */
  lemma CommitIsCommitted(run: seq<Cluster>, i: nat, j: nat, a: NodeId)
    requires IsRun(run) && i <= j < |run| && a in run[i].servers
    ensures var n := run[i].servers[a].rep.node;
      && IsPrefix(run[i].history.committed, run[j].history.committed)
      && Agree(Full(run[i].history, n), run[j].history.committed, 0, n.commitIndex)
  {
    RunInv(run, i);
    RunContinues(run, i, j);
    assert ServerInv(run[i].history, run[i].servers.Keys, a, run[i].servers[a]);
  }

  // ---------------------------------------------------------------- the state machines

  /** State Machine Safety: no two deliveries, on any nodes, at any times, in any incarnations, differ in the
      command they deliver for the same index. */
  lemma StateMachineSafety(run: seq<Cluster>, i: nat, j: nat, x: Delivery, y: Delivery)
    requires IsRun(run) && i < |run| && j < |run|
    requires x in run[i].history.delivered && y in run[j].history.delivered && x.index == y.index
    ensures x.command == y.command
  {
    RunInv(run, i);
    RunInv(run, j);
    if i <= j {
      RunContinues(run, i, j);
    } else {
      RunContinues(run, j, i);
    }
  }

  /** Every command message a state machine receives is on the record of deliveries. */
  lemma DeliveriesRecorded(c: Cluster, a: Action)
    requires Enabled(c, a) && a.DoDeliverEntry?
    ensures var msg := DeliverEntry(c.servers[a.id].rep.node).1;
      && Delivery(a.id, msg.index, msg.command) in Apply(c, a).history.delivered
      && Apply(c, a).servers[a.id].stream == c.servers[a.id].stream + [msg]
  {
  }

  /** Two replicas that have applied the same number of commands hold the same store, whatever mix of
      snapshots and commands brought them there; and that store is the replay of the committed log. */
  lemma ReplicasAgree(run: seq<Cluster>, i: nat, j: nat, a: NodeId, b: NodeId)
    requires IsRun(run) && i <= j < |run| && a in run[i].servers && b in run[j].servers
    requires run[i].servers[a].service.lastAppliedIndex == run[j].servers[b].service.lastAppliedIndex
    ensures run[i].servers[a].service.store == run[j].servers[b].service.store
    ensures var k := run[i].servers[a].service.lastAppliedIndex;
      k <= |run[j].history.committed| && run[i].servers[a].service.store == Replay(run[j].history.committed[..k])
  {
    RunInv(run, i);
    RunInv(run, j);
    RunContinues(run, i, j);
    ServiceReplays(run[i], a);
    ServiceReplays(run[j], b);
    var k := run[i].servers[a].service.lastAppliedIndex;
    assert run[j].history.committed[..k] == run[i].history.committed[..k];
  }

  /** What a service would hand over as a snapshot at its applied index is the replay of the committed log up
      to that index, which is within the commit index of its node. */
  lemma ServiceReplays(c: Cluster, a: NodeId)
    requires Inv(c) && a in c.servers
    ensures var s := c.servers[a];
      && s.service.lastAppliedIndex <= s.rep.node.lastApplied <= s.rep.node.commitIndex
      && s.service.lastAppliedIndex <= |c.history.committed|
      && s.service.store == Replay(c.history.committed[..s.service.lastAppliedIndex])
  {
    var s := c.servers[a];
    assert ServerInv(c.history, c.servers.Keys, a, s);
    assert ApplyInv(c.history, s);
    hide Inv;
    hide ServerInv;
    ReachedGrows(c.history.committed, s.stream, s.handled, |s.stream|);
  }

  /** Every snapshot a server holds, in memory, on disk or pending, is the replay of the committed log up to
      its index, and that index is within the server's commit index. */
  lemma SnapshotsReplay(run: seq<Cluster>, i: nat, a: NodeId)
    requires IsRun(run) && i < |run| && a in run[i].servers && run[i].servers[a].rep.node.snapshot.Some?
    ensures var r := run[i].servers[a].rep;
      var snap := r.node.snapshot.value;
      && snap.lastIncludedIndex == r.node.snapshotIndex <= r.node.commitIndex
      && r.node.snapshotIndex <= |run[i].history.committed|
      && snap.data == Encoded(Replay(run[i].history.committed[..r.node.snapshotIndex]))
      && r.disk.snap == Some(snap)
      && (r.node.pendingSnapshot.Some? ==> r.node.pendingSnapshot == Some(snap))
  {
    RunInv(run, i);
    assert ServerInv(run[i].history, run[i].servers.Keys, a, run[i].servers[a]);
  }

  /** Within one incarnation commands come at consecutive indices, snapshots after the first message only
      jump forward, and nothing above the commit index is delivered. */
  lemma StreamOrder(run: seq<Cluster>, i: nat, a: NodeId, k: nat)
    requires IsRun(run) && i < |run| && a in run[i].servers && k < |run[i].servers[a].stream|
    ensures var s := run[i].servers[a];
      && s.stream[k].index <= s.rep.node.lastApplied <= s.rep.node.commitIndex
      && (s.stream[k].ApplyCommand? ==> s.stream[k].index == Reached(s.stream, k) + 1)
      && (s.stream[k].ApplySnapshot? && k > 0 ==> Reached(s.stream, k) < s.stream[k].index)
  {
    RunInv(run, i);
    var c, s := run[i], run[i].servers[a];
    assert ServerInv(c.history, c.servers.Keys, a, s);
    assert InOrder(c.history.committed, s.stream, k);
    ReachedGrows(c.history.committed, s.stream, k + 1, |s.stream|);
  }

  /** The step from state i of a run to the next is the action `a`. */
  predicate StepIs(run: seq<Cluster>, i: nat, a: Action) {
    i + 1 < |run| && Enabled(run[i], a) && run[i + 1] == Apply(run[i], a)
  }

  // ---------------------------------------------------------------- log matching

  /** In every run, entries of the same index and term are the same entry, on any servers at any times. */
  lemma SameTermSameEntry(run: seq<Cluster>, i: nat, j: nat, a: NodeId, b: NodeId, k: nat)
    requires IsRun(run) && i < |run| && j < |run| && a in run[i].servers && b in run[j].servers
    requires k < |FullOf(run[i], a)| && k < |FullOf(run[j], b)|
    requires FullOf(run[i], a)[k].term == FullOf(run[j], b)[k].term
    ensures FullOf(run[i], a)[k] == FullOf(run[j], b)[k]
  {
    RunInv(run, i);
    RunInv(run, j);
    EntryOfLeader(run[i], a, k);
    EntryOfLeader(run[j], b, k);
    hide Inv;
    hide IsRun;
    if i <= j {
      RunContinues(run, i, j);
    } else {
      RunContinues(run, j, i);
    }
  }

  ghost predicate CarefulStep(c: Cluster, c': Cluster) {
    exists a :: Enabled(c, a) && Recovers(c, a) && c' == Apply(c, a) && !ForeignInstall(c, a)
  }

  ghost predicate CarefulAt(run: seq<Cluster>, i: nat)
    requires i + 1 < |run|
  {
    CarefulStep(run[i], run[i + 1])
  }

  /** A run in which no InstallSnapshot kept entries over a boundary entry of another term. */
  ghost predicate CarefulRun(run: seq<Cluster>) {
    IsRun(run) && forall i {:trigger CarefulAt(run, i)} :: 0 <= i < |run| - 1 ==> CarefulAt(run, i)
  }

  lemma InitMatched(c: Cluster)
    requires Init(c)
    ensures AllMatched(c)
  {
  }

  lemma {:induction false} CarefulRunMatched(run: seq<Cluster>, i: nat)
    requires CarefulRun(run) && i < |run|
    ensures AllMatched(run[i])
  {
    hide Init;
    hide Inv;
    hide Enabled;
    hide Recovers;
    hide Apply;
    hide AllMatched;
    hide ForeignInstall;
    if i == 0 {
      InitMatched(run[0]);
    } else {
      RunInv(run, i - 1);
      CarefulRunMatched(run, i - 1);
      assert CarefulAt(run, i - 1);
      var a :| Enabled(run[i - 1], a) && Recovers(run[i - 1], a) && run[i] == Apply(run[i - 1], a)
               && !ForeignInstall(run[i - 1], a);
      MatchedStep(run[i - 1], a);
    }
  }

  /** Log Matching: in a careful run, two uncompacted logs with the same term at an index, at any two moments, are
      equal up to and including that index, and terms never decrease along a log. */
  lemma LogMatchingTheorem(run: seq<Cluster>, i: nat, j: nat, a: NodeId, b: NodeId, k: nat)
    requires CarefulRun(run) && i <= j < |run| && a in run[i].servers && b in run[j].servers
    requires k < |FullOf(run[i], a)| && k < |FullOf(run[j], b)|
    requires FullOf(run[i], a)[k].term == FullOf(run[j], b)[k].term
    ensures var x, y := FullOf(run[i], a), FullOf(run[j], b);
      Agree(x, y, 0, k + 1) && forall m :: 0 <= m <= k ==> x[m].term <= x[k].term
  {
    hide IsRun;
    hide Inv;
    var h, x := run[j].history, FullOf(run[i], a);
    CarefulRunMatched(run, i);
    CarefulRunMatched(run, j);
    assert MatchedAt(run[i], a) && MatchedAt(run[j], b);
    RunContinues(run, i, j);
    RunInv(run, j);
    LogsOnRecord(run[j]);
    MatchedGrows(run[i].history, h, x);
    MatchedLogsAgree(h, x, FullOf(run[j], b), k);
    hide Matched;
    forall m | 0 <= m <= k ensures x[m].term <= x[k].term {
      MatchedTermsOrdered(h, x, m, k);
    }
  }

  lemma LogsOnRecord(c: Cluster)
    requires Inv(c)
    ensures LogsInv(c.history)
  {
  }

  /** A leader's uncompacted log is matched in every run, careful or not. */
  lemma LeaderMatched(run: seq<Cluster>, i: nat, a: NodeId)
    requires IsRun(run) && i < |run| && a in run[i].servers && run[i].servers[a].rep.node.role == Leader
    ensures MatchedAt(run[i], a)
  {
    hide IsRun;
    hide Inv;
    LeaderOnRecord(run, i, a);
    RunInv(run, i);
    LogsOnRecord(run[i]);
    var h, full := run[i].history, FullOf(run[i], a);
    assert full == full[..|full|];
    LeaderPrefixMatched(h, full, run[i].servers[a].rep.node.currentTerm);
  }

  /** A kept foreign suffix is never electable: in every run, a server that becomes leader in a step had a matched
      log before it. */
  lemma UnmatchedNeverElected(run: seq<Cluster>, i: nat, a: NodeId)
    requires IsRun(run) && i + 1 < |run| && a in run[i].servers && a in run[i + 1].servers
    requires run[i].servers[a].rep.node.role != Leader && run[i + 1].servers[a].rep.node.role == Leader
    ensures MatchedAt(run[i], a)
  {
    hide IsRun;
    hide Inv;
    hide Enabled;
    hide EffectOf;
    hide Continues;
    var act := RunStep(run, i);
    LeaderMatched(run, i + 1, a);
    LeaderOnRecord(run, i + 1, a);
    LogsOnRecord(run[i + 1]);
    if !act.DoCountVote? {
      Elections.RoleStep(run[i], act);
    }
    WonWith(run[i], act);
    MatchedBefore(run[i].history, run[i + 1].history, FullOf(run[i], a), run[i + 1].servers[a].rep.node.currentTerm);
  }

  /** Winning changes no log, and the record only by the log of the new term. */
  lemma WonWith(c: Cluster, a: Action)
    requires Enabled(c, a) && a.DoCountVote? && c.servers[a.id].rep.node.role != Leader
    requires EffectOf(c, a).server.rep.node.role == Leader
    ensures var n, n', h, h' := c.servers[a.id].rep.node, EffectOf(c, a).server.rep.node, c.history, EffectOf(c, a).history;
      && Full(h', n') == Full(h, n) && n'.currentTerm == n.currentTerm
      && h'.logs == h.logs[n.currentTerm := Full(h, n)]
      && n.currentTerm in h'.elections && h'.elections[n.currentTerm].log == Full(h, n)
  {
  }

  /** The log a leader was elected with holds older terms only, so it matches without the new term's log. */
  lemma MatchedBefore(h: History, h': History, full: seq<LogEntry>, t: nat)
    requires LogsInv(h') && Matched(h', full) && h'.logs == h.logs[t := full]
    requires t in h'.elections && h'.elections[t].log == full
    ensures Matched(h, full)
  {
    forall k {:trigger Traced(h, full, 0, k)} | 0 <= k < |full| ensures Traced(h, full, 0, k) {
      assert Traced(h', full, 0, k);
      assert LeaderLogInv(h', t) && LeaderEntryInv(h', t, k);
    }
  }

  // ---------------------------------------------------------------- replication

  /** While a follower stays in term `t`, the prefix it shares with that term's leader never shrinks, whatever
      requests arrive, in whatever order and however often. */
  lemma {:induction false} AgreementNeverShrinks(run: seq<Cluster>, i: nat, j: nat, p: NodeId, t: nat, m: nat)
    requires IsRun(run) && i <= j < |run| && Holds(run[i], p, t, m)
    ensures Holds(run[j], p, t, m)
  {
    hide IsRun;
    hide Inv;
    hide Continues;
    hide Enabled;
    hide Recovers;
    hide Apply;
    hide Holds;
    if i < j {
      AgreementNeverShrinks(run, i, j - 1, p, t, m);
      var a := RunStep(run, j - 1);
      HoldsStep(run[j - 1], a, p, t, m);
    }
  }

  /** A server never drops an entry it once knew to be committed, not even across restarts that lower its
      commit index. */
  lemma CommittedNeverDropped(run: seq<Cluster>, i: nat, j: nat, a: NodeId)
    requires IsRun(run) && i <= j < |run| && a in run[i].servers
    ensures a in run[j].servers
      && Agree(FullOf(run[j], a), run[j].history.committed, 0, run[i].servers[a].rep.node.commitIndex)
  {
    RunInv(run, i);
    assert ServerInv(run[i].history, run[i].servers.Keys, a, run[i].servers[a]);
    assert HasCommitted(run[i], a, run[i].servers[a].rep.node.commitIndex);
    CommittedAlong(run, i, j, a, run[i].servers[a].rep.node.commitIndex);
  }

  lemma {:induction false} CommittedAlong(run: seq<Cluster>, i: nat, j: nat, a: NodeId, m: nat)
    requires IsRun(run) && i <= j < |run| && HasCommitted(run[i], a, m)
    ensures HasCommitted(run[j], a, m)
  {
    hide IsRun;
    hide Inv;
    hide Continues;
    hide Enabled;
    hide Recovers;
    hide Apply;
    hide HasCommitted;
    if i < j {
      CommittedAlong(run, i, j - 1, a, m);
      var act := RunStep(run, j - 1);
      CommittedStep(run[j - 1], act, a, m);
    }
  }

  lemma {:induction false} RunTruthful(run: seq<Cluster>, i: nat)
    requires IsRun(run) && i < |run|
    ensures Truthful(run[i])
  {
    hide Init;
    hide NextAt;
    hide Inv;
    hide Continues;
    hide Enabled;
    hide Recovers;
    hide Apply;
    hide Truthful;
    if 0 < i {
      RunTruthful(run, i - 1);
      var a := RunStep(run, i - 1);
      TruthfulStep(run[i - 1], a);
    } else {
      InitTruthful(run[0]);
    }
  }

  lemma InitTruthful(c: Cluster)
    requires Init(c)
    ensures Truthful(c)
  {
  }

  /** A leader's match index for a peer is truthful: unless the peer has moved on to a later term, its log
      equals the leader's up to that index. */
  lemma MatchIndexTruthful(run: seq<Cluster>, i: nat, a: NodeId, p: NodeId)
    requires IsRun(run) && i < |run| && a in run[i].servers && p in run[i].servers && p != a
    requires run[i].servers[a].rep.node.role == Leader
    ensures var h, n, q := run[i].history, run[i].servers[a].rep.node, run[i].servers[p].rep;
      Get(n.matchIndex, p) == 0 || n.currentTerm < q.disk.hard.currentTerm
      || Agree(Full(h, q.node), Full(h, n), 0, Get(n.matchIndex, p))
  {
    RunTruthful(run, i);
    LeaderOnRecord(run, i, a);
    assert MatchTruthful(run[i], a, p);
  }

  /** An accepted AppendEntries request leaves the follower's log equal to the leader's up to the last entry of
      the request and up to the follower's new commit index. The bound by the follower's own last index never
      takes effect: the leader's commit index is within the entries it sends. */
  lemma FollowerCommitIsSound(run: seq<Cluster>, i: nat, a: Action)
    requires IsRun(run) && StepIs(run, i, a) && a.DoAppend?
    requires var resp := HandleAppendEntries(run[i].servers[a.id].rep, a.areq, a.faults).1; resp.Some? && resp.value.success
    ensures var h, req, n := run[i + 1].history, a.areq, run[i + 1].servers[a.id].rep.node;
      && req.leaderCommit <= req.prevLogIndex + |req.entries| <= n.LastIndex()
      && req.term in h.logs
      && Agree(Full(h, n), h.logs[req.term], 0, req.prevLogIndex + |req.entries|)
      && Agree(Full(h, n), h.logs[req.term], 0, n.commitIndex)
      && n.commitIndex == Max(run[i].servers[a.id].rep.node.commitIndex, req.leaderCommit)
  {
    hide IsRun;
    hide Inv;
    hide HistInv;
    hide ServerInv;
    hide HandleAppendEntries;
    hide AppendReqInv;
    var c, c', req := run[i], run[i + 1], a.areq;
    RunInv(run, i);
    RunInv(run, i + 1);
    RunContinues(run, i, i + 1);
    AppendReceived(c, a);
    Unpack(c, a.id);
    Unpack(c', a.id);
    AcceptedFollower(c.history, c.servers.Keys, a.id, c.servers[a.id], req, a.faults);
    KnownInLeader(c'.history, c'.servers.Keys, a.id, c'.servers[a.id]);
    FullOfHistory(c.history, c'.history, c'.servers[a.id].rep.node);
    assert IsPrefix(c.history.logs[req.term], c'.history.logs[req.term]);
  }

  lemma AppendReceived(c: Cluster, a: Action)
    requires Inv(c) && Enabled(c, a) && a.DoAppend?
    ensures AppendReqInv(c.history, a.areq) && a.areq.term in c.history.logs
  {
    assert MessageInv(c.history, c.servers.Keys, AppendReq(a.id, a.areq));
  }

  lemma AcceptedFollower(h: History, members: set<NodeId>, id: NodeId, s: Server, req: AppendRequest, f: AppendFaults)
    requires HistInv(h, members) && ServerInv(h, members, id, s) && AppendReqInv(h, req)
    requires HandleAppendEntries(s.rep, req, f).1.Some? && HandleAppendEntries(s.rep, req, f).1.value.success
    ensures var r := HandleAppendEntries(s.rep, req, f).0;
      && r.disk.hard.currentTerm == req.term
      && req.leaderCommit <= req.prevLogIndex + |req.entries| <= r.node.LastIndex()
      && Agree(Full(h, r.node), h.logs[req.term], 0, req.prevLogIndex + |req.entries|)
      && r.node.commitIndex == Max(s.rep.node.commitIndex, req.leaderCommit)
  {
    AcceptedAgrees(h, members, id, s, req, f);
    CommittedSnapshot(h, members, id, s);
    hide HistInv;
    hide ServerInv;
    AcceptedCommit(s.rep, req, f);
    AppendKeepsIndex(s.rep, req, f);
    hide HandleAppendEntries;
    FullLength(h, HandleAppendEntries(s.rep, req, f).0.node);
  }

  lemma FullLength(h: History, n: Node)
    requires n.snapshotIndex <= |h.committed|
    ensures |Full(h, n)| == n.LastIndex()
  {
  }

  lemma AcceptedCommit(r: Replica, req: AppendRequest, f: AppendFaults)
    requires HandleAppendEntries(r, req, f).1.Some? && HandleAppendEntries(r, req, f).1.value.success
    ensures var n := HandleAppendEntries(r, req, f).0.node;
      n.commitIndex ==
        if req.leaderCommit > r.node.commitIndex then Min(req.leaderCommit, n.LastIndex()) else r.node.commitIndex
  {
    hide Repeated;
  }

  lemma KnownInLeader(h: History, members: set<NodeId>, id: NodeId, s: Server)
    requires HistInv(h, members) && ServerInv(h, members, id, s)
    ensures var t := s.rep.disk.hard.currentTerm;
      && s.rep.node.snapshotIndex <= |h.committed|
      && (t in h.logs ==> Agree(Full(h, s.rep.node), h.logs[t], 0, s.rep.node.commitIndex))
  {
    var t := s.rep.disk.hard.currentTerm;
    if t in h.logs {
      CommittedInLeader(h, members, s.rep.node.commitIndex, t, t);
    }
  }

  // ---------------------------------------------------------------- indices

  /** The index ranges of every reachable state. The two reads that can leave the retained log do so exactly
      when a snapshot is pending above the last applied index, and when a peer's next index has been compacted. */
  lemma IndexRanges(run: seq<Cluster>, i: nat, a: NodeId)
    requires IsRun(run) && i < |run| && a in run[i].servers
    ensures var n := run[i].servers[a].rep.node;
      && n.snapshotIndex <= n.commitIndex <= n.LastIndex()
      && n.lastApplied <= n.commitIndex
      && (n.pendingSnapshot.Some? ==>
            n.pendingSnapshot == n.snapshot && n.snapshot.value.lastIncludedIndex == n.snapshotIndex)
      && (ReadInBounds(n) <==> n.pendingSnapshot.None? || n.lastApplied == n.snapshotIndex)
      && (n.role == Leader ==> forall p :: p in run[i].servers && p != a ==>
            && 1 <= Get(n.nextIndex, p) <= n.LastIndex() + 1
            && (SliceInBounds(n, p) <==> n.snapshotIndex < Get(n.nextIndex, p)))
  {
    RunInv(run, i);
    hide IsRun;
    var h, s := run[i].history, run[i].servers[a];
    assert ServerInv(h, run[i].servers.Keys, a, s);
    hide Inv;
    FullLength(h, s.rep.node);
  }

  /** In every reachable state, probing a peer ends after fewer refusals than its next index, with an accepted
      position or with the leader's snapshot. */
  lemma ProbingTerminates(run: seq<Cluster>, i: nat, a: NodeId, p: NodeId)
    requires IsRun(run) && i < |run| && a in run[i].servers && p in run[i].servers && p != a
    requires run[i].servers[a].rep.node.role == Leader
    ensures var n, f := run[i].servers[a].rep.node, run[i].servers[p].rep.node;
      var next := Get(n.nextIndex, p);
      && NoTermBelowZero(n) && NoTermBelowZero(f) && 1 <= next <= n.LastIndex() + 1
      && var (refusals, reached) := Probe(a, n, p, f, next);
      refusals <= next - 1
      && (reached <= n.snapshotIndex || Refusal(f, RequestAt(a, n, p, reached)).None?)
  {
    IndexRanges(run, i, a);
    NoTermAtZero(run, i, a);
    NoTermAtZero(run, i, p);
  }

  lemma NoTermAtZero(run: seq<Cluster>, i: nat, a: NodeId)
    requires IsRun(run) && i < |run| && a in run[i].servers
    ensures NoTermBelowZero(run[i].servers[a].rep.node)
  {
    hide IsRun;
    hide HistInv;
    hide Inv;
    RunInv(run, i);
    Unpack(run[i], a);
    assert SnapshotInv(run[i].history, run[i].servers[a]);
  }

  // ---------------------------------------------------------------- acknowledgement

  /** A command accepted at `index` in term `t` stays in the record of that term's leader. */
  lemma ProposalRecorded(run: seq<Cluster>, i: nat, a: Action, j: nat)
    requires IsRun(run) && StepIs(run, i, a) && a.DoStartCommand? && i < j < |run|
    requires Proposed(run[i], a).Some?
    ensures var t, index := run[i].servers[a.id].rep.node.currentTerm, Proposed(run[i], a).value;
      && 0 < index && t in run[j].history.logs && index <= |run[j].history.logs[t]|
      && run[j].history.logs[t][index - 1] == LogEntry(t, a.command)
  {
    hide IsRun;
    hide Inv;
    hide HistInv;
    hide ServerInv;
    RunInv(run, i);
    RunContinues(run, i + 1, j);
    hide Inv;
    var c := run[i];
    Unpack(c, a.id);
    ProposalLogged(c.history, c.servers.Keys, a.id, c.servers[a.id], a.command, a.appendOk, a.commitOk);
    hide StartCommandEffect;
    hide StartCommand;
    var t := c.servers[a.id].rep.node.currentTerm;
    assert IsPrefix(run[i + 1].history.logs[t], run[j].history.logs[t]);
  }

  /** The index that the proposing call returns. */
  function Proposed(c: Cluster, a: Action): Option<nat>
    requires Enabled(c, a) && a.DoStartCommand?
  {
    StartCommand(c.ConfigOf(a.id), c.servers[a.id].rep, a.command, a.appendOk, a.commitOk).1
  }

  lemma ProposalLogged(
    h: History, members: set<NodeId>, id: NodeId, s: Server, command: Command, appendOk: bool, commitOk: bool)
    requires ServerInv(h, members, id, s)
    requires StartCommand(Config(id, members - {id}), s.rep, command, appendOk, commitOk).1.Some?
    ensures var cfg, t := Config(id, members - {id}), s.rep.node.currentTerm;
      var index := StartCommand(cfg, s.rep, command, appendOk, commitOk).1.value;
      var logs := StartCommandEffect(h, s, cfg, command, appendOk, commitOk).history.logs;
      0 < index && t in logs && index <= |logs[t]| && logs[t][index - 1] == LogEntry(t, command)
  {
    hide ServerInv;
    hide AdvanceCommit;
    hide StartCommandEffect;
    var cfg, n := Config(id, members - {id}), s.rep.node;
    StartCommandIndex(cfg, s.rep, command, appendOk, commitOk);
    hide StartCommand;
    LeaderFacts(h, members, id, s);
    LeaderLogLength(h, members, id, s);
    StartCommandCases(h, s, cfg, command, appendOk, commitOk);
    hide Appended;
    hide Full;
    var entry := LogEntry(n.currentTerm, command);
    assert AppendedHistory(h, id, n.currentTerm, entry).logs[n.currentTerm] == h.logs[n.currentTerm] + [entry];
  }

  lemma StartCommandIndex(cfg: Config, r: Replica, command: Command, appendOk: bool, commitOk: bool)
    requires StartCommand(cfg, r, command, appendOk, commitOk).1.Some?
    ensures !r.node.degraded && r.node.role == Leader && appendOk
    ensures StartCommand(cfg, r, command, appendOk, commitOk).1.value == r.node.LastIndex() + 1
  {
    hide AdvanceCommit;
  }

  /** When an acknowledgement by index is right. If the proposer is still leader of the term when the index is
      committed, the committed entry is the proposed one; in general it is so exactly when the committed entry
      has the term of the proposal. */
  lemma AcknowledgedCommand(run: seq<Cluster>, i: nat, a: Action, j: nat)
    requires IsRun(run) && StepIs(run, i, a) && a.DoStartCommand? && i < j < |run|
    requires Proposed(run[i], a).Some? && a.id in run[j].servers
    ensures var t, index := run[i].servers[a.id].rep.node.currentTerm, Proposed(run[i], a).value;
      var h, n := run[j].history, run[j].servers[a.id].rep.node;
      && (index <= |h.committed| ==>
            (0 < index && (h.committed[index - 1].term == t <==> h.committed[index - 1] == LogEntry(t, a.command))))
      && (index <= n.lastApplied && n.role == Leader && n.currentTerm == t ==>
            && 0 < index <= |h.committed| && h.committed[index - 1] == LogEntry(t, a.command)
            && forall d :: d in h.delivered && d.index == index ==> d.command == a.command)
  {
    assert a.id in run[i].servers;
    hide IsRun;
    hide Proposed;
    hide Enabled;
    hide Recovers;
    hide Apply;
    ProposalRecorded(run, i, a, j);
    RunInv(run, j);
    hide StepIs;
    var t, index := run[i].servers[a.id].rep.node.currentTerm, Proposed(run[i], a).value;
    var c := run[j];
    CommittedOfTerm(c, t, index);
    if index <= c.servers[a.id].rep.node.lastApplied && c.servers[a.id].rep.node.role == Leader
       && c.servers[a.id].rep.node.currentTerm == t {
      LeaderCommitted(c, a.id, index);
      hide Inv;
    } else {
      hide Inv;
    }
  }

  lemma CommittedOfTerm(c: Cluster, t: nat, index: nat)
    requires Inv(c) && t in c.history.logs && 0 < index <= |c.history.logs[t]|
    ensures index <= |c.history.committed| && c.history.committed[index - 1].term == t ==>
      c.history.committed[index - 1] == c.history.logs[t][index - 1]
  {
    if index <= |c.history.committed| {
      CommittedMatched(c.history, c.servers.Keys, index);
      assert Traced(c.history, c.history.committed[..index], 0, index - 1);
    }
  }

  lemma LeaderCommitted(c: Cluster, id: NodeId, index: nat)
    requires Inv(c) && id in c.servers && c.servers[id].rep.node.role == Leader
    requires 0 < index <= c.servers[id].rep.node.lastApplied
    ensures var t := c.servers[id].rep.node.currentTerm;
      && t in c.history.logs && index <= |c.history.committed| && index <= |c.history.logs[t]|
      && c.history.committed[index - 1] == c.history.logs[t][index - 1]
      && forall d :: d in c.history.delivered && d.index == index ==> d.command == c.history.committed[index - 1].command
  {
    assert ServerInv(c.history, c.servers.Keys, id, c.servers[id]);
    LeaderFacts(c.history, c.servers.Keys, id, c.servers[id]);
  }

  // ---------------------------------------------------------------- durability

  ghost predicate LandingStep(c: Cluster, c': Cluster) {
    exists a :: Enabled(c, a) && c' == Apply(c, a) && Lands(c, a)
  }

  ghost predicate LandingAt(run: seq<Cluster>, i: nat)
    requires i + 1 < |run|
  {
    LandingStep(run[i], run[i + 1])
  }

  /** An execution in which every log write lands. */
  ghost predicate LandingRun(run: seq<Cluster>) {
    IsExecution(run) && forall i {:trigger LandingAt(run, i)} :: 0 <= i < |run| - 1 ==> LandingAt(run, i)
  }

  predicate AllMirror(c: Cluster) { forall id :: id in c.servers ==> Mirror(c.servers[id].rep) }

  lemma InitMirror(c: Cluster)
    requires Init(c)
    ensures AllMirror(c)
  {
  }

  lemma LandingStepMirrors(c: Cluster, a: Action)
    requires Inv(c) && Enabled(c, a) && Lands(c, a) && AllMirror(c)
    ensures AllMirror(Apply(c, a)) && Recovers(c, a) && Inv(Apply(c, a))
  {
    assert a.id in c.servers;
    hide Inv;
    hide Enabled;
    hide EffectOf;
    hide Lands;
    hide Mirror;
    MirrorStep(c, a);
    assert Recovers(c, a);
    StepPreservesInv(c, a);
  }

  /** In an execution whose log writes all land no store ever drifts: every restart recovers, so it is a run. */
  lemma {:induction false} LandingRunMirrors(run: seq<Cluster>, i: nat)
    requires LandingRun(run) && i < |run|
    ensures Inv(run[i]) && AllMirror(run[i])
    ensures i + 1 < |run| ==> NextAt(run, i)
  {
    hide Init;
    hide Inv;
    hide Enabled;
    hide Apply;
    hide Lands;
    hide AllMirror;
    hide Recovers;
    if i == 0 {
      InitInv(run[0]);
      InitMirror(run[0]);
    } else {
      LandingRunMirrors(run, i - 1);
      assert LandingAt(run, i - 1);
      var a :| Enabled(run[i - 1], a) && run[i] == Apply(run[i - 1], a) && Lands(run[i - 1], a);
      LandingStepMirrors(run[i - 1], a);
    }
    if i + 1 < |run| {
      assert LandingAt(run, i);
      var a :| Enabled(run[i], a) && run[i + 1] == Apply(run[i], a) && Lands(run[i], a);
      LandingStepMirrors(run[i], a);
    }
  }

  lemma LandingRunsAreRuns(run: seq<Cluster>)
    requires LandingRun(run)
    ensures IsRun(run)
  {
    hide Init;
    hide NextAt;
    hide Inv;
    hide AllMirror;
    forall i {:trigger NextAt(run, i)} | 0 <= i < |run| - 1 ensures NextAt(run, i) {
      LandingRunMirrors(run, i);
    }
  }

  /** What a restart at some moment of a run restores: always the snapshot and a commit index no greater and,
      unless the node stopped on a storage failure, term and vote; the log of the running node exactly when the
      store has not drifted. */
  lemma RestartRestores(run: seq<Cluster>, i: nat, a: NodeId)
    requires IsRun(run) && i < |run| && a in run[i].servers
    ensures var n, m := run[i].servers[a].rep.node, NewNode(run[i].servers[a].rep.disk);
      && m.snapshotIndex == n.snapshotIndex && m.snapshotTerm == n.snapshotTerm && m.snapshot == n.snapshot
      && m.snapshotIndex <= m.commitIndex <= n.commitIndex
      && m.currentTerm <= n.currentTerm
      && (!n.degraded ==> m.currentTerm == n.currentTerm && m.votedFor == n.votedFor)
      && (m.log == n.log <==> Mirror(run[i].servers[a].rep))
  {
    hide IsRun;
    hide Inv;
    hide HistInv;
    RunInv(run, i);
    var h, s := run[i].history, run[i].servers[a];
    Unpack(run[i], a);
    assert TermsInv(s) && SnapshotInv(h, s) && Saved(s.rep) && s.rep.disk.hard.commitIndex <= |Full(h, s.rep.node)|;
    hide ServerInv;
    RestoredParts(h, s);
  }

  lemma RestoredParts(h: History, s: Server)
    requires TermsInv(s) && SnapshotInv(h, s) && Saved(s.rep)
    ensures var n, m := s.rep.node, NewNode(s.rep.disk);
      && m.snapshotIndex == n.snapshotIndex && m.snapshotTerm == n.snapshotTerm && m.snapshot == n.snapshot
      && m.snapshotIndex <= m.commitIndex <= n.commitIndex
      && m.currentTerm <= n.currentTerm
      && (!n.degraded ==> m.currentTerm == n.currentTerm && m.votedFor == n.votedFor)
      && (m.log == n.log <==> Mirror(s.rep))
  {
  }

  /** In an execution whose log writes all land, a restart at any moment restores the snapshot and the log of the
      running node, a commit index no greater, and, unless the node stopped on a storage failure, its term and
      its vote. */
  lemma DurableMirror(run: seq<Cluster>, i: nat, a: NodeId)
    requires LandingRun(run) && i < |run| && a in run[i].servers
    ensures var n, m := run[i].servers[a].rep.node, NewNode(run[i].servers[a].rep.disk);
      && m.log == n.log && m.snapshotIndex == n.snapshotIndex && m.snapshotTerm == n.snapshotTerm
      && m.snapshot == n.snapshot
      && m.snapshotIndex <= m.commitIndex <= n.commitIndex
      && m.currentTerm <= n.currentTerm
      && (!n.degraded ==> m.currentTerm == n.currentTerm && m.votedFor == n.votedFor)
  {
    LandingRunMirrors(run, i);
    LandingRunsAreRuns(run);
    hide IsRun;
    hide LandingRun;
    hide Inv;
    RestartRestores(run, i, a);
  }
}
