/** An execution in which State Machine Safety is lost: a follower installs a snapshot while the rewrite of its
    stored log fails, acknowledges the next entry, and restarts without it. */
module Drift {
  import opened Types
  import opened NodeModel
  import opened Cluster
  import opened Scenario
  import Safety

  const Y := Put("y", "1")
  const Z := Put("z", "1")
  const W := Put("w", "1")

  // ---------------------------------------------------------------- a snapshot over a store that stays behind

  /** A follower whose log above a snapshot at index 1 is `log`, while its store has base 0 and holds `stored`. */
  predicate Behind(s: Server, t: nat, snap: Snapshot, log: seq<LogEntry>, stored: seq<LogEntry>) {
    var n, d := s.rep.node, s.rep.disk;
    && n.role == Follower && !n.degraded && n.currentTerm == t && n.log == log
    && n.snapshotIndex == snap.lastIncludedIndex == 1 && n.snapshotTerm == snap.lastIncludedTerm
    && d.hard.currentTerm == t && d.base == 0 && d.log == stored && d.snap == Some(snap)
  }

  lemma InstallBehind(r: Replica, req: SnapshotRequest)
    requires r.node.log == [] && r.node.snapshotIndex == 0 && !r.node.degraded && r.node.currentTerm < req.term
    requires r.disk.base == 0 && r.disk.log == [] && req.snapshot.lastIncludedIndex == 1
    ensures var (r', resp) := HandleInstallSnapshot(r, req, SnapshotFaults(true, true, true, false));
      && resp == Some(SnapshotResponse(req.term))
      && r'.node.role == Follower && !r'.node.degraded && r'.node.currentTerm == req.term && r'.node.log == []
      && r'.node.snapshotIndex == 1 && r'.node.snapshotTerm == req.snapshot.lastIncludedTerm
      && r'.disk.hard.currentTerm == req.term && r'.disk.base == 0 && r'.disk.log == [] && r'.disk.snap == Some(req.snapshot)
  {
  }

  lemma Install(run: seq<Cluster>, g: NodeId, req: SnapshotRequest) returns (run': seq<Cluster>)
    requires IsExecution(run) && g in Last(run).servers && SnapReq(g, req) in Last(run).net
    requires req.snapshot.lastIncludedIndex == 1
    requires var s := Last(run).servers[g]; Untried(s) && s.rep.node.log == [] && s.rep.node.currentTerm < req.term
    requires Last(run).servers[g].rep.disk.log == []
    ensures Continued(run, run') && SnapResp(g, req, SnapshotResponse(req.term)) in Last(run').net
    ensures Last(run').servers.Keys == Last(run).servers.Keys
    ensures forall o :: o in Last(run).servers && o != g ==> Last(run').servers[o] == Last(run).servers[o]
    ensures Behind(Last(run').servers[g], req.term, req.snapshot, [], [])
  {
    var c := Last(run);
    hide IsExecution;
    hide IsRun;
    InstallBehind(c.servers[g].rep, req);
    hide HandleInstallSnapshot;
    run' := Act(run, DoInstall(g, req, SnapshotFaults(true, true, true, false)));
  }

  /** A leader of term `t` with a snapshot at index 1 and the given log above it. */
  predicate Leads(s: Server, t: nat, u: nat, log: seq<LogEntry>, commit: nat) {
    var n := s.rep.node;
    && n.role == Leader && n.currentTerm == t && !n.degraded && n.log == log
    && n.snapshotIndex == 1 && n.snapshotTerm == u && n.commitIndex == commit
  }

  /** The reply to the snapshot moves the peer past it; the request is no longer in flight. */
  lemma Acknowledge(run: seq<Cluster>, l: NodeId, g: NodeId, t: nat, req: SnapshotRequest) returns (run': seq<Cluster>)
    requires IsExecution(run) && l in Last(run).servers && SnapResp(g, req, SnapshotResponse(t)) in Last(run).net
    requires req.term == t && req.leader == l && req.snapshot.lastIncludedIndex == 1
    requires var s := Last(run).servers[l]; Leads(s, t, t, [], 1) && Get(s.rep.node.nextIndex, g) <= 2
    ensures Continued(run, run') && Last(run').servers.Keys == Last(run).servers.Keys
    ensures forall o :: o in Last(run).servers && o != l ==> Last(run').servers[o] == Last(run).servers[o]
    ensures var s, s' := Last(run).servers[l], Last(run').servers[l];
      && Leads(s', t, t, [], 1) && Get(s'.rep.node.nextIndex, g) == 2 && g !in s'.rep.node.inFlight
      && (forall p :: Get(s'.rep.node.matchIndex, p) <= Max(Get(s.rep.node.matchIndex, p), 1))
      && s'.rep.node.lastApplied == s.rep.node.lastApplied && s'.rep.node.pendingSnapshot == s.rep.node.pendingSnapshot
  {
    hide IsExecution;
    hide IsRun;
    run' := Act(run, DoInstallReply(l, g, req, SnapshotResponse(t), true));
    run' := Act(run', DoRpcDone(l, g));
  }

  // ---------------------------------------------------------------- the entry at index 2

  function TailRequest(l: NodeId, t: nat, u: nat, entry: LogEntry): AppendRequest {
    AppendRequest(t, l, 1, u, [entry], 1)
  }

  lemma TailEffect(h: History, s: Server, l: NodeId, f: NodeId, t: nat, u: nat, entry: LogEntry)
    requires Leads(s, t, u, [entry], 1) && Get(s.rep.node.nextIndex, f) == 2 && f !in s.rep.node.inFlight
    ensures SliceInBounds(s.rep.node, f)
    ensures var e := BuildAppendEffect(h, s, l, f);
      && e.server == s.(rep := s.rep.(node := s.rep.node.(inFlight := s.rep.node.inFlight + {f})))
      && e.sent == {AppendReq(f, TailRequest(l, t, u, entry))}
  {
    hide AppendRequestFor;
    TailLog(l, s.rep.node, f);
  }

  lemma TailLog(l: NodeId, n: Node, f: NodeId)
    requires n.snapshotIndex == 1 && Get(n.nextIndex, f) == 2
    ensures SliceInBounds(n, f)
    ensures AppendRequestFor(l, n, f) == AppendRequest(n.currentTerm, l, 1, n.snapshotTerm, n.log, n.commitIndex)
  {
    Whole(n.log);
  }

  lemma AcceptOnSnapshot(s: Server, l: NodeId, t: nat, snap: Snapshot, entry: LogEntry)
    requires Behind(s, t, snap, [], [])
    ensures var (r, resp) := HandleAppendEntries(
        s.rep, TailRequest(l, t, snap.lastIncludedTerm, entry), AppendFaults(true, true, true, true));
      resp == Some(AppendResponse(t, true, 0, 0)) && Behind(s.(rep := r), t, snap, [entry], [entry])
  {
    assert [] + [entry] == [entry] && [entry][0..] == [entry];
  }

  lemma AcceptAfterFirst(s: Server, l: NodeId, t: nat, first: LogEntry, entry: LogEntry)
    requires Holding(s, t, first)
    ensures HandleAppendEntries(s.rep, TailRequest(l, t, first.term, entry), AppendFaults(true, true, true, true)).1
            == Some(AppendResponse(t, true, 0, 0))
  {
    assert [entry][0..] == [entry];
  }

  /** The leader's entry at index 2 is sent to `f`. */
  lemma Give(run: seq<Cluster>, l: NodeId, f: NodeId, t: nat, u: nat, entry: LogEntry) returns (run': seq<Cluster>)
    requires IsExecution(run) && l in Last(run).servers && f in Last(run).servers && l != f
    requires var s := Last(run).servers[l];
      Leads(s, t, u, [entry], 1) && Get(s.rep.node.nextIndex, f) == 2 && f !in s.rep.node.inFlight
    ensures Continued(run, run') && AppendReq(f, TailRequest(l, t, u, entry)) in Last(run').net
    ensures var s, n := Last(run).servers[l], Last(run).servers[l].rep.node;
      Last(run').servers == Last(run).servers[l := s.(rep := s.rep.(node := n.(inFlight := n.inFlight + {f})))]
  {
    var c := Last(run);
    hide IsExecution;
    hide IsRun;
    TailEffect(c.history, c.servers[l], l, f, t, u, entry);
    hide Leads;
    hide BuildAppendEffect;
    run' := Act(run, DoBuildAppend(l, f));
  }

  /** The follower accepts it. */
  lemma Take(run: seq<Cluster>, l: NodeId, f: NodeId, t: nat, u: nat, entry: LogEntry, snap: Snapshot)
    returns (run': seq<Cluster>)
    requires IsExecution(run) && f in Last(run).servers && AppendReq(f, TailRequest(l, t, u, entry)) in Last(run).net
    requires Ready(Last(run).servers[f], t, u, snap)
    ensures Continued(run, run') && Last(run').servers.Keys == Last(run).servers.Keys
    ensures AppendResp(f, TailRequest(l, t, u, entry), AppendResponse(t, true, 0, 0)) in Last(run').net
    ensures forall o :: o in Last(run).servers && o != f ==> Last(run').servers[o] == Last(run).servers[o]
    ensures Behind(Last(run).servers[f], t, snap, [], []) ==> Behind(Last(run').servers[f], t, snap, [entry], [entry])
  {
    var c := Last(run);
    hide IsExecution;
    hide IsRun;
    hide Ready;
    hide Behind;
    hide HandleAppendEntries;
    Accepts(c.servers[f], l, t, u, entry, snap);
    run' := Act(run, DoAppend(f, TailRequest(l, t, u, entry), AppendFaults(true, true, true, true)));
  }

  /** A follower that will accept an entry at index 2 after one of term `u`. */
  ghost predicate Ready(s: Server, t: nat, u: nat, snap: Snapshot) {
    || (Behind(s, t, snap, [], []) && snap.lastIncludedTerm == u)
    || exists first: LogEntry :: first.term == u && Holding(s, t, first)
  }

  lemma Hand(run: seq<Cluster>, l: NodeId, f: NodeId, t: nat, u: nat, entry: LogEntry, snap: Snapshot)
    returns (run': seq<Cluster>)
    requires IsExecution(run) && l in Last(run).servers && f in Last(run).servers && l != f
    requires var s := Last(run).servers[l];
      Leads(s, t, u, [entry], 1) && Get(s.rep.node.nextIndex, f) == 2 && f !in s.rep.node.inFlight
    requires Ready(Last(run).servers[f], t, u, snap)
    ensures Continued(run, run') && Last(run').servers.Keys == Last(run).servers.Keys
    ensures AppendResp(f, TailRequest(l, t, u, entry), AppendResponse(t, true, 0, 0)) in Last(run').net
    ensures forall o :: o in Last(run).servers && o != l && o != f ==> Last(run').servers[o] == Last(run).servers[o]
    ensures var n := Last(run).servers[l].rep.node;
      Last(run').servers[l].rep.node == n.(inFlight := n.inFlight + {f})
    ensures Leads(Last(run').servers[l], t, u, [entry], 1)
    ensures Behind(Last(run).servers[f], t, snap, [], []) ==> Behind(Last(run').servers[f], t, snap, [entry], [entry])
  {
    var c := Last(run);
    hide IsExecution;
    hide IsRun;
    hide Leads;
    hide Behind;
    hide Ready;
    var run1 := Give(run, l, f, t, u, entry);
    run' := Take(run1, l, f, t, u, entry, snap);
    InFlightLeads(c.servers[l], Last(run').servers[l], t, u, [entry], f);
  }

  lemma InFlightLeads(s: Server, s': Server, t: nat, u: nat, log: seq<LogEntry>, f: NodeId)
    requires Leads(s, t, u, log, 1) && s'.rep.node == s.rep.node.(inFlight := s.rep.node.inFlight + {f})
    ensures Leads(s', t, u, log, 1)
  {
  }

  lemma Accepts(s: Server, l: NodeId, t: nat, u: nat, entry: LogEntry, snap: Snapshot)
    requires Ready(s, t, u, snap)
    ensures var (r, resp) := HandleAppendEntries(s.rep, TailRequest(l, t, u, entry), AppendFaults(true, true, true, true));
      && resp == Some(AppendResponse(t, true, 0, 0))
      && (Behind(s, t, snap, [], []) ==> Behind(s.(rep := r), t, snap, [entry], [entry]))
  {
    hide HandleAppendEntries;
    if Behind(s, t, snap, [], []) && snap.lastIncludedTerm == u {
      hide Holding;
      AcceptOnSnapshot(s, l, t, snap, entry);
    } else {
      var first: LogEntry :| first.term == u && Holding(s, t, first);
      AcceptAfterFirst(s, l, t, first, entry);
    }
  }

  lemma CommitTail(cfg: Config, r: Replica, f: NodeId, t: nat, u: nat, entry: LogEntry)
    requires f in cfg.peers && |cfg.Members()| == 3 && r.node.role == Leader && r.node.currentTerm == t
    requires r.node.log == [entry] && entry.term == t && r.node.snapshotIndex == r.node.commitIndex == 1
    ensures var r' := OnAppendReply(cfg, r, f, TailRequest(cfg.id, t, u, entry), AppendResponse(t, true, 0, 0), true);
      r'.node == r.node.(commitIndex := 2, matchIndex := r'.node.matchIndex, nextIndex := r'.node.nextIndex)
  {
    var n := RecordMatch(r.node, f, 2);
    assert {f} <= Holders(cfg, n, 2);
    Safety.SubsetSize({f}, Holders(cfg, n, 2));
    assert CommitTarget(cfg, n, 2) == 2;
  }

  lemma CommitEffect(h: History, s: Server, cfg: Config, f: NodeId, t: nat, u: nat, entry: LogEntry)
    requires f in cfg.peers && |cfg.Members()| == 3 && Leads(s, t, u, [entry], 1) && entry.term == t
    ensures var e := AppendReplyEffect(h, s, cfg, f, TailRequest(cfg.id, t, u, entry), AppendResponse(t, true, 0, 0), true);
      && e.sent == {} && Leads(e.server, t, u, [entry], 2)
      && e.server.rep.node.lastApplied == s.rep.node.lastApplied
      && e.server.rep.node.pendingSnapshot == s.rep.node.pendingSnapshot
  {
    CommitTail(cfg, s.rep, f, t, u, entry);
    hide OnAppendReply;
  }

  lemma Commit(run: seq<Cluster>, l: NodeId, f: NodeId, t: nat, u: nat, entry: LogEntry) returns (run': seq<Cluster>)
    requires IsExecution(run) && l in Last(run).servers && f in Last(run).servers && l != f && |Last(run).servers| == 3
    requires AppendResp(f, TailRequest(l, t, u, entry), AppendResponse(t, true, 0, 0)) in Last(run).net
    requires Leads(Last(run).servers[l], t, u, [entry], 1) && entry.term == t
    ensures Continued(run, run') && Last(run').servers.Keys == Last(run).servers.Keys
    ensures Leads(Last(run').servers[l], t, u, [entry], 2)
    ensures forall o :: o in Last(run).servers && o != l ==> Last(run').servers[o] == Last(run).servers[o]
    ensures var n, n' := Last(run).servers[l].rep.node, Last(run').servers[l].rep.node;
      n'.lastApplied == n.lastApplied && n'.pendingSnapshot == n.pendingSnapshot
  {
    var c := Last(run);
    hide IsExecution;
    hide IsRun;
    hide Leads;
    MembersOf(c, l);
    CommitEffect(c.history, c.servers[l], c.ConfigOf(l), f, t, u, entry);
    Reply(c, l, f, TailRequest(l, t, u, entry), AppendResponse(t, true, 0, 0));
    hide AppendReplyEffect;
    hide Enabled;
    hide EffectOf;
    run' := Act(run, DoAppendReply(l, f, TailRequest(l, t, u, entry), AppendResponse(t, true, 0, 0), true));
  }

  /** A leader that has committed index 2 and applied index 1 hands out the entry at index 2. */
  lemma Deliver(run: seq<Cluster>, l: NodeId, t: nat, u: nat, entry: LogEntry) returns (run': seq<Cluster>)
    requires IsExecution(run) && ThreeServers(Last(run)) && l in {0, 1, 2} && Leads(Last(run).servers[l], t, u, [entry], 2)
    requires var n := Last(run).servers[l].rep.node; n.lastApplied == 1 && n.pendingSnapshot.None?
    ensures Continued(run, run') && ThreeServers(Last(run'))
    ensures Delivery(l, 2, entry.command) in Last(run').history.delivered
    ensures forall o :: o in {0, 1, 2} && o != l ==> Last(run').servers[o] == Last(run).servers[o]
  {
    assert l in Last(run).servers;
    hide IsExecution;
    hide IsRun;
    run' := Act(run, DoDeliverEntry(l));
    Three(Last(run'));
  }

  // ---------------------------------------------------------------- the execution

  lemma CompactedLeads(s: Server, t: nat, n: Node, store: Store)
    requires n.role == Leader && n.currentTerm == t && !n.degraded && n.commitIndex == 1
    requires s.rep.node == n.(log := [], snapshotIndex := 1, snapshotTerm := t, snapshot := Some(TakenAt(t, store)))
    ensures Leads(s, t, t, [], 1)
  {
  }

  lemma GrownLeads(s: Server, id: NodeId, t: nat, u: nat, command: Command)
    requires Leads(s, t, u, [], 1)
    ensures var s' := Grown(s, id, command);
      && Leads(s', t, u, [LogEntry(t, command)], 1) && s'.rep.node.inFlight == s.rep.node.inFlight
      && (forall p :: p != id ==> Get(s'.rep.node.nextIndex, p) == Get(s.rep.node.nextIndex, p))
      && s'.rep.node.lastApplied == s.rep.node.lastApplied && s'.rep.node.pendingSnapshot == s.rep.node.pendingSnapshot
  {
    assert [] + [LogEntry(t, command)] == [LogEntry(t, command)];
  }

  const STORE: Store := map["y" := "1"]

  /** Server 0 leads term 1, has committed its first entry with server 1, applied and compacted it. */
  lemma Prelude() returns (run: seq<Cluster>)
    ensures IsExecution(run) && IsRun(run) && ThreeServers(Last(run))
    ensures Holding(Last(run).servers[1], 1, LogEntry(1, Y)) && Blank(Last(run).servers[2], 0)
    ensures var n := Last(run).servers[0].rep.node;
      && Leads(Last(run).servers[0], 1, 1, [], 1) && n.snapshot == Some(TakenAt(1, STORE))
      && n.lastApplied == 1 && n.pendingSnapshot.None? && n.inFlight == {1} && Get(n.nextIndex, 2) == 1
      && Get(n.matchIndex, 1) <= 1 && Get(n.matchIndex, 2) <= 1
  {
    hide NextAt;
    hide StepAt;
    hide Init;
    hide Blank;
    hide Led;
    hide Holding;
    var r1 := Begin();
    var r2 := BlankCampaign(r1, 0, 1, 0, 0);
    var r3 := LedPropose(r2, 0, 1, [], Y);
    assert [] + [LogEntry(1, Y)] == [LogEntry(1, Y)];
    var r4 := Settle(r3, 0, 1, 2, 1, Y);
    var r5 := Apply1(r4, 0, 1, "y", "1");
    run := Compact(r5, 0, 1, Y, STORE);
    CompactedLeads(Last(run).servers[0], 1, Last(r5).servers[0].rep.node, STORE);
    Three(Last(run));
  }

  /** Server 2 installs the snapshot over a store that stays behind, and is told to be past it. */
  lemma Overtaken() returns (run: seq<Cluster>)
    ensures IsExecution(run) && IsRun(run) && ThreeServers(Last(run))
    ensures Holding(Last(run).servers[1], 1, LogEntry(1, Y)) && Behind(Last(run).servers[2], 1, TakenAt(1, STORE), [], [])
    ensures var n := Last(run).servers[0].rep.node;
      && Leads(Last(run).servers[0], 1, 1, [], 1) && n.lastApplied == 1 && n.pendingSnapshot.None?
      && 2 !in n.inFlight && Get(n.nextIndex, 2) == 2 && Get(n.matchIndex, 1) <= 1 && Get(n.matchIndex, 2) <= 1
  {
    hide NextAt;
    hide StepAt;
    hide Init;
    hide Holding;
    var req := SnapshotRequest(1, 0, TakenAt(1, STORE));
    var r1 := Prelude();
    var r2 := SendSnapshot(r1, 0, 2, 1, STORE);
    var r3 := Install(r2, 2, req);
    hide Behind;
    run := Acknowledge(r3, 0, 2, 1, req);
    Three(Last(run));
  }

  /** The second entry is acknowledged by server 2, committed, and handed out by server 0. */
  lemma SecondEntry() returns (run: seq<Cluster>)
    ensures IsExecution(run) && ThreeServers(Last(run)) && Delivery(0, 2, Z) in Last(run).history.delivered
    ensures Holding(Last(run).servers[1], 1, LogEntry(1, Y))
    ensures Behind(Last(run).servers[2], 1, TakenAt(1, STORE), [LogEntry(1, Z)], [LogEntry(1, Z)])
  {
    hide NextAt;
    hide StepAt;
    hide Init;
    hide Holding;
    hide Behind;
    hide Grown;
    var z := LogEntry(1, Z);
    var r1 := Overtaken();
    GrownLeads(Last(r1).servers[0], 0, 1, 1, Z);
    var r2 := Propose(r1, 0, Z);
    var r3 := Hand(r2, 0, 2, 1, 1, z, TakenAt(1, STORE));
    Three(Last(r3));
    var r4 := Commit(r3, 0, 2, 1, 1, z);
    Three(Last(r4));
    run := Deliver(r4, 0, 1, 1, z);
  }

  /** A server that restarts from a store behind its snapshot: the acknowledged entry is gone. */
  lemma Forgets(s: Server, t: nat, snap: Snapshot, entry: LogEntry)
    requires Behind(s, t, snap, [entry], [entry])
    ensures var n := Restarted(s.rep.disk).rep.node;
      && n.role == Follower && n.currentTerm == t && !n.degraded && n.log == [] && n.inFlight == {}
      && n.snapshotIndex == n.commitIndex == n.lastApplied == 1 && n.snapshotTerm == snap.lastIncludedTerm
      && n.pendingSnapshot == Some(snap)
  {
    assert [entry][1..] == [];
  }

  lemma Returns(s: Server, cfg: Config, t: nat, u: nat)
    requires var n := s.rep.node;
      && n.currentTerm == t && !n.degraded && n.log == [] && n.snapshotIndex == n.commitIndex == 1 && n.snapshotTerm == u
      && n.inFlight == {}
    requires cfg.id !in cfg.peers
    ensures var s' := Leading(s, cfg);
      && Leads(s', t + 1, u, [], 1) && s'.rep.node.inFlight == {}
      && s'.rep.node.lastApplied == s.rep.node.lastApplied && s'.rep.node.pendingSnapshot == s.rep.node.pendingSnapshot
      && forall p :: p in cfg.peers ==> Get(s'.rep.node.nextIndex, p) == 2 && Get(s'.rep.node.matchIndex, p) == 0
  {
  }

  lemma Supported(s: Server, id: NodeId, v: Server, t: nat, first: LogEntry)
    requires var n := s.rep.node; n.currentTerm == t && n.log == [] && n.snapshotIndex == 1 && n.snapshotTerm == first.term
    requires Holding(v, t, first)
    ensures UpToDate(Ballot(s, id), v.rep.node) && Holding(Voted(v, Ballot(s, id)), t + 1, first)
  {
  }

  /** Server 2 restarts without the entry and is elected by server 1. */
  lemma Restart() returns (run: seq<Cluster>)
    ensures IsExecution(run) && ThreeServers(Last(run)) && Delivery(0, 2, Z) in Last(run).history.delivered
    ensures Holding(Last(run).servers[1], 2, LogEntry(1, Y))
    ensures var n := Last(run).servers[2].rep.node;
      && Leads(Last(run).servers[2], 2, 1, [], 1) && n.lastApplied == 1 && n.pendingSnapshot == Some(TakenAt(1, STORE))
      && n.inFlight == {} && Get(n.nextIndex, 1) == 2 && Get(n.matchIndex, 0) == Get(n.matchIndex, 1) == 0
  {
    hide NextAt;
    hide StepAt;
    hide Init;
    hide Holding;
    hide Behind;
    hide Restarted;
    hide UpToDate;
    var r1 := SecondEntry();
    var c := Last(r1);
    Forgets(c.servers[2], 1, TakenAt(1, STORE), LogEntry(1, Z));
    var r2 := Act(r1, DoRestart(2));
    Three(Last(r2));
    Supported(Last(r2).servers[2], 2, Last(r2).servers[1], 1, LogEntry(1, Y));
    Returns(Last(r2).servers[2], Last(r2).ConfigOf(2), 1, 1);
    assert !Last(r2).servers[1].rep.node.degraded && Last(r2).servers[1].rep.node.currentTerm == 1 by {
      Votes(Last(r2).servers[1], 1, LogEntry(1, Y));
    }
    run := Campaign(r2, 2, 1);
    hide Leading;
    hide Voted;
    Three(Last(run));
  }

  lemma Votes(s: Server, t: nat, first: LogEntry)
    requires Holding(s, t, first)
    ensures !s.rep.node.degraded && s.rep.node.currentTerm == t
  {
  }

  lemma DeliverPending(run: seq<Cluster>, l: NodeId, t: nat, u: nat, entry: LogEntry) returns (run': seq<Cluster>)
    requires IsExecution(run) && ThreeServers(Last(run)) && l in Last(run).servers
    requires Leads(Last(run).servers[l], t, u, [entry], 2)
    requires var n := Last(run).servers[l].rep.node;
      n.lastApplied == 1 && n.pendingSnapshot.Some? && n.pendingSnapshot.value.lastIncludedIndex == 1
    ensures Continued(run, run') && ThreeServers(Last(run')) && Leads(Last(run').servers[l], t, u, [entry], 2)
    ensures var n := Last(run').servers[l].rep.node; n.lastApplied == 1 && n.pendingSnapshot.None?
  {
    hide IsExecution;
    hide IsRun;
    run' := Act(run, DoDeliverSnapshot(l));
    Three(Last(run'));
  }

  /** State Machine Safety can fail when a server restarts from a drifted store: servers 0 and 2 hand out different
      commands at index 2. */
  lemma StateMachineSafetyCanFail() returns (run: seq<Cluster>)
    ensures IsExecution(run)
    ensures Delivery(0, 2, Z) in Last(run).history.delivered && Delivery(2, 2, W) in Last(run).history.delivered
    ensures Z != W
  {
    hide NextAt;
    hide StepAt;
    hide Init;
    hide Leads;
    var r1 := OtherEntry();
    var r2 := DeliverPending(r1, 2, 2, 1, LogEntry(2, W));
    run := Deliver(r2, 2, 2, 1, LogEntry(2, W));
  }

  /** Server 2 commits another entry at index 2 with server 1. */
  lemma OtherEntry() returns (run: seq<Cluster>)
    ensures IsExecution(run) && ThreeServers(Last(run)) && Delivery(0, 2, Z) in Last(run).history.delivered
    ensures var n := Last(run).servers[2].rep.node;
      && Leads(Last(run).servers[2], 2, 1, [LogEntry(2, W)], 2)
      && n.lastApplied == 1 && n.pendingSnapshot == Some(TakenAt(1, STORE))
  {
    hide NextAt;
    hide StepAt;
    hide Init;
    hide Holding;
    hide Grown;
    var w := LogEntry(2, W);
    var r1 := Restart();
    GrownLeads(Last(r1).servers[2], 2, 2, 1, W);
    var r2 := Propose(r1, 2, W);
    assert Holding(Last(r2).servers[1], 2, LogEntry(1, Y));
    var r3 := Hand(r2, 2, 1, 2, 1, w, TakenAt(1, STORE));
    Three(Last(r3));
    run := Commit(r3, 2, 1, 2, 1, w);
    Three(Last(run));
  }
}
