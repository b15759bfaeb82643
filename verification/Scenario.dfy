/** Building blocks for concrete executions of a cluster of three. */
module Scenario {
  import opened Types
  import opened NodeModel
  import opened ServiceModel
  import opened Cluster
  import Safety

  function Last(run: seq<Cluster>): Cluster
    requires run != []
  {
    run[|run| - 1]
  }

  /** An execution goes on; a run goes on as a run. */
  ghost predicate Continued(run: seq<Cluster>, run': seq<Cluster>)
    requires run != []
  {
    && run' != []
    && IsExecution(run')
    && (IsRun(run) ==> IsRun(run'))
    && Last(run).history.delivered <= Last(run').history.delivered
  }

  lemma DeliveredGrows(c: Cluster, a: Action)
    requires Enabled(c, a)
    ensures c.history.delivered <= Apply(c, a).history.delivered
  {
    hide HandleRequestVote;
    hide HandleAppendEntries;
    hide OnAppendReply;
    hide StartCommand;
    hide Full;
    hide LogOf;
    hide Holders;
  }

  /** One more action. */
  lemma Act(run: seq<Cluster>, a: Action) returns (run': seq<Cluster>)
    requires IsExecution(run) && Enabled(Last(run), a)
    ensures run' != [] && IsExecution(run') && Last(run') == Apply(Last(run), a)
    ensures !a.DoRestart? ==> Continued(run, run')
    ensures Last(run).history.delivered <= Last(run').history.delivered
  {
    hide Enabled;
    hide Apply;
    hide Init;
    DeliveredGrows(Last(run), a);
    run' := run + [Apply(Last(run), a)];
    assert Step(Last(run), run'[|run|]);
    forall i {:trigger StepAt(run', i)} | 0 <= i < |run'| - 1 ensures StepAt(run', i) {
      if i < |run| - 1 {
        assert StepAt(run, i);
      }
    }
    if !a.DoRestart? && IsRun(run) {
      assert Next(Last(run), run'[|run|]);
      forall i {:trigger NextAt(run', i)} | 0 <= i < |run'| - 1 ensures NextAt(run', i) {
        if i < |run| - 1 {
          assert NextAt(run, i);
        }
      }
    }
  }

  // ---------------------------------------------------------------- elections

  /** A candidate of term `t` that has just started its election. */
  function Standing(s: Server, id: NodeId): Server {
    var n := s.rep.node;
    var t := n.currentTerm + 1;
    s.(rep := Replica(n.(role := Candidate, currentTerm := t, votedFor := Some(id)),
                      s.rep.disk.(hard := HardState(t, Some(id), n.commitIndex))),
       tally := Some(Tally(t, {}, {})))
  }

  function Ballot(s: Server, id: NodeId): VoteRequest {
    VoteRequest(s.rep.node.currentTerm + 1, id, s.rep.node.LastIndex(), s.rep.node.LastTerm())
  }

  lemma Stand(run: seq<Cluster>, id: NodeId) returns (run': seq<Cluster>)
    requires IsExecution(run) && id in Last(run).servers && Last(run).servers[id].rep.node.role == Follower
    ensures Continued(run, run') && Last(run').servers == Last(run).servers[id := Standing(Last(run).servers[id], id)]
    ensures Last(run').net == Last(run).net + {VoteReq(Ballot(Last(run).servers[id], id))}
  {
    hide IsExecution;
    hide IsRun;
    run' := Act(run, DoTimeout(id));
    run' := Act(run', DoStartElection(id, true));
  }

  /** A voter that has granted its vote in the term of the request. */
  function Voted(s: Server, req: VoteRequest): Server {
    s.(rep := Replica(s.rep.node.(currentTerm := req.term, votedFor := Some(req.candidate), role := Follower),
                      s.rep.disk.(hard := HardState(req.term, Some(req.candidate), s.rep.node.commitIndex))))
  }

  lemma Grant(run: seq<Cluster>, v: NodeId, req: VoteRequest) returns (run': seq<Cluster>)
    requires IsExecution(run) && v in Last(run).servers && VoteReq(req) in Last(run).net && req.candidate != v
    requires var n := Last(run).servers[v].rep.node; !n.degraded && n.currentTerm < req.term && UpToDate(req, n)
    ensures Continued(run, run') && Last(run').servers == Last(run).servers[v := Voted(Last(run).servers[v], req)]
    ensures Last(run').net == Last(run).net + {VoteResp(v, req, VoteResponse(req.term, true))}
  {
    hide IsExecution;
    hide IsRun;
    run' := Act(run, DoVote(v, req, true, true));
  }

  lemma MembersOf(c: Cluster, id: NodeId)
    requires id in c.servers
    ensures c.ConfigOf(id).Members() == c.servers.Keys && |c.ConfigOf(id).Members()| == |c.servers|
  {
    assert c.ConfigOf(id).Members() == c.servers.Keys;
  }

  lemma Win(run: seq<Cluster>, id: NodeId, v: NodeId, req: VoteRequest) returns (run': seq<Cluster>)
    requires IsExecution(run) && id in Last(run).servers && req.candidate == id && |Last(run).servers| == 3
    requires VoteResp(v, req, VoteResponse(req.term, true)) in Last(run).net
    requires var s := Last(run).servers[id];
      s.rep.node.role == Candidate && s.rep.node.currentTerm == req.term && s.tally == Some(Tally(req.term, {}, {}))
    ensures Continued(run, run')
    ensures var s := Last(run).servers[id];
      Last(run').servers ==
        Last(run).servers[id := s.(rep := s.rep.(node := BecomeLeader(Last(run).ConfigOf(id), s.rep.node)), tally := None)]
    ensures Last(run').net == Last(run).net
  {
    var c := Last(run);
    hide IsExecution;
    hide IsRun;
    hide BecomeLeader;
    hide Elect;
    MembersOf(c, id);
    assert {} + {v} == {v};
    run' := Act(run, DoCountVote(id, v, req, VoteResponse(req.term, true), true));
  }

  /** Three servers, one of which gets the vote of another. */
  lemma Campaign(run: seq<Cluster>, id: NodeId, v: NodeId) returns (run': seq<Cluster>)
    requires IsExecution(run) && id in Last(run).servers && v in Last(run).servers && id != v && |Last(run).servers| == 3
    requires Last(run).servers[id].rep.node.role == Follower
    requires var n := Last(run).servers[v].rep.node;
      && !n.degraded && n.currentTerm <= Last(run).servers[id].rep.node.currentTerm
      && UpToDate(Ballot(Last(run).servers[id], id), n)
    ensures Continued(run, run') && Last(run').servers.Keys == Last(run).servers.Keys
    ensures Last(run').servers == Last(run).servers[v := Voted(Last(run).servers[v], Ballot(Last(run).servers[id], id))]
      [id := Leading(Last(run).servers[id], Last(run).ConfigOf(id))]
  {
    var c := Last(run);
    hide IsExecution;
    hide IsRun;
    hide BecomeLeader;
    hide UpToDate;
    var req := Ballot(c.servers[id], id);
    var r1 := Stand(run, id);
    var r2 := Grant(r1, v, req);
    run' := Win(r2, id, v, req);
    assert Last(run').servers.Keys == c.servers.Keys;
    assert Last(r2).ConfigOf(id) == c.ConfigOf(id);
  }

  function Leading(s: Server, cfg: Config): Server {
    var st := Standing(s, cfg.id);
    st.(rep := st.rep.(node := BecomeLeader(cfg, st.rep.node)), tally := None)
  }

  // ---------------------------------------------------------------- replication

  lemma {:induction false} NothingToCommit(cfg: Config, n: Node, from: nat)
    requires forall p :: p in cfg.peers ==> Get(n.matchIndex, p) <= n.commitIndex
    requires 2 <= cfg.QuorumSize()
    ensures CommitTarget(cfg, n, from) == n.commitIndex
    decreases from
  {
    if from > n.commitIndex {
      assert Holders(cfg, n, from) == {};
      NothingToCommit(cfg, n, from - 1);
    }
  }

  /** A leader with a new entry that it has not committed. */
  function Grown(s: Server, id: NodeId, command: Command): Server {
    var n := s.rep.node;
    var entry := LogEntry(n.currentTerm, command);
    s.(rep := Replica(
         n.(log := n.log + [entry],
            matchIndex := n.matchIndex[id := n.LastIndex() + 1],
            nextIndex := n.nextIndex[id := n.LastIndex() + 2]),
         AppendLog(s.rep.disk, [entry])))
  }

  lemma ProposeEffect(h: History, s: Server, cfg: Config, command: Command)
    requires s.rep.node.role == Leader && !s.rep.node.degraded && 2 <= cfg.QuorumSize() && cfg.id !in cfg.peers
    requires forall p :: p in cfg.peers ==> Get(s.rep.node.matchIndex, p) <= s.rep.node.commitIndex
    ensures var e := StartCommandEffect(h, s, cfg, command, true, true);
      e.server == Grown(s, cfg.id, command) && e.sent == {}
  {
    var n' := Grown(s, cfg.id, command).rep.node;
    NothingToCommit(cfg, n', n'.LastIndex());
    hide CommitTarget;
    hide Holders;
    hide RecordAck;
    hide LogOf;
  }

  lemma Propose(run: seq<Cluster>, id: NodeId, command: Command) returns (run': seq<Cluster>)
    requires IsExecution(run) && id in Last(run).servers && |Last(run).servers| == 3
    requires var s := Last(run).servers[id];
      && s.rep.node.role == Leader && !s.rep.node.degraded
      && forall p :: p in Last(run).servers && p != id ==> Get(s.rep.node.matchIndex, p) <= s.rep.node.commitIndex
    ensures Continued(run, run') && Last(run').servers == Last(run).servers[id := Grown(Last(run).servers[id], id, command)]
    ensures Last(run').net == Last(run).net
  {
    var c := Last(run);
    hide IsExecution;
    hide IsRun;
    hide StartCommandEffect;
    hide Grown;
    MembersOf(c, id);
    ProposeEffect(c.history, c.servers[id], c.ConfigOf(id), command);
    run' := Act(run, DoStartCommand(id, command, true, true));
  }

  /** A leader with one entry of its own, so far only in its own log. */
  predicate Alone(s: Server, t: nat, command: Command) {
    var n := s.rep.node;
    && n.role == Leader && n.currentTerm == t && !n.degraded && n.log == [LogEntry(t, command)]
    && n.snapshotIndex == n.snapshotTerm == n.commitIndex == n.lastApplied == 0
    && n.snapshot.None? && n.pendingSnapshot.None? && n.inFlight == {}
    && s.stream == [] && s.handled == 0 && s.service == NEW_SERVICE && !s.stopped
  }

  /** A follower in the leader's term with nothing in its log. */
  predicate Waiting(s: Server, t: nat) {
    var n := s.rep.node;
    !n.degraded && n.currentTerm == t && n.log == [] && n.snapshotIndex == n.snapshotTerm == 0
    && s.rep.disk.base == 0
  }

  function FirstRequest(l: NodeId, t: nat, command: Command): AppendRequest {
    AppendRequest(t, l, 0, 0, [LogEntry(t, command)], 0)
  }

  lemma Send(run: seq<Cluster>, l: NodeId, f: NodeId, t: nat, command: Command) returns (run': seq<Cluster>)
    requires IsExecution(run) && l in Last(run).servers && f in Last(run).servers && l != f
    requires Alone(Last(run).servers[l], t, command) && Get(Last(run).servers[l].rep.node.nextIndex, f) == 1
    ensures Continued(run, run') && AppendReq(f, FirstRequest(l, t, command)) in Last(run').net
    ensures var s := Last(run).servers[l];
      Last(run').servers == Last(run).servers[l := s.(rep := s.rep.(node := s.rep.node.(inFlight := {f})))]
  {
    var c := Last(run);
    hide IsExecution;
    hide IsRun;
    SendEffect(c.history, c.servers[l], l, f, t, command);
    hide BuildAppendEffect;
    run' := Act(run, DoBuildAppend(l, f));
  }

  lemma SendEffect(h: History, s: Server, l: NodeId, f: NodeId, t: nat, command: Command)
    requires Alone(s, t, command) && Get(s.rep.node.nextIndex, f) == 1
    ensures SliceInBounds(s.rep.node, f)
    ensures var e := BuildAppendEffect(h, s, l, f);
      && e.server == s.(rep := s.rep.(node := s.rep.node.(inFlight := {f})))
      && e.sent == {AppendReq(f, FirstRequest(l, t, command))}
  {
    hide AppendRequestFor;
    assert {} + {f} == {f};
    WholeLog(l, s.rep.node, f);
  }

  lemma WholeLog(l: NodeId, n: Node, f: NodeId)
    requires n.snapshotIndex == n.snapshotTerm == 0 && Get(n.nextIndex, f) == 1
    ensures SliceInBounds(n, f) && AppendRequestFor(l, n, f) == AppendRequest(n.currentTerm, l, 0, 0, n.log, n.commitIndex)
  {
    Whole(n.log);
  }

  lemma Whole(log: seq<LogEntry>)
    ensures log[0..] == log
  {
  }

  /** A follower of term `t` whose log is a single first entry. */
  predicate Holding(s: Server, t: nat, entry: LogEntry) {
    var n := s.rep.node;
    n.role == Follower && !n.degraded && n.currentTerm == t && n.log == [entry] && n.snapshotIndex == n.snapshotTerm == 0
  }

  lemma AcceptFirst(r: Replica, l: NodeId, t: nat, command: Command)
    requires !r.node.degraded && r.node.currentTerm == t && r.node.log == []
    requires r.node.snapshotIndex == r.node.snapshotTerm == 0
    ensures var (r', resp) := HandleAppendEntries(r, FirstRequest(l, t, command), AppendFaults(true, true, true, true));
      && resp == Some(AppendResponse(t, true, 0, 0)) && r'.node.log == [LogEntry(t, command)]
      && !r'.node.degraded && r'.node.currentTerm == t && r'.node.snapshotIndex == r'.node.snapshotTerm == 0
      && r'.node.role == Follower
  {
  }

  lemma Receive(run: seq<Cluster>, l: NodeId, f: NodeId, t: nat, command: Command) returns (run': seq<Cluster>)
    requires IsExecution(run) && f in Last(run).servers && l != f && Waiting(Last(run).servers[f], t)
    requires AppendReq(f, FirstRequest(l, t, command)) in Last(run).net
    ensures Continued(run, run')
    ensures AppendResp(f, FirstRequest(l, t, command), AppendResponse(t, true, 0, 0)) in Last(run').net
    ensures Last(run').servers.Keys == Last(run).servers.Keys
    ensures forall o :: o in Last(run).servers && o != f ==> Last(run').servers[o] == Last(run).servers[o]
    ensures Holding(Last(run').servers[f], t, LogEntry(t, command))
  {
    var c := Last(run);
    hide IsExecution;
    hide IsRun;
    AcceptFirst(c.servers[f].rep, l, t, command);
    hide HandleAppendEntries;
    run' := Act(run, DoAppend(f, FirstRequest(l, t, command), AppendFaults(true, true, true, true)));
  }

  lemma CommitFirst(cfg: Config, r: Replica, f: NodeId, t: nat, command: Command)
    requires f in cfg.peers && |cfg.Members()| == 3 && r.node.role == Leader && r.node.currentTerm == t
    requires r.node.log == [LogEntry(t, command)] && r.node.snapshotIndex == r.node.commitIndex == 0
    ensures var r' := OnAppendReply(cfg, r, f, FirstRequest(cfg.id, t, command), AppendResponse(t, true, 0, 0), true);
      && r'.node == r.node.(commitIndex := 1, matchIndex := r'.node.matchIndex, nextIndex := r'.node.nextIndex)
      && r'.disk == r.disk.(hard := r'.disk.hard)
      && (forall p :: p != f ==> Get(r'.node.nextIndex, p) == Get(r.node.nextIndex, p))
      && forall p :: Get(r'.node.matchIndex, p) <= Max(Get(r.node.matchIndex, p), 1)
  {
    var n := RecordMatch(r.node, f, 1);
    assert {f} <= Holders(cfg, n, 1);
    Safety.SubsetSize({f}, Holders(cfg, n, 1));
    assert CommitTarget(cfg, n, 1) == 1;
  }

  /** A leader that has committed its one entry. */
  predicate Decided(s: Server, t: nat, command: Command) {
    var n := s.rep.node;
    && n.role == Leader && n.currentTerm == t && n.log == [LogEntry(t, command)] && n.commitIndex == 1
    && n.snapshotIndex == n.lastApplied == 0 && n.snapshot.None? && n.pendingSnapshot.None? && !n.degraded
    && s.stream == [] && s.handled == 0 && s.service == NEW_SERVICE && !s.stopped
  }

  /** Reading a reply that is in the network. */
  lemma Reply(c: Cluster, l: NodeId, f: NodeId, req: AppendRequest, resp: AppendResponse)
    requires l in c.servers && AppendResp(f, req, resp) in c.net && req.leader == l
    ensures var a := DoAppendReply(l, f, req, resp, true);
      Enabled(c, a) && EffectOf(c, a) == AppendReplyEffect(c.history, c.servers[l], c.ConfigOf(l), f, req, resp, true)
  {
    hide AppendReplyEffect;
  }

  lemma ConfirmEffect(h: History, s: Server, cfg: Config, f: NodeId, t: nat, command: Command)
    requires f in cfg.peers && |cfg.Members()| == 3
    requires Alone(s.(rep := s.rep.(node := s.rep.node.(inFlight := {}))), t, command)
    ensures var e := AppendReplyEffect(
        h, s, cfg, f, FirstRequest(cfg.id, t, command), AppendResponse(t, true, 0, 0), true);
      var n, n' := s.rep.node, e.server.rep.node;
      && e.sent == {} && Decided(e.server, t, command) && n'.inFlight == n.inFlight
      && (forall p :: p != f ==> Get(n'.nextIndex, p) == Get(n.nextIndex, p))
      && forall p :: Get(n'.matchIndex, p) <= Max(Get(n.matchIndex, p), 1)
  {
    CommitFirst(cfg, s.rep, f, t, command);
    hide OnAppendReply;
  }

  /** Everything but server `id` stays; peers other than `f` keep their next index on `id`, and nothing else
      is in flight there than a request to `f`. */
  lemma Confirm(run: seq<Cluster>, l: NodeId, f: NodeId, t: nat, command: Command) returns (run': seq<Cluster>)
    requires IsExecution(run) && l in Last(run).servers && f in Last(run).servers && l != f && |Last(run).servers| == 3
    requires AppendResp(f, FirstRequest(l, t, command), AppendResponse(t, true, 0, 0)) in Last(run).net
    requires var s := Last(run).servers[l]; Alone(s.(rep := s.rep.(node := s.rep.node.(inFlight := {}))), t, command)
    ensures Continued(run, run') && Last(run').servers.Keys == Last(run).servers.Keys
    ensures forall o :: o in Last(run).servers && o != l ==> Last(run').servers[o] == Last(run).servers[o]
    ensures Decided(Last(run').servers[l], t, command)
    ensures Last(run').servers[l].rep.node.inFlight == Last(run).servers[l].rep.node.inFlight
    ensures forall p :: p != f ==>
      Get(Last(run').servers[l].rep.node.nextIndex, p) == Get(Last(run).servers[l].rep.node.nextIndex, p)
    ensures forall p ::
      Get(Last(run').servers[l].rep.node.matchIndex, p) <= Max(Get(Last(run).servers[l].rep.node.matchIndex, p), 1)
  {
    var c := Last(run);
    hide IsExecution;
    hide IsRun;
    MembersOf(c, l);
    ConfirmEffect(c.history, c.servers[l], c.ConfigOf(l), f, t, command);
    Reply(c, l, f, FirstRequest(l, t, command), AppendResponse(t, true, 0, 0));
    hide Alone;
    hide Decided;
    hide AppendReplyEffect;
    hide Enabled;
    hide EffectOf;
    run' := Act(run, DoAppendReply(l, f, FirstRequest(l, t, command), AppendResponse(t, true, 0, 0), true));
  }

  // ---------------------------------------------------------------- snapshots

  lemma Apply1(run: seq<Cluster>, l: NodeId, t: nat, key: string, value: string) returns (run': seq<Cluster>)
    requires IsExecution(run) && l in Last(run).servers && Decided(Last(run).servers[l], t, Put(key, value))
    ensures Continued(run, run')
    ensures var s := Last(run).servers[l]; var n := s.rep.node;
      Last(run').servers == Last(run).servers[l :=
        s.(rep := s.rep.(node := n.(lastApplied := 1)), stream := [ApplyCommand(1, Put(key, value))], handled := 1,
           service := Service(map[key := value], 1, 1))]
  {
    var c := Last(run);
    hide IsExecution;
    hide IsRun;
    DeliverFirst(c.history, c.servers[l], l, t, Put(key, value));
    hide DeliverEntryEffect;
    var run1 := Act(run, DoDeliverEntry(l));
    hide Decided;
    run' := Serve1(run1, l, key, value);
  }

  lemma Serve1(run: seq<Cluster>, l: NodeId, key: string, value: string) returns (run': seq<Cluster>)
    requires IsExecution(run) && l in Last(run).servers
    requires var s := Last(run).servers[l];
      s.stream == [ApplyCommand(1, Put(key, value))] && s.handled == 0 && s.service == NEW_SERVICE && !s.stopped
    ensures Continued(run, run')
    ensures var s := Last(run).servers[l];
      Last(run').servers == Last(run).servers[l := s.(service := Service(map[key := value], 1, 1), handled := 1)]
  {
    var c := Last(run);
    hide IsExecution;
    hide IsRun;
    ServeFirst(c.history, c.servers[l], key, value);
    hide ServeEffect;
    run' := Act(run, DoServe(l));
  }

  lemma DeliverFirst(h: History, s: Server, l: NodeId, t: nat, command: Command)
    requires Decided(s, t, command)
    ensures HasWork(s.rep.node) && ReadInBounds(s.rep.node)
    ensures var e := DeliverEntryEffect(h, s, l);
      e.server == s.(rep := s.rep.(node := s.rep.node.(lastApplied := 1)), stream := [ApplyCommand(1, command)])
      && e.sent == {}
  {
    assert [] + [ApplyCommand(1, command)] == [ApplyCommand(1, command)];
  }

  lemma ServeFirst(h: History, s: Server, key: string, value: string)
    requires s.stream == [ApplyCommand(1, Put(key, value))] && s.handled == 0 && s.service == NEW_SERVICE
    ensures var e := ServeEffect(h, s);
      e.server == s.(service := Service(map[key := value], 1, 1), handled := 1) && e.sent == {}
  {
  }

  function TakenAt(t: nat, store: Store): Snapshot { Snapshot(1, t, Encoded(store)) }

  lemma Compact(run: seq<Cluster>, l: NodeId, t: nat, command: Command, store: Store) returns (run': seq<Cluster>)
    requires IsExecution(run) && l in Last(run).servers
    requires var s := Last(run).servers[l]; var n := s.rep.node;
      && n.role == Leader && n.currentTerm == t && n.log == [LogEntry(t, command)] && n.snapshotIndex == 0
      && !s.stopped && s.service == Service(store, 1, 1)
    ensures Continued(run, run') && Last(run').servers.Keys == Last(run).servers.Keys
    ensures forall o :: o in Last(run).servers && o != l ==> Last(run').servers[o] == Last(run).servers[o]
    ensures var n, n' := Last(run).servers[l].rep.node, Last(run').servers[l].rep.node;
      n' == n.(log := [], snapshotIndex := 1, snapshotTerm := t, snapshot := Some(TakenAt(t, store)))
  {
    assert Last(run).servers[l].rep.node.log[1..] == [];
    hide IsExecution;
    hide IsRun;
    run' := Act(run, DoCompact(l, true, true));
  }

  lemma SendSnapshot(run: seq<Cluster>, l: NodeId, g: NodeId, t: nat, store: Store) returns (run': seq<Cluster>)
    requires IsExecution(run) && l in Last(run).servers && g in Last(run).servers && l != g
    requires var n := Last(run).servers[l].rep.node;
      && n.role == Leader && n.currentTerm == t && n.snapshotIndex == 1 && n.snapshot == Some(TakenAt(t, store))
      && Get(n.nextIndex, g) == 1 && g !in n.inFlight
    ensures Continued(run, run') && SnapReq(g, SnapshotRequest(t, l, TakenAt(t, store))) in Last(run').net
    ensures Last(run').servers.Keys == Last(run).servers.Keys
    ensures forall o :: o in Last(run).servers && o != l ==> Last(run').servers[o] == Last(run).servers[o]
    ensures var n := Last(run).servers[l].rep.node; Last(run').servers[l].rep.node == n.(inFlight := n.inFlight + {g})
  {
    hide IsExecution;
    hide IsRun;
    run' := Act(run, DoBuildSnapshot(l, g));
  }

  // ---------------------------------------------------------------- the run

  predicate Untried(s: Server) {
    var n := s.rep.node;
    && !n.degraded && n.snapshotIndex == n.snapshotTerm == n.commitIndex == n.lastApplied == 0
    && n.snapshot.None? && n.pendingSnapshot.None? && n.inFlight == {}
    && s.stream == [] && s.handled == 0 && s.service == NEW_SERVICE && !s.stopped && s.rep.disk.base == 0
  }

  /** A follower of term `t` to which nothing else has happened. */
  predicate Blank(s: Server, t: nat) {
    && Untried(s) && s.rep.node.role == Follower && s.rep.node.currentTerm == t
    && s.rep.node.log == s.rep.disk.log == []
  }

  /** A leader of term `t` with the given log, of which the others know nothing. */
  predicate Led(s: Server, cfg: Config, t: nat, log: seq<LogEntry>) {
    && Untried(s) && s.rep.node.role == Leader && s.rep.node.currentTerm == t && s.rep.node.log == log
    && forall p :: p in cfg.peers ==> Get(s.rep.node.matchIndex, p) == 0 && Get(s.rep.node.nextIndex, p) == 1
  }

  lemma VotedBlank(s: Server, t: nat, req: VoteRequest)
    requires Blank(s, t)
    ensures Blank(Voted(s, req), req.term)
  {
  }

  lemma BlankVotes(s: Server, t: nat, id: NodeId, v: Server, u: nat)
    requires Blank(s, t) && Blank(v, u)
    ensures Ballot(s, id).term == t + 1 && UpToDate(Ballot(s, id), v.rep.node)
  {
  }

  lemma LeadingLed(s: Server, cfg: Config, t: nat)
    requires Blank(s, t) && cfg.id !in cfg.peers
    ensures Led(Leading(s, cfg), cfg, t + 1, [])
  {
  }

  lemma GrownLed(s: Server, cfg: Config, t: nat, log: seq<LogEntry>, command: Command)
    requires Led(s, cfg, t, log) && cfg.id !in cfg.peers
    ensures Led(Grown(s, cfg.id, command), cfg, t, log + [LogEntry(t, command)])
  {
  }

  predicate ThreeServers(c: Cluster) { c.servers.Keys == {0, 1, 2} && |c.servers| == 3 }

  lemma Three(c: Cluster)
    requires c.servers.Keys == {0, 1, 2}
    ensures ThreeServers(c)
  {
    assert |c.servers| == |c.servers.Keys|;
  }

  lemma StartsBlank(d: Disk)
    requires d.hard == HardState(0, None, 0) && d.base == 0 && d.log == [] && d.snap.None?
    ensures Blank(Restarted(d), 0)
  {
    hide TrimmedLog;
    NothingToTrim(d);
  }

  lemma NothingToTrim(d: Disk)
    requires d.log == []
    ensures TrimmedLog(d, 0) == []
  {
    assert |TrimmedLog(d, 0)| == 0;
  }

  lemma Begin() returns (run: seq<Cluster>)
    ensures IsExecution(run) && IsRun(run) && ThreeServers(Last(run))
    ensures forall id :: id in {0, 1, 2} ==> Blank(Last(run).servers[id], 0)
  {
    hide Blank;
    hide Restarted;
    StartsBlank(EMPTY_DISK);
    var s := Restarted(EMPTY_DISK);
    var c := Cluster(map[0 := s, 1 := s, 2 := s], {}, EMPTY_HISTORY);
    assert Init(c);
    Three(c);
    run := [c];
  }

  /** A campaign among blank servers; the third one is not concerned. */
  lemma BlankCampaign(run: seq<Cluster>, id: NodeId, v: NodeId, t: nat, u: nat) returns (run': seq<Cluster>)
    requires IsExecution(run) && ThreeServers(Last(run)) && id in {0, 1, 2} && v in {0, 1, 2} && id != v
    requires Blank(Last(run).servers[id], t) && Blank(Last(run).servers[v], u) && u <= t
    ensures Continued(run, run') && ThreeServers(Last(run')) && Last(run').ConfigOf(id) == Last(run).ConfigOf(id)
    ensures Led(Last(run').servers[id], Last(run).ConfigOf(id), t + 1, [])
    ensures Blank(Last(run').servers[v], t + 1)
    ensures forall o :: o in {0, 1, 2} && o != id && o != v ==> Last(run').servers[o] == Last(run).servers[o]
  {
    var c := Last(run);
    hide IsExecution;
    hide IsRun;
    hide UpToDate;
    BlankVotes(c.servers[id], t, id, c.servers[v], u);
    LeadingLed(c.servers[id], c.ConfigOf(id), t);
    VotedBlank(c.servers[v], u, Ballot(c.servers[id], id));
    run' := Campaign(run, id, v);
    hide Leading;
    hide Voted;
    hide Led;
    hide Blank;
    Three(Last(run'));
  }

  lemma LedPropose(run: seq<Cluster>, id: NodeId, t: nat, log: seq<LogEntry>, command: Command)
    returns (run': seq<Cluster>)
    requires IsExecution(run) && ThreeServers(Last(run)) && id in {0, 1, 2}
    requires Led(Last(run).servers[id], Last(run).ConfigOf(id), t, log)
    ensures Continued(run, run') && ThreeServers(Last(run')) && Last(run').ConfigOf(id) == Last(run).ConfigOf(id)
    ensures Led(Last(run').servers[id], Last(run).ConfigOf(id), t, log + [LogEntry(t, command)])
    ensures forall o :: o in {0, 1, 2} && o != id ==> Last(run').servers[o] == Last(run).servers[o]
  {
    var c := Last(run);
    hide IsExecution;
    hide IsRun;
    GrownLed(c.servers[id], c.ConfigOf(id), t, log, command);
    run' := Propose(run, id, command);
    hide Grown;
    hide Led;
    Three(Last(run'));
  }

  /** A leader's one entry is taken over by `f` and committed; the third server `g` is not concerned. */
  lemma Settle(run: seq<Cluster>, l: NodeId, f: NodeId, g: NodeId, t: nat, command: Command) returns (run': seq<Cluster>)
    requires IsExecution(run) && ThreeServers(Last(run)) && {l, f, g} == {0, 1, 2}
    requires Led(Last(run).servers[l], Last(run).ConfigOf(l), t, [LogEntry(t, command)]) && Blank(Last(run).servers[f], t)
    ensures Continued(run, run') && ThreeServers(Last(run')) && Decided(Last(run').servers[l], t, command)
    ensures Last(run').servers[g] == Last(run).servers[g]
    ensures Last(run').servers[l].rep.node.inFlight == {f} && Get(Last(run').servers[l].rep.node.nextIndex, g) == 1
    ensures Holding(Last(run').servers[f], t, LogEntry(t, command))
    ensures forall p :: p in {f, g} ==> Get(Last(run').servers[l].rep.node.matchIndex, p) <= 1
  {
    hide NextAt;
    hide StepAt;
    hide Init;
    hide Decided;
    assert l in Last(run).servers && f in Last(run).servers && g in Last(run).servers;
    assert l != f && g != f && l != g by { DistinctThree(l, f, g); }
    var r1 := Send(run, l, f, t, command);
    var r2 := Receive(r1, l, f, t, command);
    Three(Last(r2));
    run' := Confirm(r2, l, f, t, command);
    Three(Last(run'));
  }

  lemma DistinctThree(l: NodeId, f: NodeId, g: NodeId)
    requires {l, f, g} == {0, 1, 2}
    ensures l != f && f != g && l != g
  {
    assert |{0, 1, 2}| == 3;
  }
}
