/** The cluster as a transition system.

    Each action is one locked section of one server. The network is the set of all messages ever
    sent, so messages can be lost, delayed, repeated and reordered. `History` records what happened
    and is never read by a server: it only serves to state and prove properties of runs.
  */
module Cluster {
  import opened Types
  import opened NodeModel
  import opened ServiceModel

  datatype Message =
    | VoteReq(vreq: VoteRequest)
    | VoteResp(voter: NodeId, vreq: VoteRequest, vresp: VoteResponse)
    | AppendReq(to: NodeId, areq: AppendRequest)
    | AppendResp(from: NodeId, areq: AppendRequest, aresp: AppendResponse)
    | SnapReq(to: NodeId, sreq: SnapshotRequest)
    | SnapResp(from: NodeId, sreq: SnapshotRequest, sresp: SnapshotResponse)

  /** The local state of a running candidate loop: its term, who answered and who said yes. */
  datatype Tally = Tally(term: nat, granted: set<NodeId>, answered: set<NodeId>)

  /** A member: replica, candidate loop, messages sent to the state machine since the last start,
      how many of them the KV service has consumed, and that service. */
  datatype Server = Server(
    rep: Replica, tally: Option<Tally>, stream: seq<ApplyMsg>, handled: nat, service: Service, stopped: bool)

  // ---------------------------------------------------------------- history

  datatype Key = Key(node: NodeId, term: nat)

  datatype Position = Position(term: nat, index: nat)

  /** An election won: the leader, its log at that moment and the voters. */
  datatype Election = Election(leader: NodeId, log: seq<LogEntry>, quorum: set<NodeId>)

  /** The highest index a term's leader has committed, and the members that held it. */
  datatype Decision = Decision(index: nat, quorum: set<NodeId>)

  datatype Delivery = Delivery(node: NodeId, index: nat, command: Command)

  datatype History = History(
    ballots: map<Key, Position>,        // candidate and term -> last log position it stood with
    votes: map<Key, NodeId>,            // voter and term -> candidate
    elections: map<nat, Election>,      // term -> the election won in it
    logs: map<nat, seq<LogEntry>>,      // term -> the log of that term's leader
    acks: map<Key, nat>,                // follower and term -> highest index acknowledged from its own log
    decisions: map<nat, Decision>,      // term -> highest index committed by that term's leader
    committed: seq<LogEntry>,           // everything ever committed
    delivered: set<Delivery>)           // every command ever handed to a state machine

  datatype Cluster = Cluster(servers: map<NodeId, Server>, net: set<Message>, history: History) {
    function ConfigOf(id: NodeId): Config { Config(id, servers.Keys - {id}) }
  }

  function LogOf(h: History, term: nat): seq<LogEntry> { if term in h.logs then h.logs[term] else [] }

  /** The uncompacted log of a node: the committed prefix its snapshot stands for, then its own entries. */
  function Full(h: History, n: Node): seq<LogEntry> {
    h.committed[..Min(n.snapshotIndex, |h.committed|)] + n.log
  }

  /** The uncompacted log of a server. */
  function FullOf(c: Cluster, id: NodeId): seq<LogEntry>
    requires id in c.servers
  {
    Full(c.history, c.servers[id].rep.node)
  }

  function Elect(h: History, term: nat, leader: NodeId, log: seq<LogEntry>, quorum: set<NodeId>): History {
    h.(elections := h.elections[term := Election(leader, log, quorum)], logs := h.logs[term := log])
  }

  function RecordAck(h: History, id: NodeId, term: nat, index: nat): History {
    var k := Key(id, term);
    h.(acks := h.acks[k := if k in h.acks then Max(h.acks[k], index) else index])
  }

  function Decide(h: History, term: nat, index: nat, quorum: set<NodeId>): History {
    h.(decisions := h.decisions[term := Decision(index, quorum)],
       committed := if |h.committed| < index <= |LogOf(h, term)| then LogOf(h, term)[..index] else h.committed)
  }

  /** Record a commit if the leader's commit index moved. */
  function RecordCommit(h: History, cfg: Config, before: Node, after: Node): History {
    if after.commitIndex > before.commitIndex
    then Decide(h, after.currentTerm, after.commitIndex, Holders(cfg, after, after.commitIndex) + {cfg.id})
    else h
  }

  // ---------------------------------------------------------------- actions

  datatype Action =
    | DoTimeout(id: NodeId)
    | DoStartElection(id: NodeId, ok: bool)
    | DoVote(id: NodeId, vreq: VoteRequest, termOk: bool, voteOk: bool)
    | DoCountVote(id: NodeId, voter: NodeId, vreq: VoteRequest, vresp: VoteResponse, ok: bool)
    | DoStartCommand(id: NodeId, command: Command, appendOk: bool, commitOk: bool)
    | DoBuildAppend(id: NodeId, peer: NodeId)
    | DoAppend(id: NodeId, areq: AppendRequest, faults: AppendFaults)
    | DoAppendReply(id: NodeId, peer: NodeId, areq: AppendRequest, aresp: AppendResponse, ok: bool)
    | DoRpcDone(id: NodeId, peer: NodeId)
    | DoBuildSnapshot(id: NodeId, peer: NodeId)
    | DoInstall(id: NodeId, sreq: SnapshotRequest, sfaults: SnapshotFaults)
    | DoInstallReply(id: NodeId, peer: NodeId, sreq: SnapshotRequest, sresp: SnapshotResponse, ok: bool)
    | DoCompact(id: NodeId, saveOk: bool, setLogOk: bool)
    | DoDeliverSnapshot(id: NodeId)
    | DoDeliverEntry(id: NodeId)
    | DoServe(id: NodeId)
    | DoRestart(id: NodeId)

  /** When an action can happen. An access outside the retained log is a crash of the process, so
      the actions that read the log ask for it to be in bounds and a crash is `DoRestart`. */
  predicate Enabled(c: Cluster, a: Action) {
    && a.id in c.servers
    && var s := c.servers[a.id];
    var n := s.rep.node;
    match a
    case DoTimeout(_) => n.role == Follower
    case DoStartElection(_, _) => n.role != Leader
    case DoVote(id, req, _, _) => VoteReq(req) in c.net && req.candidate != id
    case DoCountVote(id, from, req, resp, _) =>
      && VoteResp(from, req, resp) in c.net
      && s.tally.Some?
      && req.candidate == id
      && req.term == s.tally.value.term
      && from !in s.tally.value.answered
    case DoStartCommand(_, _, _, _) => true
    case DoBuildAppend(id, peer) => peer in c.servers && peer != id && (Builds(n, peer) ==> SliceInBounds(n, peer))
    case DoAppend(id, req, _) => AppendReq(id, req) in c.net
    case DoAppendReply(id, peer, req, resp, _) => AppendResp(peer, req, resp) in c.net && req.leader == id
    case DoRpcDone(_, _) => true
    case DoBuildSnapshot(id, peer) =>
      peer in c.servers && peer != id && (n.snapshotIndex != 0 ==> n.snapshot.Some?)
    case DoInstall(id, req, _) => SnapReq(id, req) in c.net
    case DoInstallReply(id, peer, req, resp, _) => SnapResp(peer, req, resp) in c.net && req.leader == id
    case DoCompact(_, _, _) => !s.stopped
    case DoDeliverSnapshot(_) => n.pendingSnapshot.Some?
    case DoDeliverEntry(_) => n.pendingSnapshot.None? && HasWork(n) && ReadInBounds(n)
    case DoServe(_) => !s.stopped && s.handled < |s.stream|
    case DoRestart(_) => true
  }

  /** What an action does to the acting server, to the history and to the network. */
  datatype Effect = Effect(server: Server, history: History, sent: set<Message>)

  function StartElectionEffect(h: History, s: Server, id: NodeId, ok: bool): Effect {
    var r := StartElection(id, s.rep, ok);
    if !ok then Effect(s.(rep := r, tally := None), h, {})
    else
      var n := r.node;
      var k := Key(id, n.currentTerm);
      Effect(
        s.(rep := r, tally := Some(Tally(n.currentTerm, {}, {}))),
        h.(ballots := h.ballots[k := Position(n.LastTerm(), n.LastIndex())], votes := h.votes[k := id]),
        {VoteReq(VoteRequest(n.currentTerm, id, n.LastIndex(), n.LastTerm()))})
  }

  function VoteEffect(h: History, s: Server, id: NodeId, req: VoteRequest, termOk: bool, voteOk: bool): Effect {
    var (r, resp) := HandleRequestVote(s.rep, req, termOk, voteOk);
    Effect(
      s.(rep := r),
      if resp.Some? && resp.value.granted then h.(votes := h.votes[Key(id, req.term) := req.candidate]) else h,
      if resp.Some? then {VoteResp(id, req, resp.value)} else {})
  }

  /** One answer read by the candidate loop. */
  function CountVoteEffect(h: History, s: Server, cfg: Config, from: NodeId, resp: VoteResponse, ok: bool): Effect
    requires s.tally.Some?
  {
    var n := s.rep.node;
    var t := s.tally.value;
    var granted := if resp.granted then t.granted + {from} else t.granted;
    if resp.term > n.currentTerm then Effect(s.(rep := StepDown(s.rep, resp.term, ok), tally := None), h, {})
    else if n.role != Candidate then Effect(s.(tally := None), h, {})
    else if 1 + |granted| >= cfg.QuorumSize() then
      Effect(
        s.(rep := s.rep.(node := BecomeLeader(cfg, n)), tally := None),
        Elect(h, n.currentTerm, cfg.id, Full(h, n), granted + {cfg.id}), {})
    else Effect(s.(tally := Some(Tally(t.term, granted, t.answered + {from}))), h, {})
  }

  function StartCommandEffect(h: History, s: Server, cfg: Config, command: Command, appendOk: bool, commitOk: bool)
    : Effect
  {
    var n := s.rep.node;
    var (r, index) := StartCommand(cfg, s.rep, command, appendOk, commitOk);
    if index.None? then Effect(s, h, {})
    else
      var t := n.currentTerm;
      var h1 := h.(logs := h.logs[t := LogOf(h, t) + [LogEntry(t, command)]]);
      Effect(s.(rep := r), RecordCommit(RecordAck(h1, cfg.id, t, index.value), cfg, n, r.node), {})
  }

  function BuildAppendEffect(h: History, s: Server, id: NodeId, peer: NodeId): Effect
    requires Builds(s.rep.node, peer) ==> SliceInBounds(s.rep.node, peer)
  {
    var (n, req) := BuildAppend(id, s.rep.node, peer);
    Effect(s.(rep := s.rep.(node := n)), h, if req.Some? then {AppendReq(peer, req.value)} else {})
  }

  /** A successful append is recorded as an acknowledgement when it reaches above the snapshot, that is,
      when the acknowledged entry is in the follower's own log. */
  function AppendEffect(h: History, s: Server, id: NodeId, req: AppendRequest, f: AppendFaults): Effect {
    var (r, resp) := HandleAppendEntries(s.rep, req, f);
    var last := req.prevLogIndex + |req.entries|;
    Effect(
      s.(rep := r),
      if resp.Some? && resp.value.success && last > r.node.snapshotIndex then RecordAck(h, id, req.term, last) else h,
      if resp.Some? then {AppendResp(id, req, resp.value)} else {})
  }

  function AppendReplyEffect(
    h: History, s: Server, cfg: Config, peer: NodeId, req: AppendRequest, resp: AppendResponse, ok: bool): Effect
  {
    var r := OnAppendReply(cfg, s.rep, peer, req, resp, ok);
    Effect(s.(rep := r), RecordCommit(h, cfg, s.rep.node, r.node), {})
  }

  function BuildSnapshotEffect(h: History, s: Server, id: NodeId, peer: NodeId): Effect
    requires s.rep.node.snapshotIndex != 0 ==> s.rep.node.snapshot.Some?
  {
    var (n, req) := BuildSnapshot(id, s.rep.node, peer);
    Effect(s.(rep := s.rep.(node := n)), h, if req.Some? then {SnapReq(peer, req.value)} else {})
  }

  function InstallEffect(h: History, s: Server, id: NodeId, req: SnapshotRequest, f: SnapshotFaults): Effect {
    var (r, resp) := HandleInstallSnapshot(s.rep, req, f);
    Effect(s.(rep := r), h, if resp.Some? then {SnapResp(id, req, resp.value)} else {})
  }

  /** The KV service hands its serialized store and its last applied index to the node; an error stops it. */
  function CompactEffect(h: History, s: Server, saveOk: bool, setLogOk: bool): Effect {
    var (r, done) := TakeSnapshot(s.rep, s.service.lastAppliedIndex, Encoded(s.service.store), saveOk, setLogOk);
    if done then Effect(s.(rep := r, service := s.service.(appliedSinceSnap := 0)), h, {})
    else Effect(s.(rep := r, stopped := true), h, {})
  }

  function DeliverSnapshotEffect(h: History, s: Server): Effect
    requires s.rep.node.pendingSnapshot.Some?
  {
    var (n, msg) := DeliverSnapshot(s.rep.node);
    Effect(s.(rep := s.rep.(node := n), stream := s.stream + [msg]), h, {})
  }

  function DeliverEntryEffect(h: History, s: Server, id: NodeId): Effect
    requires HasWork(s.rep.node) && ReadInBounds(s.rep.node)
  {
    var (n, msg) := DeliverEntry(s.rep.node);
    Effect(
      s.(rep := s.rep.(node := n), stream := s.stream + [msg]),
      h.(delivered := h.delivered + {Delivery(id, msg.index, msg.command)}), {})
  }

  function ServeEffect(h: History, s: Server): Effect
    requires s.handled < |s.stream|
  {
    match HandleApply(s.service, s.stream[s.handled])
    case None => Effect(s.(stopped := true), h, {})
    case Some(svc) => Effect(s.(service := svc, handled := s.handled + 1), h, {})
  }

  function Restarted(d: Disk): Server { Server(Replica(NewNode(d), d), None, [], 0, NEW_SERVICE, false) }

  function EffectOf(c: Cluster, a: Action): Effect
    requires Enabled(c, a)
  {
    var h := c.history;
    var s := c.servers[a.id];
    var cfg := c.ConfigOf(a.id);
    match a
    case DoTimeout(_) => Effect(s.(rep := s.rep.(node := Timeout(s.rep.node)), tally := None), h, {})
    case DoStartElection(id, ok) => StartElectionEffect(h, s, id, ok)
    case DoVote(id, req, termOk, voteOk) => VoteEffect(h, s, id, req, termOk, voteOk)
    case DoCountVote(_, from, _, resp, ok) => CountVoteEffect(h, s, cfg, from, resp, ok)
    case DoStartCommand(_, command, appendOk, commitOk) => StartCommandEffect(h, s, cfg, command, appendOk, commitOk)
    case DoBuildAppend(id, peer) => BuildAppendEffect(h, s, id, peer)
    case DoAppend(id, req, f) => AppendEffect(h, s, id, req, f)
    case DoAppendReply(_, peer, req, resp, ok) => AppendReplyEffect(h, s, cfg, peer, req, resp, ok)
    case DoRpcDone(_, peer) => Effect(s.(rep := s.rep.(node := RpcDone(s.rep.node, peer))), h, {})
    case DoBuildSnapshot(id, peer) => BuildSnapshotEffect(h, s, id, peer)
    case DoInstall(id, req, f) => InstallEffect(h, s, id, req, f)
    case DoInstallReply(_, peer, req, resp, ok) =>
      Effect(s.(rep := OnSnapshotReply(s.rep, peer, req, resp, ok)), h, {})
    case DoCompact(_, saveOk, setLogOk) => CompactEffect(h, s, saveOk, setLogOk)
    case DoDeliverSnapshot(_) => DeliverSnapshotEffect(h, s)
    case DoDeliverEntry(id) => DeliverEntryEffect(h, s, id)
    case DoServe(_) => ServeEffect(h, s)
    case DoRestart(_) => Effect(Restarted(s.rep.disk), h, {})
  }

  function Apply(c: Cluster, a: Action): Cluster
    requires Enabled(c, a)
  {
    var e := EffectOf(c, a);
    Cluster(c.servers[a.id := e.server], c.net + e.sent, e.history)
  }

  // ---------------------------------------------------------------- runs

  const EMPTY_DISK := Disk(HardState(0, None, 0), 0, [], None)

  const EMPTY_HISTORY := History(map[], map[], map[], map[], map[], map[], [], {})

  predicate Init(c: Cluster) {
    && (forall id :: id in c.servers ==> c.servers[id] == Restarted(EMPTY_DISK))
    && c.net == {}
    && c.history == EMPTY_HISTORY
  }

  /** Any step the program can take. */
  ghost predicate Step(c: Cluster, c': Cluster) { exists a :: Enabled(c, a) && c' == Apply(c, a) }

  ghost predicate StepAt(run: seq<Cluster>, i: nat)
    requires i + 1 < |run|
  {
    Step(run[i], run[i + 1])
  }

  /** A finite execution of the program, of any length, from the initial state. */
  ghost predicate IsExecution(run: seq<Cluster>) {
    && 0 < |run|
    && Init(run[0])
    && forall i {:trigger StepAt(run, i)} :: 0 <= i < |run| - 1 ==> StepAt(run, i)
  }

  /** The stored snapshot is the running node's and the stored log does not start above it. */
  predicate Saved(r: Replica) { r.disk.snap == r.node.snapshot && r.disk.base <= r.node.snapshotIndex }

  /** A restart would restore the snapshot and the log of the running node. */
  predicate Mirror(r: Replica) { Saved(r) && TrimmedLog(r.disk, r.node.snapshotIndex) == r.node.log }

  /** A restart finds the log of the node that stopped. Log writes count from the snapshot index while the
      store counts from its own base, so after a log rewrite that failed the two can drift apart. */
  predicate Recovers(c: Cluster, a: Action)
    requires Enabled(c, a)
  {
    a.DoRestart? ==> Mirror(c.servers[a.id].rep)
  }

  ghost predicate Next(c: Cluster, c': Cluster) {
    exists a :: Enabled(c, a) && Recovers(c, a) && c' == Apply(c, a)
  }

  ghost predicate NextAt(run: seq<Cluster>, i: nat)
    requires i + 1 < |run|
  {
    Next(run[i], run[i + 1])
  }

  /** An execution in which no server restarts from a stored log that has drifted from the log it had. Writes
      that let a store drift, and everything that servers do while their stores have drifted, are included. */
  ghost predicate IsRun(run: seq<Cluster>) {
    && 0 < |run|
    && Init(run[0])
    && forall i {:trigger NextAt(run, i)} :: 0 <= i < |run| - 1 ==> NextAt(run, i)
  }
}
