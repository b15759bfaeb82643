/** What the locked sections owe their callers: when a vote must be granted, an entry accepted, an index committed
    and a leadership taken over, and what every answer says. The laws speak of fields, logs and counts of members,
    not of the tests the sections make. */
module Obligations {
  import opened Types
  import opened NodeModel
  import opened Cluster
  import opened Invariants
  import opened Compaction
  import Safety
  import StepsCommit
  import StepsElection
  import StepsReplication

  // ---------------------------------------------------------------- majorities

  /** A quorum is the smallest number of members that is more than half of them. */
  lemma QuorumIsMajority(cfg: Config, k: nat)
    ensures k >= cfg.QuorumSize() <==> 2 * k > |cfg.Members()|
  {
  }

  /** Members of the cluster that, together with the leader, are a majority and hold the log up to `i`. */
  predicate Backs(cfg: Config, matchIndex: map<NodeId, nat>, i: nat, q: set<NodeId>) {
    q <= cfg.peers && (forall p :: p in q ==> Get(matchIndex, p) >= i) && 2 * (|q| + 1) > |cfg.peers| + 1
  }

  /** Index `i` holds an entry of the node's term above its commit index. */
  predicate Open(n: Node, i: nat) {
    && n.snapshotIndex <= n.commitIndex < i <= n.LastIndex()
    && n.log[i - n.snapshotIndex - 1].term == n.currentTerm
  }

  lemma MemberCount(cfg: Config)
    requires cfg.id !in cfg.peers
    ensures |cfg.Members()| == |cfg.peers| + 1
  {
  }

  lemma BackedCounts(cfg: Config, n: Node, i: nat, q: set<NodeId>)
    requires cfg.id !in cfg.peers && Backs(cfg, n.matchIndex, i, q)
    ensures 1 + |Holders(cfg, n, i)| >= cfg.QuorumSize()
  {
    MemberCount(cfg);
    assert q <= Holders(cfg, n, i);
    Safety.SubsetSize(q, Holders(cfg, n, i));
    QuorumIsMajority(cfg, 1 + |Holders(cfg, n, i)|);
  }

  lemma HoldersBack(cfg: Config, n: Node, i: nat)
    requires cfg.id !in cfg.peers && 1 + |Holders(cfg, n, i)| >= cfg.QuorumSize()
    ensures Backs(cfg, n.matchIndex, i, Holders(cfg, n, i))
  {
    MemberCount(cfg);
    QuorumIsMajority(cfg, 1 + |Holders(cfg, n, i)|);
  }

  // ---------------------------------------------------------------- committing

  /** The commit rule: the new commit index is not below any entry of the leader's term that a majority is known to
      hold; if it moved, it is such an entry; it is written, or the node is degraded. */
  ghost predicate CommitsAll(cfg: Config, n: Node, r': Replica) {
    var n' := r'.node;
    && (forall i: nat, q {:trigger Backs(cfg, n.matchIndex, i, q)} :: Open(n, i) && Backs(cfg, n.matchIndex, i, q) ==>
          i <= n'.commitIndex)
    && n.commitIndex <= n'.commitIndex
    && (n'.commitIndex != n.commitIndex ==>
          && Open(n, n'.commitIndex)
          && (exists q :: Backs(cfg, n.matchIndex, n'.commitIndex, q))
          && (r'.disk.hard == n'.Hard() || n'.degraded))
  }

  lemma CommitRule(cfg: Config, r: Replica, ok: bool)
    requires cfg.id !in cfg.peers && r.node.snapshotIndex <= r.node.commitIndex
    ensures var r' := AdvanceCommit(cfg, r, ok);
      && CommitsAll(cfg, r.node, r')
      && r'.node == r.node.(commitIndex := r'.node.commitIndex, degraded := r'.node.degraded)
      && (ok ==> r'.node.degraded == r.node.degraded)
  {
    var n, target := r.node, CommitTarget(cfg, r.node, r.node.LastIndex());
    StepsCommit.CommitTargetIsGreatest(cfg, n, n.LastIndex());
    forall i: nat, q {:trigger Backs(cfg, n.matchIndex, i, q)} | Open(n, i) && Backs(cfg, n.matchIndex, i, q)
      ensures i <= target
    {
      BackedCounts(cfg, n, i, q);
      assert Committable(cfg, n, i);
    }
    if target != n.commitIndex {
      HoldersBack(cfg, n, target);
    }
  }

  /** A success reply of the leader's own term moves the peer's progress to the last entry of the request, changes
      no other progress, and commits whatever a majority is then known to hold. */
  lemma ReplyCommits(cfg: Config, r: Replica, peer: NodeId, req: AppendRequest, resp: AppendResponse, ok: bool)
    requires cfg.id !in cfg.peers && r.node.snapshotIndex <= r.node.commitIndex && r.node.role == Leader
    requires req.term == r.node.currentTerm && resp.term <= req.term && resp.success
    ensures var r' := OnAppendReply(cfg, r, peer, req, resp, ok);
      var n, n', last := r.node, r'.node, req.prevLogIndex + |req.entries|;
      && last <= Get(n'.matchIndex, peer) && last < Get(n'.nextIndex, peer)
      && Get(n.matchIndex, peer) <= Get(n'.matchIndex, peer) && Get(n.nextIndex, peer) <= Get(n'.nextIndex, peer)
      && (forall p :: p != peer ==>
            Get(n'.matchIndex, p) == Get(n.matchIndex, p) && Get(n'.nextIndex, p) == Get(n.nextIndex, p))
      && n' == n.(matchIndex := n'.matchIndex, nextIndex := n'.nextIndex, commitIndex := n'.commitIndex,
                  degraded := n'.degraded)
      && CommitsAll(cfg, n.(matchIndex := n'.matchIndex), r')
  {
    var r1 := r.(node := RecordMatch(r.node, peer, req.prevLogIndex + |req.entries|));
    CommitRule(cfg, r1, ok);
    MatchRecorded(r.node, peer, req.prevLogIndex + |req.entries|);
    hide AdvanceCommit;
    hide RecordMatch;
    hide CommitsAll;
    SameProgress(cfg, r1.node, r.node.(matchIndex := r1.node.matchIndex), OnAppendReply(cfg, r, peer, req, resp, ok));
  }

  lemma MatchRecorded(n: Node, peer: NodeId, last: nat)
    ensures var n' := RecordMatch(n, peer, last);
      && last <= Get(n'.matchIndex, peer) && last < Get(n'.nextIndex, peer)
      && Get(n.matchIndex, peer) <= Get(n'.matchIndex, peer) && Get(n.nextIndex, peer) <= Get(n'.nextIndex, peer)
      && (forall p :: p != peer ==>
            Get(n'.matchIndex, p) == Get(n.matchIndex, p) && Get(n'.nextIndex, p) == Get(n.nextIndex, p))
      && n' == n.(matchIndex := n'.matchIndex, nextIndex := n'.nextIndex)
  {
  }

  /** What is committed depends on log, term, commit index and match indices only. */
  lemma SameProgress(cfg: Config, n: Node, m: Node, r': Replica)
    requires CommitsAll(cfg, n, r') && m.log == n.log && m.snapshotIndex == n.snapshotIndex
    requires m.commitIndex == n.commitIndex && m.currentTerm == n.currentTerm && m.matchIndex == n.matchIndex
    ensures CommitsAll(cfg, m, r')
  {
    assert forall i: nat :: Open(m, i) <==> Open(n, i);
  }

  /** A snapshot reply of the leader's own term moves the peer's progress to the snapshot. */
  lemma SnapshotReplyRecords(r: Replica, peer: NodeId, req: SnapshotRequest, resp: SnapshotResponse, ok: bool)
    requires r.node.role == Leader && req.term == r.node.currentTerm && resp.term <= req.term
    ensures var n, n', last := r.node, OnSnapshotReply(r, peer, req, resp, ok).node, req.snapshot.lastIncludedIndex;
      && last <= Get(n'.matchIndex, peer) && last < Get(n'.nextIndex, peer)
      && Get(n.matchIndex, peer) <= Get(n'.matchIndex, peer) && Get(n.nextIndex, peer) <= Get(n'.nextIndex, peer)
      && (forall p :: p != peer ==>
            Get(n'.matchIndex, p) == Get(n.matchIndex, p) && Get(n'.nextIndex, p) == Get(n.nextIndex, p))
      && n' == n.(matchIndex := n'.matchIndex, nextIndex := n'.nextIndex)
  {
    MatchRecorded(r.node, peer, req.snapshot.lastIncludedIndex);
    hide RecordMatch;
  }

  /** A proposal is accepted exactly by a leader in good order whose log write succeeds; it is then the last entry
      of the log, in memory and in the store, at the index that is returned. */
  lemma ProposalAccepted(cfg: Config, r: Replica, command: Command, appendOk: bool, commitOk: bool)
    requires cfg.id !in cfg.peers && r.node.snapshotIndex <= r.node.commitIndex
    ensures var (r', index) := StartCommand(cfg, r, command, appendOk, commitOk);
      var n, n' := r.node, r'.node;
      && (index.Some? <==> n.role == Leader && !n.degraded && appendOk)
      && (index.None? ==> r' == r)
      && (index.Some? ==>
            && n'.log == n.log + [LogEntry(n.currentTerm, command)] && index.value == n'.LastIndex()
            && r'.disk.log == r.disk.log + [LogEntry(n.currentTerm, command)]
            && n'.role == Leader && n'.currentTerm == n.currentTerm && n'.snapshotIndex == n.snapshotIndex
            && (forall p :: p != cfg.id ==> Get(n'.matchIndex, p) == Get(n.matchIndex, p))
            && CommitsAll(cfg, n.(log := n'.log, matchIndex := n'.matchIndex), r'))
  {
    var n := r.node;
    if n.role == Leader && !n.degraded && appendOk {
      var r1 := StepsCommit.Appended(cfg, r, LogEntry(n.currentTerm, command));
      CommitRule(cfg, r1, commitOk);
      hide AdvanceCommit;
      CommitKeepsStore(cfg, r1, commitOk);
      var r' := StartCommand(cfg, r, command, appendOk, commitOk).0;
      SameProgress(cfg, r1.node, n.(log := r'.node.log, matchIndex := r'.node.matchIndex), r');
    }
  }

  lemma CommitKeepsStore(cfg: Config, r: Replica, ok: bool)
    ensures AdvanceCommit(cfg, r, ok).disk == r.disk.(hard := AdvanceCommit(cfg, r, ok).disk.hard)
  {
    hide CommitTarget;
  }

  // ---------------------------------------------------------------- voting

  /** The last position a node votes by is that of its uncompacted log. */
  predicate LogIs(n: Node, full: seq<LogEntry>) {
    && n.snapshotIndex <= |full| && n.log == full[n.snapshotIndex..]
    && n.snapshotTerm == TermAt(full, n.snapshotIndex)
  }

  lemma LastOf(n: Node, full: seq<LogEntry>)
    requires LogIs(n, full)
    ensures n.LastIndex() == |full| && LastPosition(full) == Position(n.LastTerm(), n.LastIndex())
  {
  }

  /** The vote is still free for the candidate in the term of the request. */
  predicate Free(n: Node, req: VoteRequest) {
    n.currentTerm < req.term || (n.currentTerm == req.term && (n.votedFor == None || n.votedFor == Some(req.candidate)))
  }

  /** A request is granted exactly when the node is in good order, its term is not older, the term was written if it
      is newer, the vote is free, the candidate's last position is at least that of the voter's uncompacted log,
      and the vote was written. There is no answer exactly when the node is degraded or a write failed. */
  lemma VoteGrantedIff(r: Replica, full: seq<LogEntry>, req: VoteRequest, termOk: bool, voteOk: bool)
    requires LogIs(r.node, full)
    ensures var n := r.node;
      var (r', resp) := HandleRequestVote(r, req, termOk, voteOk);
      var deserved :=
        && Free(n, req) && AtLeast(Position(req.lastLogTerm, req.lastLogIndex), LastPosition(full));
      var written := req.term > n.currentTerm ==> termOk;
      && (resp.Some? <==> !n.degraded && written && (deserved ==> voteOk))
      && (resp.Some? && resp.value.granted <==> !n.degraded && written && deserved && voteOk)
      && (resp.Some? ==> resp.value.term == Max(n.currentTerm, req.term))
      && (resp.Some? && resp.value.granted ==>
            && r'.node.currentTerm == req.term && r'.node.votedFor == Some(req.candidate)
            && r'.disk.hard == r'.node.Hard())
      && (req.term > n.currentTerm && !n.degraded && termOk ==>
            r'.node.currentTerm == r'.disk.hard.currentTerm == req.term && r'.node.role == Follower)
      && (req.term <= n.currentTerm || n.degraded || !termOk ==> r'.node == n.(votedFor := r'.node.votedFor))
      && (!(resp.Some? && resp.value.granted) ==>
            r'.node.votedFor == if req.term > n.currentTerm && !n.degraded && termOk then None else n.votedFor)
  {
    LastOf(r.node, full);
  }

  /** A lost answer does no harm: the same request is granted again, and changes nothing. */
  lemma VoteRepeats(r: Replica, req: VoteRequest, termOk: bool, voteOk: bool, again: bool)
    requires HandleRequestVote(r, req, termOk, voteOk).1 == Some(VoteResponse(req.term, true))
    ensures var r' := HandleRequestVote(r, req, termOk, voteOk).0;
      HandleRequestVote(r', req, again, true) == (r', Some(VoteResponse(req.term, true)))
  {
  }

  // ---------------------------------------------------------------- answering appends and snapshots

  /** Every answer carries the later of the two terms, and there is one whenever the node is in good order and its
      writes succeed; a request that is not stale makes the node a follower in its term, durably. */
  lemma AppendAnswered(r: Replica, req: AppendRequest, f: AppendFaults)
    ensures var n := r.node;
      var (r', resp) := HandleAppendEntries(r, req, f);
      && (resp.Some? ==> resp.value.term == Max(n.currentTerm, req.term))
      && (resp.Some? && n.currentTerm < req.term ==> r'.disk.hard.currentTerm == req.term)
      && (!n.degraded && f == AppendFaults(true, true, true, true) ==> resp.Some?)
      && (n.degraded ==> resp.None? && r' == r)
      && (req.term < n.currentTerm ==> r' == r && (resp.Some? ==> !resp.value.success))
      && (!n.degraded && n.currentTerm <= req.term && (n.currentTerm < req.term ==> f.termOk) ==>
            && r'.node.currentTerm == req.term && r'.node.role == Follower
            && r'.node.votedFor == (if n.currentTerm < req.term then None else n.votedFor)
            && (n.currentTerm < req.term ==> r'.disk.hard.currentTerm == req.term))
  {
    hide Repeated;
    hide Fresh;
    hide FirstIndexOfTerm;
  }

  lemma InstallAnswered(r: Replica, req: SnapshotRequest, f: SnapshotFaults)
    ensures var n := r.node;
      var (r', resp) := HandleInstallSnapshot(r, req, f);
      && (resp.Some? ==> resp.value.term == Max(n.currentTerm, req.term))
      && (resp.Some? && n.currentTerm < req.term ==> r'.disk.hard.currentTerm == req.term)
      && (!n.degraded && f.termOk && f.saveOk ==> resp.Some?)
      && (n.degraded ==> resp.None? && r' == r)
      && (req.term < n.currentTerm ==> r' == r)
      && (!n.degraded && n.currentTerm <= req.term && (n.currentTerm < req.term ==> f.termOk) ==>
            && r'.node.currentTerm == req.term && r'.node.role == Follower
            && r'.node.votedFor == (if n.currentTerm < req.term then None else n.votedFor)
            && (n.currentTerm < req.term ==> r'.disk.hard.currentTerm == req.term))
  {
    hide KeptLog;
  }

  /** Reading an answer of a later term ends a leadership or candidacy: the node follows in that term, with no vote;
      the term is written, or the node is degraded. */
  predicate Deposed(r': Replica, term: nat) {
    && r'.node.currentTerm == term && r'.node.role == Follower && r'.node.votedFor == None
    && ((r'.disk.hard.currentTerm == term && r'.disk.hard.votedFor == None) || r'.node.degraded)
  }

  lemma LaterTermDeposes(
    cfg: Config, r: Replica, peer: NodeId, req: AppendRequest, resp: AppendResponse, sreq: SnapshotRequest,
    sresp: SnapshotResponse, ok: bool)
    ensures resp.term > r.node.currentTerm ==> Deposed(OnAppendReply(cfg, r, peer, req, resp, ok), resp.term)
    ensures sresp.term > r.node.currentTerm ==> Deposed(OnSnapshotReply(r, peer, sreq, sresp, ok), sresp.term)
  {
    hide AdvanceCommit;
    hide BackOff;
  }

  // ---------------------------------------------------------------- accepting entries

  /** Entry j of the request is in the log already, by term. */
  predicate ThereAt(full: seq<LogEntry>, req: AppendRequest, j: nat)
    requires j < |req.entries|
  {
    req.prevLogIndex + j < |full| && full[req.prevLogIndex + j].term == req.entries[j].term
  }

  predicate AllThere(full: seq<LogEntry>, req: AppendRequest) {
    forall j {:trigger ThereAt(full, req, j)} :: 0 <= j < |req.entries| ==> ThereAt(full, req, j)
  }

  /** Some entry of the request meets an entry of another term. */
  predicate Clashes(full: seq<LogEntry>, req: AppendRequest) {
    exists j {:trigger ThereAt(full, req, j)} ::
      0 <= j < |req.entries| && req.prevLogIndex + j < |full| && !ThereAt(full, req, j)
  }

  /** The log continues the request: the entry before the new ones exists with the stated term. */
  predicate FollowsOn(full: seq<LogEntry>, req: AppendRequest) {
    req.prevLogIndex <= |full| && req.prevLogTerm == TermAt(full, req.prevLogIndex)
  }

  /** The log writes the request calls for succeed. */
  predicate Written(full: seq<LogEntry>, req: AppendRequest, f: AppendFaults) {
    (AllThere(full, req) || f.appendOk) && (Clashes(full, req) ==> f.truncateOk)
  }

  /** Entry k of the request is the first that is not in the log. */
  predicate FirstMissing(full: seq<LogEntry>, req: AppendRequest, k: nat) {
    && k < |req.entries| && req.prevLogIndex + k <= |full| && !ThereAt(full, req, k)
    && forall j {:trigger ThereAt(full, req, j)} :: 0 <= j < k ==> ThereAt(full, req, j)
  }

  /** The log up to entry k of the request, then the request from there on. */
  function EndWith(full: seq<LogEntry>, req: AppendRequest, k: nat): seq<LogEntry>
    requires k <= |req.entries| && req.prevLogIndex + k <= |full|
  {
    full[..req.prevLogIndex + k] + req.entries[k..]
  }

  /** A log that has all the entries stays as it is, however much longer; otherwise it ends with the request, from the
      first missing entry on. */
  predicate TakenOver(full: seq<LogEntry>, req: AppendRequest, full': seq<LogEntry>) {
    && (AllThere(full, req) ==> full' == full)
    && forall k | 0 <= k < |req.entries| && FirstMissing(full, req, k) :: full' == EndWith(full, req, k)
  }

  lemma OneFirstMissing(full: seq<LogEntry>, req: AppendRequest, k: nat, i: nat)
    requires FirstMissing(full, req, k)
    ensures !AllThere(full, req) && (FirstMissing(full, req, i) ==> i == k)
  {
    assert !ThereAt(full, req, k);
  }

  /** The scan of the handler stops at the first missing entry. */
  lemma ScanFindsMissing(full: seq<LogEntry>, req: AppendRequest)
    requires req.prevLogIndex <= |full|
    ensures var k := Repeated(full, req.prevLogIndex, req.entries);
      && (k == |req.entries| ==> AllThere(full, req) && !Clashes(full, req))
      && (k < |req.entries| ==>
            && FirstMissing(full, req, k) && !AllThere(full, req)
            && (Clashes(full, req) <==> req.prevLogIndex + k < |full|))
  {
    var k := Repeated(full, req.prevLogIndex, req.entries);
    StepsReplication.RepeatedTerms(full, req.prevLogIndex, req.entries);
    hide Repeated;
    assert forall j {:trigger ThereAt(full, req, j)} :: 0 <= j < k ==> ThereAt(full, req, j);
    assert k < |req.entries| ==> !ThereAt(full, req, k);
  }

  lemma ScanTakesOver(full: seq<LogEntry>, req: AppendRequest, full': seq<LogEntry>)
    requires req.prevLogIndex <= |full|
    requires var k := Repeated(full, req.prevLogIndex, req.entries);
      full' == if k == |req.entries| then full else EndWith(full, req, k)
    ensures TakenOver(full, req, full')
  {
    var k := Repeated(full, req.prevLogIndex, req.entries);
    ScanFindsMissing(full, req);
    hide Repeated;
    hide EndWith;
    forall i | 0 <= i < |req.entries| && FirstMissing(full, req, i) ensures full' == EndWith(full, req, i) {
      OneFirstMissing(full, req, i, k);
    }
  }

  lemma MergeWritten(r: Replica, req: AppendRequest, f: AppendFaults)
    requires r.node.snapshotIndex == 0 && req.prevLogIndex <= |r.node.log|
    ensures Merge(r, req, f.truncateOk, f.appendOk).1 <==> Written(r.node.log, req, f)
    ensures Merge(r, req, f.truncateOk, f.appendOk).1 ==>
      TakenOver(r.node.log, req, Merge(r, req, f.truncateOk, f.appendOk).0.node.log)
  {
    var log := r.node.log;
    assert Start(r.node, req) == req.prevLogIndex && Fresh(r.node, req) == req.entries;
    hide Repeated;
    hide TakenOver;
    hide AllThere;
    hide Clashes;
    hide FirstMissing;
    ScanFindsMissing(log, req);
    StepsReplication.MergeLog(r, req, f.truncateOk, f.appendOk);
    if Merge(r, req, f.truncateOk, f.appendOk).1 {
      ScanTakesOver(log, req, Merge(r, req, f.truncateOk, f.appendOk).0.node.log);
    }
  }

  /** On the uncompacted log: a request is accepted exactly when the node is in good order, the term is not older and
      written if newer, the log continues the request, and the log and commit writes it calls for succeed. The
      accepted entries are taken over and the commit index moves to the leader's, as far as the log goes, durably. */
  predicate AcceptedIff(r: Replica, full: seq<LogEntry>, req: AppendRequest, f: AppendFaults)
    requires r.node.snapshotIndex <= |full|
  {
    var n := r.node;
    var (r', resp) := HandleAppendEntries(r, req, f);
    var full' := full[..n.snapshotIndex] + r'.node.log;
    && (resp.Some? && resp.value.success <==>
          && !n.degraded && n.currentTerm <= req.term && (n.currentTerm < req.term ==> f.termOk)
          && FollowsOn(full, req)
          && Written(full, req, f)
          && (req.leaderCommit > n.commitIndex ==> f.commitOk))
    && (resp.Some? && resp.value.success ==>
          && r'.node.snapshotIndex == n.snapshotIndex && TakenOver(full, req, full')
          && r'.node.commitIndex ==
             (if req.leaderCommit > n.commitIndex then Min(req.leaderCommit, |full'|) else n.commitIndex)
          && (req.leaderCommit > n.commitIndex ==> r'.disk.hard == r'.node.Hard()))
  }

  lemma AcceptedShape(r: Replica, req: AppendRequest, f: AppendFaults)
    ensures var n, r1 := r.node, StepsElection.Follow(r, req.term);
      var (r', resp) := HandleAppendEntries(r, req, f);
      && (resp.Some? && resp.value.success <==>
            && !n.degraded && n.currentTerm <= req.term && (n.currentTerm < req.term ==> f.termOk)
            && Refusal(r1.node, req).None? && Merge(r1, req, f.truncateOk, f.appendOk).1
            && (req.leaderCommit > n.commitIndex ==> f.commitOk))
      && (resp.Some? && resp.value.success ==>
            && r'.node.log == Merge(r1, req, f.truncateOk, f.appendOk).0.node.log
            && r'.node.snapshotIndex == n.snapshotIndex
            && r'.node.commitIndex ==
               (if req.leaderCommit > n.commitIndex then Min(req.leaderCommit, r'.node.LastIndex()) else n.commitIndex)
            && (req.leaderCommit > n.commitIndex ==> r'.disk.hard == r'.node.Hard()))
  {
    hide FirstIndexOfTerm;
    var r1 := StepsElection.Follow(r, req.term);
    if Refusal(r1.node, req).None? {
      StepsReplication.MergeLog(r1, req, f.truncateOk, f.appendOk);
    }
    hide Merge;
    hide Fresh;
    hide Repeated;
  }

  lemma RefusedPlain(n: Node, req: AppendRequest)
    requires n.snapshotIndex == n.snapshotTerm == 0
    ensures Refusal(n, req).None? <==> FollowsOn(n.log, req)
  {
    hide FirstIndexOfTerm;
  }

  lemma AcceptsPlain(r: Replica, req: AppendRequest, f: AppendFaults)
    requires r.node.snapshotIndex == r.node.snapshotTerm == 0
    ensures AcceptedIff(r, r.node.log, req, f)
  {
    var n, r1, r' := r.node, StepsElection.Follow(r, req.term), HandleAppendEntries(r, req, f).0;
    AcceptedShape(r, req, f);
    hide HandleAppendEntries;
    assert n.log[..0] + r'.node.log == r'.node.log;
    assert r1.node.log == n.log && r1.node.snapshotIndex == r1.node.snapshotTerm == 0;
    RefusedPlain(r1.node, req);
    hide Refusal;
    hide Merge;
    hide Written;
    hide TakenOver;
    if FollowsOn(n.log, req) {
      MergeWritten(r1, req, f);
      hide FollowsOn;
    } else {
      hide FollowsOn;
    }
  }

  lemma AcceptsIff(r: Replica, pre: seq<LogEntry>, req: AppendRequest, f: AppendFaults)
    requires StandsFor(r.node, pre) && (r.node.currentTerm <= req.term ==> Consistent(pre, req))
    ensures AcceptedIff(r, pre + r.node.log, req, f)
  {
    hide HandleAppendEntries;
    var u := Replica(Uncompact(r.node, pre), r.disk);
    AppendUnaffected(r, u, pre, req, f);
    AcceptsPlain(u, req, f);
  }

  // ---------------------------------------------------------------- snapshots

  /** The snapshot replaces the log up to its index and nothing above it, in memory and on disk. */
  predicate CutAt(n: Node, snap: Snapshot, r': Replica) {
    var index := snap.lastIncludedIndex;
    && r'.node.snapshotIndex == index && r'.node.snapshotTerm == snap.lastIncludedTerm
    && r'.node.snapshot == r'.disk.snap == Some(snap)
    && r'.node.LastIndex() == Max(n.LastIndex(), index)
    && forall i {:trigger r'.node.EntryAt(i)} ::
         index < i <= n.LastIndex() && n.snapshotIndex < i ==> r'.node.EntryAt(i) == n.EntryAt(i)
  }

  /** Compaction has an effect exactly when the index is in the retained log and the snapshot is saved; it then keeps
      every later entry and leaves commit and apply positions alone. */
  lemma CompactTakesEffect(r: Replica, index: nat, data: Blob, saveOk: bool, setLogOk: bool)
    ensures var n := r.node;
      var (r', done) := TakeSnapshot(r, index, data, saveOk, setLogOk);
      if n.snapshotIndex < index <= n.LastIndex() && saveOk then
        && done && CutAt(n, Snapshot(index, n.EntryAt(index).term, data), r') && r'.disk.hard == r.disk.hard
        && r'.node == n.(log := r'.node.log, snapshotIndex := index, snapshotTerm := r'.node.snapshotTerm,
                         snapshot := r'.node.snapshot)
      else r' == r && (done <==> index <= n.snapshotIndex)
  {
  }

  /** The snapshot is neither older than the one the node has nor the same. */
  predicate Newer(n: Node, snap: Snapshot) {
    || n.snapshotIndex < snap.lastIncludedIndex
    || (n.snapshotIndex == snap.lastIncludedIndex && n.snapshotTerm != snap.lastIncludedTerm)
  }

  lemma KeptCuts(n: Node, snap: Snapshot, r': Replica)
    requires n.snapshotIndex <= snap.lastIncludedIndex && r'.node.log == KeptLog(n, snap.lastIncludedIndex)
    requires r'.node.snapshotIndex == snap.lastIncludedIndex && r'.node.snapshotTerm == snap.lastIncludedTerm
    requires r'.node.snapshot == r'.disk.snap == Some(snap)
    ensures CutAt(n, snap, r')
  {
  }

  /** A saved newer snapshot takes effect: the log is cut there, the commit index reaches it, and it is handed to the
      state machine unless that has come as far. Any other changes no more than the term and the role. */
  lemma InstallTakesEffect(r: Replica, req: SnapshotRequest, f: SnapshotFaults)
    requires var n := r.node; !n.degraded && n.currentTerm <= req.term && (n.currentTerm < req.term ==> f.termOk)
    ensures var n, n', snap := r.node, HandleInstallSnapshot(r, req, f).0.node, req.snapshot;
      && n'.lastApplied == n.lastApplied
      && (Newer(n, snap) && f.saveOk ==>
            && CutAt(n, snap, HandleInstallSnapshot(r, req, f).0)
            && n'.commitIndex == Max(n.commitIndex, snap.lastIncludedIndex)
            && n'.pendingSnapshot == (if n.lastApplied < snap.lastIncludedIndex then Some(snap) else n.pendingSnapshot))
      && (!Newer(n, snap) || !f.saveOk ==>
            n' == n.(role := Follower, currentTerm := n'.currentTerm, votedFor := n'.votedFor))
  {
    hide KeptLog;
    hide CutAt;
    if Newer(r.node, req.snapshot) && f.saveOk {
      var r1 := StepsElection.Follow(r, req.term);
      assert r1.node.LastIndex() == r.node.LastIndex();
      SameKept(r.node, r1.node, req.snapshot.lastIncludedIndex);
      KeptCuts(r.node, req.snapshot, HandleInstallSnapshot(r, req, f).0);
    }
  }

  lemma SameKept(n: Node, m: Node, index: nat)
    requires m.log == n.log && m.snapshotIndex == n.snapshotIndex
    ensures KeptLog(m, index) == KeptLog(n, index)
  {
  }

  // ---------------------------------------------------------------- elections

  /** A failed write keeps term and vote and degrades the node; otherwise the next term and the own vote are durable. */
  lemma StandsForElection(id: NodeId, r: Replica, ok: bool)
    ensures var n, r' := r.node, StartElection(id, r, ok);
      && (ok ==>
            && r'.node == n.(currentTerm := n.currentTerm + 1, votedFor := Some(id))
            && r'.disk.hard == r'.node.Hard())
      && (!ok ==> r'.disk == r.disk && r'.node == n.(degraded := true, role := Follower))
  {
  }

  /** A new leader knows nothing of its peers and starts each of them after its own log. */
  predicate TookOver(n: Node, n': Node, cfg: Config) {
    && n' == n.(role := Leader, nextIndex := n'.nextIndex, matchIndex := n'.matchIndex)
    && forall p :: p in cfg.peers ==> Get(n'.nextIndex, p) == n.LastIndex() + 1 && Get(n'.matchIndex, p) == 0
  }

  lemma TakeOver(n: Node, cfg: Config)
    ensures TookOver(n, BecomeLeader(cfg, n), cfg) && BecomeLeader(cfg, n).role == Leader
  {
  }

  lemma CountedVote(h: History, s: Server, cfg: Config, from: NodeId, resp: VoteResponse, ok: bool)
    requires s.tally.Some? && s.rep.node.role == Candidate && resp.term <= s.rep.node.currentTerm
    ensures var s' := CountVoteEffect(h, s, cfg, from, resp, ok).server;
      var g := s.tally.value.granted + if resp.granted then {from} else {};
      && (s'.rep.node.role == Leader <==> 2 * (|g| + 1) > |cfg.Members()|)
      && (s'.rep.node.role == Leader ==> s'.tally == None && TookOver(s.rep.node, s'.rep.node, cfg))
      && (s'.rep.node.role != Leader ==>
            && s'.rep == s.rep && s'.tally.Some? && s'.tally.value.granted == g
            && s'.tally.value.answered == s.tally.value.answered + {from})
  {
    var g := s.tally.value.granted + if resp.granted then {from} else {};
    assert g == if resp.granted then s.tally.value.granted + {from} else s.tally.value.granted;
    QuorumIsMajority(cfg, 1 + |g|);
    TakeOver(s.rep.node, cfg);
    hide TookOver;
    hide BecomeLeader;
    hide Elect;
    hide Full;
  }

  /** A candidate that reads an answer of its term becomes leader exactly when the members that granted their vote,
      itself included, are more than half of the cluster; otherwise it goes on with the vote counted. */
  lemma TakesOverIff(c: Cluster, a: Action)
    requires Enabled(c, a) && a.DoCountVote?
    requires c.servers[a.id].rep.node.role == Candidate && a.vresp.term <= c.servers[a.id].rep.node.currentTerm
    ensures var s, s' := c.servers[a.id], EffectOf(c, a).server;
      var g := s.tally.value.granted + if a.vresp.granted then {a.voter} else {};
      && (s'.rep.node.role == Leader <==> 2 * (|g| + 1) > |c.servers|)
      && (s'.rep.node.role == Leader ==> s'.tally == None && TookOver(s.rep.node, s'.rep.node, c.ConfigOf(a.id)))
      && (s'.rep.node.role != Leader ==>
            && s'.rep == s.rep && s'.tally.Some? && s'.tally.value.granted == g
            && s'.tally.value.answered == s.tally.value.answered + {a.voter})
  {
    var cfg := c.ConfigOf(a.id);
    assert cfg.Members() == c.servers.Keys;
    CountedVote(c.history, c.servers[a.id], cfg, a.voter, a.vresp, a.ok);
    hide CountVoteEffect;
    hide TookOver;
  }

  // ---------------------------------------------------------------- requests and recovery

  /** A request carries, on the uncompacted log, everything from the peer's next index on, and the commit index. */
  lemma RequestCarriesAll(id: NodeId, n: Node, full: seq<LogEntry>, peer: NodeId)
    requires LogIs(n, full) && SliceInBounds(n, peer) && 1 <= Get(n.nextIndex, peer)
    ensures var req, next := AppendRequestFor(id, n, peer), Get(n.nextIndex, peer);
      && req.term == n.currentTerm && req.leader == id && req.leaderCommit == n.commitIndex
      && req.prevLogIndex == next - 1 && req.prevLogTerm == TermAt(full, next - 1)
      && req.entries == full[next - 1..]
  {
  }

  /** A restart without a snapshot replays up to the written commit index, as far as the log goes; with a snapshot it
      starts from the snapshot, which it hands over first. */
  lemma RecoveredCommit(d: Disk)
    ensures var n := NewNode(d);
      && (d.snap.None? ==>
            n.commitIndex == Min(d.hard.commitIndex, n.LastIndex()) && n.lastApplied == 0 && n.pendingSnapshot.None?)
      && (d.snap.Some? ==> n.commitIndex == n.lastApplied == n.snapshotIndex && n.pendingSnapshot == d.snap)
      && n.role == Follower && !n.degraded && n.currentTerm == d.hard.currentTerm && n.votedFor == d.hard.votedFor
  {
  }

  /** A second request to a peer with one in flight is not sent but noted, whichever kind it is. */
  lemma SecondRequestNoted(id: NodeId, n: Node, peer: NodeId)
    requires n.role == Leader && peer in n.inFlight
    ensures BuildAppend(id, n, peer) == (n.(replicatePending := n.replicatePending + {peer}), None)
    ensures n.snapshotIndex != 0 && n.snapshot.Some? && Get(n.nextIndex, peer) <= n.snapshotIndex ==>
      BuildSnapshot(id, n, peer) == (n.(replicatePending := n.replicatePending + {peer}), None)
  {
  }
}
