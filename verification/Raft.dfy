/** A Raft node as an object: one method per locked section, updating fields in place and writing to its
    storage. Every method is proved to do what the value function of `NodeModel` of the same name says. */
module Raft {
  import opened Types
  import opened NodeModel
  import opened Storage

  /** The peers without the node itself. */
  method NormalizePeers(self: NodeId, peers: set<NodeId>) returns (normalized: set<NodeId>)
    ensures normalized == peers - {self}
  {
    normalized := {};
    var rest := peers;
    while rest != {}
      invariant rest <= peers && normalized == (peers - rest) - {self}
      decreases |rest|
    {
      var p :| p in rest;
      rest := rest - {p};
      if p != self {
        normalized := normalized + {p};
      }
    }
  }

  lemma SetOneThenAll(m: map<NodeId, nat>, one: NodeId, keys: set<NodeId>, value: nat)
    ensures SetAll(m[one := value], keys, value) == SetAll(m, keys + {one}, value)
  {
  }

  lemma LeaderProgress(cfg: Config, n: Node)
    ensures BecomeLeader(cfg, n) ==
      n.(role := Leader,
         nextIndex := SetAll(n.nextIndex[cfg.id := n.LastIndex() + 1], cfg.peers, n.LastIndex() + 1),
         matchIndex := SetAll(n.matchIndex[cfg.id := 0], cfg.peers, 0))
  {
    SetOneThenAll(n.nextIndex, cfg.id, cfg.peers, n.LastIndex() + 1);
    SetOneThenAll(n.matchIndex, cfg.id, cfg.peers, 0);
  }

  /** Reset the progress of the given members. */
  method ResetProgress(next: map<NodeId, nat>, match_: map<NodeId, nat>, keys: set<NodeId>, start: nat)
    returns (next': map<NodeId, nat>, match': map<NodeId, nat>)
    ensures next' == SetAll(next, keys, start) && match' == SetAll(match_, keys, 0)
  {
    next', match' := next, match_;
    var rest := keys;
    while rest != {}
      invariant rest <= keys
      invariant next' == SetAll(next, keys - rest, start)
      invariant match' == SetAll(match_, keys - rest, 0)
      decreases |rest|
    {
      var p :| p in rest;
      SetOneMore(next, keys - rest, p, start);
      SetOneMore(match_, keys - rest, p, 0);
      assert keys - (rest - {p}) == keys - rest + {p};
      next', match', rest := next'[p := start], match'[p := 0], rest - {p};
    }
    assert keys - rest == keys;
  }

  lemma SetOneMore(m: map<NodeId, nat>, keys: set<NodeId>, one: NodeId, value: nat)
    ensures SetAll(m, keys, value)[one := value] == SetAll(m, keys + {one}, value)
  {
  }

  class RaftNode {
    const id: NodeId
    const peers: set<NodeId>
    const storage: InMemoryStorage

    var role: Role
    var currentTerm: nat
    var votedFor: Option<NodeId>
    var degraded: bool
    var log: seq<LogEntry>
    var snapshotIndex: nat
    var snapshotTerm: nat
    var snapshot: Option<Snapshot>
    var pendingSnapshot: Option<Snapshot>
    var commitIndex: nat
    var lastApplied: nat
    var nextIndex: map<NodeId, nat>
    var matchIndex: map<NodeId, nat>
    var replicateInFlight: set<NodeId>
    var replicatePending: set<NodeId>

    function NodeView(): Node
      reads this
    {
      Node(role, currentTerm, votedFor, degraded, log, snapshotIndex, snapshotTerm, snapshot, pendingSnapshot,
           commitIndex, lastApplied, nextIndex, matchIndex, replicateInFlight, replicatePending)
    }

    function View(): Replica
      reads this, storage
    {
      Replica(NodeView(), storage.View())
    }

    function Cfg(): Config { Config(id, peers) }

    // ---------------------------------------------------------------- recovery

    /** Restore a node from its storage. */
    constructor (id: NodeId, peers: set<NodeId>, storage: InMemoryStorage)
      ensures this.id == id && this.peers == peers - {id} && this.storage == storage
      ensures View() == Replica(NewNode(old(storage.View())), old(storage.View()))
    {
      var normalized := NormalizePeers(id, peers);
      var ps := storage.Load();
      this.id, this.peers, this.storage := id, normalized, storage;
      role, degraded := Follower, false;
      currentTerm, votedFor := ps.hard.currentTerm, ps.hard.votedFor;
      snapshot, pendingSnapshot := ps.snap, ps.snap;
      snapshotIndex, snapshotTerm, lastApplied := 0, 0, 0;
      var commit := ps.hard.commitIndex;
      var index := 0;
      if ps.snap.Some? {
        index := ps.snap.value.lastIncludedIndex;
        commit := index;
        snapshotIndex, snapshotTerm, lastApplied := index, ps.snap.value.lastIncludedTerm, index;
      }
      var staleCount := index - ps.base;
      if staleCount < 0 {
        staleCount := 0;
      }
      if staleCount > |ps.log| {
        staleCount := |ps.log|;
      }
      log := ps.log[staleCount..];
      if commit < index {
        commit := index;
      }
      if commit > index + |ps.log[staleCount..]| {
        commit := index + |ps.log[staleCount..]|;
      }
      commitIndex := commit;
      nextIndex, matchIndex, replicateInFlight, replicatePending := map[], map[], {}, {};
    }

    // ---------------------------------------------------------------- helpers

    function LastLogIndex(): nat
      reads this
    {
      snapshotIndex + |log|
    }

    function LastLogTerm(): nat
      reads this
    {
      if |log| == 0 then snapshotTerm else log[|log| - 1].term
    }

    method PersistHardState(ok: bool) returns (done: bool)
      modifies storage
      ensures done == ok && View() == SaveHard(old(View()), ok)
    {
      done := storage.SaveHardState(HardState(currentTerm, votedFor, commitIndex), ok);
    }

    /** The first Raft index with an entry of `term`, or 0. */
    method FirstIndexOfTerm(term: nat) returns (index: nat)
      ensures index == NodeModel.FirstIndexOfTerm(log, snapshotIndex, term)
    {
      var i := 0;
      while i < |log|
        invariant 0 <= i <= |log|
        invariant NodeModel.FirstIndexOfTerm(log, snapshotIndex, term) ==
                  NodeModel.FirstIndexOfTerm(log[i..], snapshotIndex + i, term)
      {
        if log[i].term == term {
          return snapshotIndex + i + 1;
        }
        assert log[i..][1..] == log[i + 1..];
        i := i + 1;
      }
      return 0;
    }

    /** The last Raft index with an entry of `term`, or 0. */
    method LastIndexOfTerm(term: nat) returns (index: nat)
      ensures index == NodeModel.LastIndexOfTerm(log, snapshotIndex, term)
    {
      var i := |log|;
      assert log[..i] == log;
      while i > 0
        invariant 0 <= i <= |log|
        invariant NodeModel.LastIndexOfTerm(log, snapshotIndex, term) ==
                  NodeModel.LastIndexOfTerm(log[..i], snapshotIndex, term)
      {
        if log[i - 1].term == term {
          return snapshotIndex + i;
        }
        assert log[..i][..i - 1] == log[..i - 1];
        i := i - 1;
      }
      return 0;
    }

    // ---------------------------------------------------------------- election

    /** The election timer fired. */
    method ElectionTimeout()
      modifies this
      ensures View() == old(View()).(node := Timeout(old(NodeView())))
    {
      role := Candidate;
    }

    /** The first locked section of a candidate: bump the term, vote for oneself, persist both. */
    method StartElection(ok: bool) returns (req: Option<VoteRequest>)
      modifies this, storage
      ensures View() == NodeModel.StartElection(id, old(View()), ok)
      ensures req == if ok then Some(VoteRequest(currentTerm, id, LastLogIndex(), LastLogTerm())) else None
    {
      var prevTerm, prevVotedFor := currentTerm, votedFor;
      currentTerm := currentTerm + 1;
      votedFor := Some(id);
      var done := PersistHardState(ok);
      if !done {
        degraded := true;
        currentTerm := prevTerm;
        votedFor := prevVotedFor;
        role := Follower;
        return None;
      }
      req := Some(VoteRequest(currentTerm, id, LastLogIndex(), LastLogTerm()));
    }

    method AdoptHigherTerm(term: nat, ok: bool)
      modifies this, storage
      ensures View() == StepDown(old(View()), term, ok)
    {
      currentTerm := term;
      votedFor := None;
      role := Follower;
      var done := PersistHardState(ok);
      if !done {
        degraded := true;
      }
    }

    /** Take over as leader: progress of every member starts after the leader's log. */
    method TakeOver()
      modifies this
      ensures View() == old(View()).(node := BecomeLeader(Cfg(), old(NodeView())))
    {
      hide BecomeLeader;
      hide SetAll;
      LeaderProgress(Cfg(), NodeView());
      role := Leader;
      var next, match_ := nextIndex[id := LastLogIndex() + 1], matchIndex[id := 0];
      next, match_ := ResetProgress(next, match_, peers, LastLogIndex() + 1);
      nextIndex, matchIndex := next, match_;
    }

    /** One vote response in the candidate loop; `votes` counts the votes so far, the node's own included.
        The loop goes on unless `over`. */
    method OnVoteResponse(votes: nat, resp: VoteResponse, ok: bool) returns (total: nat, over: bool)
      modifies this, storage
      ensures total == if over && !(old(currentTerm) >= resp.term && old(role) == Candidate) then votes
                       else votes + if resp.granted then 1 else 0
      ensures if resp.term > old(currentTerm) then over && View() == StepDown(old(View()), resp.term, ok)
              else if old(role) != Candidate then over && View() == old(View())
              else if total >= Cfg().QuorumSize() then
                over && View() == old(View()).(node := BecomeLeader(Cfg(), old(NodeView())))
              else !over && View() == old(View())
      ensures resp.term <= old(currentTerm) && old(role) == Candidate ==>
        (role == Leader <==> 2 * total > |Cfg().Members()|)
    {
      if resp.term > currentTerm {
        AdoptHigherTerm(resp.term, ok);
        return votes, true;
      }
      if role != Candidate {
        return votes, true;
      }
      total := if resp.granted then votes + 1 else votes;
      if total >= Cfg().QuorumSize() {
        TakeOver();
        return total, true;
      }
      over := false;
    }

    method HandleRequestVote(req: VoteRequest, termOk: bool, voteOk: bool) returns (resp: Option<VoteResponse>)
      modifies this, storage
      ensures (View(), resp) == NodeModel.HandleRequestVote(old(View()), req, termOk, voteOk)
    {
      if degraded {
        return None;
      }
      if req.term < currentTerm {
        return Some(VoteResponse(currentTerm, false));
      }
      if req.term > currentTerm {
        var prevTerm, prevVotedFor, prevRole := currentTerm, votedFor, role;
        currentTerm := req.term;
        votedFor := None;
        role := Follower;
        var done := PersistHardState(termOk);
        if !done {
          currentTerm := prevTerm;
          votedFor := prevVotedFor;
          role := prevRole;
          return None;
        }
      }
      var lastTerm, lastIndex := LastLogTerm(), LastLogIndex();
      var upToDate := req.lastLogTerm > lastTerm || (req.lastLogTerm == lastTerm && req.lastLogIndex >= lastIndex);
      if (votedFor == None || votedFor == Some(req.candidate)) && upToDate {
        var prevVotedFor := votedFor;
        votedFor := Some(req.candidate);
        var done := PersistHardState(voteOk);
        if !done {
          votedFor := prevVotedFor;
          return None;
        }
        return Some(VoteResponse(currentTerm, true));
      }
      return Some(VoteResponse(currentTerm, false));
    }

    // ---------------------------------------------------------------- replication, follower side

    /** The scan of the merge loop: skip what the snapshot covers and what repeats stored terms. The result is
        the position of the first incoming entry that is missing or in conflict, or the number of entries. */
    method FirstUnmatched(req: AppendRequest) returns (i: nat)
      requires req.prevLogIndex <= LastLogIndex()
      ensures var n := NodeView();
        var at, incoming := Start(n, req), Fresh(n, req);
        var skip := |req.entries| - |incoming|;
        && i <= |req.entries|
        && (i == |req.entries| ==> Repeated(log, at, incoming) == |incoming|)
        && (i < |req.entries| ==>
              && skip <= i
              && Repeated(log, at, incoming) == i - skip
              && incoming[i - skip..] == req.entries[i..]
              && at + (i - skip) == req.prevLogIndex + i - snapshotIndex)
    {
      hide Repeated;
      hide Fresh;
      hide Start;
      hide Scanned;
      ghost var n := NodeView();
      ghost var at, incoming := Start(n, req), Fresh(n, req);
      ghost var skip := |req.entries| - |incoming|;
      FreshFits(n, req);
      ScanNone(log, at, incoming);
      i := 0;
      while i < |req.entries|
        invariant i <= |req.entries|
        invariant Scanned(log, at, incoming, if i < skip then 0 else i - skip)
      {
        var index := req.prevLogIndex + i + 1;
        FreshAt(n, req, i);
        if snapshotIndex < index {
          if index > LastLogIndex() || log[index - snapshotIndex - 1].term != req.entries[i].term {
            ScanStops(log, at, incoming, i - skip);
            return;
          }
          ScanOne(log, at, incoming, i - skip);
        }
        i := i + 1;
      }
      ScanAll(log, at, incoming);
    }

    /** Merge the incoming entries: at the first one that is missing or in conflict, cut the log there if needed
        and append the rest. */
    method MergeEntries(req: AppendRequest, truncateOk: bool, appendOk: bool) returns (ok: bool)
      requires req.prevLogIndex <= LastLogIndex()
      modifies this, storage
      ensures (View(), ok) == Merge(old(View()), req, truncateOk, appendOk)
    {
      hide Repeated;
      hide Fresh;
      var i := FirstUnmatched(req);
      if i == |req.entries| {
        return true;
      }
      var index := req.prevLogIndex + i + 1;
      if index <= LastLogIndex() {
        var cut := storage.TruncateLog(index - snapshotIndex - 1, truncateOk);
        if !cut {
          return false;
        }
        log := log[..index - snapshotIndex - 1];
      }
      ok := AppendEntries(req.entries[i..], appendOk);
    }

    method AppendEntries(entries: seq<LogEntry>, ok: bool) returns (done: bool)
      modifies `log, storage
      ensures done == ok
      ensures View() == if ok then Extended(old(View()), entries) else old(View())
    {
      done := storage.AppendLog(entries, ok);
      if done {
        log := log + entries;
      }
    }

    method HandleAppendEntries(req: AppendRequest, f: AppendFaults) returns (resp: Option<AppendResponse>)
      modifies this, storage
      ensures (View(), resp) == NodeModel.HandleAppendEntries(old(View()), req, f)
    {
      hide Merge;
      hide NodeModel.FirstIndexOfTerm;
      if degraded {
        return None;
      }
      if req.term < currentTerm {
        return Some(AppendResponse(currentTerm, false, 0, 0));
      }
      var current := ObserveTerm(req.term, f.termOk);
      if !current {
        return None;
      }
      role := Follower;
      var refusal := CheckPrevious(req);
      if refusal.Some? {
        return refusal;
      }
      MergeChangesLog(View(), req, f.truncateOk, f.appendOk);
      var merged := MergeEntries(req, f.truncateOk, f.appendOk);
      if !merged {
        return None;
      }
      var committed := FollowCommit(req.leaderCommit, f.commitOk);
      return if committed then Some(AppendResponse(currentTerm, true, 0, 0)) else None;
    }

    /** Adopt the term of a request if it is higher; a failed write takes it back. */
    method ObserveTerm(term: nat, ok: bool) returns (done: bool)
      modifies this, storage
      ensures done == (term > old(currentTerm) ==> ok)
      ensures View() == if term > old(currentTerm) && ok then AdoptTerm(old(View()), term) else old(View())
    {
      if term > currentTerm {
        var prevTerm, prevVotedFor := currentTerm, votedFor;
        currentTerm := term;
        votedFor := None;
        done := PersistHardState(ok);
        if !done {
          currentTerm := prevTerm;
          votedFor := prevVotedFor;
        }
        return;
      }
      return true;
    }

    /** Adopt the leader's commit index, up to the node's own last entry; a failed write is reported. */
    method FollowCommit(leaderCommit: nat, ok: bool) returns (done: bool)
      modifies this, storage
      ensures done == (leaderCommit > old(commitIndex) ==> ok)
      ensures var r := old(View()).(node := old(NodeView()).(commitIndex := FollowerCommit(old(NodeView()), leaderCommit)));
        View() == if leaderCommit > old(commitIndex) then SaveHard(r, ok) else r
    {
      if leaderCommit > commitIndex {
        commitIndex := if leaderCommit < LastLogIndex() then leaderCommit else LastLogIndex();
        done := PersistHardState(ok);
        return;
      }
      return true;
    }

    /** The consistency check on the entry before the new ones. */
    method CheckPrevious(req: AppendRequest) returns (refusal: Option<AppendResponse>)
      requires currentTerm == req.term
      ensures refusal == Refusal(NodeView(), req)
      ensures refusal.None? ==> req.prevLogIndex <= LastLogIndex()
    {
      if req.prevLogIndex > LastLogIndex() {
        return Some(AppendResponse(currentTerm, false, 0, LastLogIndex() + 1));
      }
      if req.prevLogIndex > snapshotIndex {
        var prevTerm := log[req.prevLogIndex - snapshotIndex - 1].term;
        if prevTerm != req.prevLogTerm {
          var first := FirstIndexOfTerm(prevTerm);
          return Some(AppendResponse(currentTerm, false, prevTerm, first));
        }
      } else if req.prevLogIndex == snapshotIndex {
        if req.prevLogTerm != snapshotTerm {
          return Some(AppendResponse(currentTerm, false, 0, snapshotIndex + 1));
        }
      }
      return None;
    }

    // ---------------------------------------------------------------- replication, leader side

    /** Build the AppendEntries request for a peer; `leads` is false when the node is no longer leader, `panics` is
        true when the next index lies outside the retained log. */
    method AppendEntriesRequestForPeer(peer: NodeId)
      returns (req: Option<AppendRequest>, leads: bool, panics: bool)
      modifies this
      ensures leads == (old(role) == Leader)
      ensures panics == (Builds(old(NodeView()), peer) && !SliceInBounds(old(NodeView()), peer))
      ensures !panics ==>
        var (n, r) := BuildAppend(id, old(NodeView()), peer); View() == old(View()).(node := n) && req == r
    {
      hide AppendRequestFor;
      if role != Leader {
        return None, false, false;
      }
      if peer in replicateInFlight {
        replicatePending := replicatePending + {peer};
        return None, true, false;
      }
      req := RequestFor(peer);
      replicateInFlight := replicateInFlight + {peer};
      leads, panics := true, req.None?;
    }

    /** The whole log from the peer's next index on, with the position before it. `None` is an access outside the
        retained log, which ends the process. */
    method RequestFor(peer: NodeId) returns (req: Option<AppendRequest>)
      ensures req.Some? <==> SliceInBounds(NodeView(), peer)
      ensures req.Some? ==> req.value == AppendRequestFor(id, NodeView(), peer)
    {
      hide AppendRequestFor;
      var next := Get(nextIndex, peer);
      if next < 1 {
        next := 1;
      }
      var prevLogIndex := next - 1;
      var prevLogTerm := 0;
      if prevLogIndex > snapshotIndex {
        if prevLogIndex > LastLogIndex() {
          return None;
        }
        prevLogTerm := log[prevLogIndex - snapshotIndex - 1].term;
      } else if prevLogIndex == snapshotIndex {
        prevLogTerm := snapshotTerm;
      }
      var entries := [];
      if next <= LastLogIndex() {
        if next <= snapshotIndex {
          return None;
        }
        entries := log[next - snapshotIndex - 1..];
      }
      var request := AppendRequest(currentTerm, id, prevLogIndex, prevLogTerm, entries, commitIndex);
      RequestMeans(id, NodeView(), peer, request);
      return Some(request);
    }

    /** The deferred section after an RPC, whatever its outcome; tells whether to replicate again. */
    method RpcFinished(peer: NodeId) returns (again: bool)
      modifies this
      ensures View() == old(View()).(node := RpcDone(old(NodeView()), peer)) && again == (peer in old(replicatePending))
    {
      replicateInFlight := replicateInFlight - {peer};
      again := peer in replicatePending;
      replicatePending := replicatePending - {peer};
    }

    /** The next index for a peer after a refusal. */
    method BackOffFor(peer: NodeId, resp: AppendResponse) returns (next: nat)
      ensures next == BackOff(NodeView(), Get(nextIndex, peer), resp)
    {
      var prevNext := Get(nextIndex, peer);
      next := prevNext;
      if resp.conflictTerm > 0 {
        var last := LastIndexOfTerm(resp.conflictTerm);
        if last > 0 {
          next := last + 1;
        } else if resp.conflictIndex > 0 {
          next := resp.conflictIndex;
        } else if prevNext > 1 {
          next := prevNext - 1;
        }
      } else if resp.conflictIndex > 0 {
        next := resp.conflictIndex;
      } else if prevNext > 1 {
        next := prevNext - 1;
      } else {
        next := 1;
      }
      if next < 1 {
        next := 1;
      }
      if next >= prevNext && prevNext > 1 {
        next := prevNext - 1;
      }
    }

    method AdvanceProgress(peer: NodeId, index: nat)
      modifies `matchIndex, `nextIndex
      ensures View() == old(View()).(node := RecordMatch(old(NodeView()), peer, index))
    {
      matchIndex := matchIndex[peer := if index > Get(matchIndex, peer) then index else Get(matchIndex, peer)];
      nextIndex := nextIndex[peer := if index + 1 > Get(nextIndex, peer) then index + 1 else Get(nextIndex, peer)];
    }

    /** Read a reply to an AppendEntries request. */
    method OnAppendResponse(peer: NodeId, req: AppendRequest, resp: AppendResponse, ok: bool)
      requires snapshotIndex <= commitIndex
      modifies this, storage
      ensures View() == OnAppendReply(Cfg(), old(View()), peer, req, resp, ok)
    {
      hide BackOff;
      hide NodeModel.AdvanceCommit;
      if resp.term > currentTerm {
        AdoptHigherTerm(resp.term, ok);
        return;
      }
      if role != Leader || req.term != currentTerm {
        return;
      }
      if !resp.success {
        var next := BackOffFor(peer, resp);
        nextIndex := nextIndex[peer := next];
        return;
      }
      AdvanceProgress(peer, req.prevLogIndex + |req.entries|);
      AdvanceCommitIndex(ok);
    }

    /** How many members are known to hold the log up to `candidate`, the leader included. */
    method CountHolders(candidate: nat) returns (votes: nat)
      ensures votes == 1 + |Holders(Cfg(), NodeView(), candidate)|
    {
      votes := 1;
      var rest := peers;
      ghost var counted: set<NodeId> := {};
      while rest != {}
        invariant rest <= peers
        invariant counted == set p | p in peers - rest && Get(matchIndex, p) >= candidate
        invariant votes == 1 + |counted|
        decreases |rest|
      {
        var p :| p in rest;
        rest := rest - {p};
        if Get(matchIndex, p) >= candidate {
          votes := votes + 1;
          counted := counted + {p};
        }
      }
      assert counted == Holders(Cfg(), NodeView(), candidate);
    }

    /** Scan down from the last index for the greatest one of the current term that a quorum holds. */
    method AdvanceCommitIndex(ok: bool)
      requires snapshotIndex <= commitIndex
      modifies this, storage
      ensures View() == NodeModel.AdvanceCommit(Cfg(), old(View()), ok)
    {
      hide NodeModel.AdvanceCommit;
      ghost var r := View();
      var candidate := LastLogIndex();
      while candidate > commitIndex
        invariant View() == r
        invariant 0 <= candidate <= LastLogIndex()
        invariant CommitTarget(Cfg(), r.node, r.node.LastIndex()) == CommitTarget(Cfg(), r.node, candidate)
      {
        if log[candidate - snapshotIndex - 1].term == currentTerm {
          var votes := CountHolders(candidate);
          if votes >= Cfg().QuorumSize() {
            CommitsTo(Cfg(), r, candidate, ok);
            commitIndex := candidate;
            var done := PersistHardState(ok);
            if !done {
              degraded := true;
            }
            return;
          }
        }
        candidate := candidate - 1;
      }
      CommitsTo(Cfg(), r, r.node.commitIndex, ok);
    }

    /** Append a command to the leader's log; `None` when the node does not lead or cannot write. */
    method StartCommand(command: Command, appendOk: bool, commitOk: bool) returns (index: Option<nat>)
      requires snapshotIndex <= commitIndex
      modifies this, storage
      ensures (View(), index) == NodeModel.StartCommand(Cfg(), old(View()), command, appendOk, commitOk)
    {
      hide NodeModel.AdvanceCommit;
      if degraded || role != Leader {
        return None;
      }
      var entry := LogEntry(currentTerm, command);
      var prevLogLen := |log|;
      log := log + [entry];
      var done := storage.AppendLog([entry], appendOk);
      if !done {
        log := log[..prevLogLen];
        return None;
      }
      var last := LastLogIndex();
      matchIndex := matchIndex[id := last];
      nextIndex := nextIndex[id := last + 1];
      AdvanceCommitIndex(commitOk);
      return Some(last);
    }

    // ---------------------------------------------------------------- snapshots

    /** Compact the log up to and including `index`; `data` is the application state there. The rewrite of the
        stored log is best effort. */
    method Snapshot(index: nat, data: Blob, saveOk: bool, setLogOk: bool) returns (ok: bool)
      modifies this, storage
      ensures (View(), ok) == TakeSnapshot(old(View()), index, data, saveOk, setLogOk)
    {
      if index <= snapshotIndex {
        return true;
      }
      if index > LastLogIndex() {
        return false;
      }
      var snap := Types.Snapshot(index, log[index - snapshotIndex - 1].term, data);
      var saved := storage.SaveSnapshot(snap, saveOk);
      if !saved {
        return false;
      }
      log := log[index - snapshotIndex..];
      snapshotIndex := snap.lastIncludedIndex;
      snapshotTerm := snap.lastIncludedTerm;
      snapshot := Some(snap);
      var _ := storage.SetLog(snapshotIndex, log, setLogOk);
      return true;
    }

    /** Keep the entries after `index`, whatever the entry at `index` is. */
    method CutLog(index: nat)
      modifies `log
      ensures View() == old(View()).(node := old(NodeView()).(log := KeptLog(old(NodeView()), index)))
    {
      if index < LastLogIndex() {
        var cut := index - snapshotIndex;
        if cut > 0 {
          log := log[cut..];
        }
      } else {
        log := [];
      }
    }

    /** The changes in memory of a node reset to a snapshot. */
    method ResetToSnapshot(snap: Snapshot)
      modifies this
      ensures View() == old(View()).(node := ResetTo(old(NodeView()), snap))
    {
      hide KeptLog;
      CutLog(snap.lastIncludedIndex);
      snapshotIndex := snap.lastIncludedIndex;
      snapshotTerm := snap.lastIncludedTerm;
      snapshot := Some(snap);
      if commitIndex < snap.lastIncludedIndex {
        commitIndex := snap.lastIncludedIndex;
      }
      if snap.lastIncludedIndex > lastApplied {
        pendingSnapshot := Some(snap);
      }
    }

    /** Reset the node to a snapshot that is already saved; both writes are best effort. */
    method ApplySnapshot(snap: Snapshot, hardOk: bool, setLogOk: bool)
      modifies this, storage
      ensures View() == ApplySnapshotTo(old(View()), snap, hardOk, setLogOk)
    {
      hide ResetTo;
      ResetToSnapshot(snap);
      var _ := PersistHardState(hardOk);
      var _ := storage.SetLog(snapshotIndex, log, setLogOk);
    }

    method HandleInstallSnapshot(req: SnapshotRequest, f: SnapshotFaults) returns (resp: Option<SnapshotResponse>)
      modifies this, storage
      ensures (View(), resp) == NodeModel.HandleInstallSnapshot(old(View()), req, f)
    {
      hide ApplySnapshotTo;
      if degraded {
        return None;
      }
      if req.term < currentTerm {
        return Some(SnapshotResponse(currentTerm));
      }
      var current := ObserveTerm(req.term, f.termOk);
      if !current {
        return None;
      }
      role := Follower;
      var snap := req.snapshot;
      if snap.lastIncludedIndex < snapshotIndex {
        return Some(SnapshotResponse(currentTerm));
      }
      if snap.lastIncludedIndex == snapshotIndex && snap.lastIncludedTerm == snapshotTerm {
        return Some(SnapshotResponse(currentTerm));
      }
      var saved := storage.SaveSnapshot(snap, f.saveOk);
      if !saved {
        return None;
      }
      ApplySnapshot(snap, f.hardOk, f.setLogOk);
      return Some(SnapshotResponse(req.term));
    }

    /** Build the InstallSnapshot request for a peer behind the compacted log; `leads` is false when the node is
        no longer leader. */
    method InstallSnapshotRequestForPeer(peer: NodeId) returns (req: Option<SnapshotRequest>, leads: bool)
      requires snapshotIndex != 0 ==> snapshot.Some?
      modifies this
      ensures leads == (old(role) == Leader)
      ensures var (n, r) := BuildSnapshot(id, old(NodeView()), peer); View() == old(View()).(node := n) && req == r
    {
      if role != Leader {
        return None, false;
      }
      if snapshotIndex == 0 || Get(nextIndex, peer) > snapshotIndex {
        return None, true;
      }
      if peer in replicateInFlight {
        replicatePending := replicatePending + {peer};
        return None, true;
      }
      replicateInFlight := replicateInFlight + {peer};
      return Some(SnapshotRequest(currentTerm, id, snapshot.value)), true;
    }

    /** Read a reply to an InstallSnapshot request. */
    method OnSnapshotResponse(peer: NodeId, req: SnapshotRequest, resp: SnapshotResponse, ok: bool)
      modifies this, storage
      ensures View() == OnSnapshotReply(old(View()), peer, req, resp, ok)
    {
      if resp.term > currentTerm {
        AdoptHigherTerm(resp.term, ok);
        return;
      }
      if role != Leader || req.term != currentTerm {
        return;
      }
      AdvanceProgress(peer, req.snapshot.lastIncludedIndex);
    }

    // ---------------------------------------------------------------- apply loop

    /** One wake-up of the apply loop, undisturbed: hand over the pending snapshot if there is one, then every
        committed entry after it, in order. */
    method ApplyWakeup() returns (sent: seq<ApplyMsg>)
      requires commitIndex <= LastLogIndex() && lastApplied <= commitIndex
      requires if pendingSnapshot.None? then snapshotIndex <= lastApplied
               else snapshotIndex == pendingSnapshot.value.lastIncludedIndex <= commitIndex
      modifies `pendingSnapshot, `lastApplied
      ensures View() == old(View()).(node := old(NodeView()).(pendingSnapshot := None, lastApplied := commitIndex))
      ensures var n := old(NodeView());
        var from := if n.pendingSnapshot.None? then n.lastApplied else Max(n.lastApplied, n.snapshotIndex);
        sent ==
          (if n.pendingSnapshot.None? then [] else [ApplyMsg.ApplySnapshot(n.snapshotIndex, n.pendingSnapshot.value.data)])
          + Commands(n, from, n.commitIndex)
    {
      sent := [];
      while pendingSnapshot.Some?
        invariant
          if pendingSnapshot == old(pendingSnapshot) then lastApplied == old(lastApplied) && sent == []
          else
            && pendingSnapshot.None?
            && lastApplied == Max(old(lastApplied), snapshotIndex)
            && sent == [ApplyMsg.ApplySnapshot(snapshotIndex, old(pendingSnapshot).value.data)]
        decreases pendingSnapshot.Some?
      {
        var snap := pendingSnapshot.value;
        pendingSnapshot := None;
        sent := sent + [ApplyMsg.ApplySnapshot(snap.lastIncludedIndex, snap.data)];
        if snap.lastIncludedIndex > lastApplied {
          lastApplied := snap.lastIncludedIndex;
        }
      }
      ghost var from, first, n := lastApplied, sent, old(NodeView());
      while lastApplied < commitIndex && lastApplied + 1 <= LastLogIndex()
        invariant pendingSnapshot.None? && from <= lastApplied <= commitIndex
        invariant sent == first + Commands(n, from, lastApplied)
      {
        var next := lastApplied + 1;
        var entry := log[next - snapshotIndex - 1];
        lastApplied := next;
        sent := sent + [ApplyCommand(next, entry.command)];
      }
    }
  }

  // ---------------------------------------------------------------- the merge loop against its specification

  function Extended(r: Replica, entries: seq<LogEntry>): Replica {
    Replica(r.node.(log := r.node.log + entries), AppendLog(r.disk, entries))
  }

  lemma MergeChangesLog(r: Replica, req: AppendRequest, truncateOk: bool, appendOk: bool)
    requires req.prevLogIndex <= r.node.LastIndex()
    ensures var r' := Merge(r, req, truncateOk, appendOk).0;
      r'.node == r.node.(log := r'.node.log) && r'.disk.hard == r.disk.hard
  {
    hide Repeated;
    hide Fresh;
  }

  /** The first `k` incoming entries repeat stored terms. */
  predicate Scanned(log: seq<LogEntry>, at: nat, incoming: seq<LogEntry>, k: nat) {
    && k <= |incoming| && at + k <= |log|
    && Repeated(log, at, incoming) == k + Repeated(log, at + k, incoming[k..])
  }

  lemma ScanNone(log: seq<LogEntry>, at: nat, incoming: seq<LogEntry>)
    requires at <= |log|
    ensures Scanned(log, at, incoming, 0)
  {
    assert incoming[0..] == incoming;
  }

  lemma ScanOne(log: seq<LogEntry>, at: nat, incoming: seq<LogEntry>, k: nat)
    requires Scanned(log, at, incoming, k) && k < |incoming| && at + k < |log| && log[at + k].term == incoming[k].term
    ensures Scanned(log, at, incoming, k + 1)
  {
    assert incoming[k..][1..] == incoming[k + 1..];
  }

  lemma ScanStops(log: seq<LogEntry>, at: nat, incoming: seq<LogEntry>, k: nat)
    requires Scanned(log, at, incoming, k) && k < |incoming|
    requires at + k < |log| ==> log[at + k].term != incoming[k].term
    ensures Repeated(log, at, incoming) == k
  {
  }

  lemma ScanAll(log: seq<LogEntry>, at: nat, incoming: seq<LogEntry>)
    requires Scanned(log, at, incoming, |incoming|)
    ensures Repeated(log, at, incoming) == |incoming|
  {
  }

  /** An incoming entry is covered by the snapshot, or has its place among the fresh ones. */
  lemma FreshAt(n: Node, req: AppendRequest, i: nat)
    requires req.prevLogIndex <= n.LastIndex() && i < |req.entries|
    ensures var at, incoming := Start(n, req), Fresh(n, req);
      var skip := |req.entries| - |incoming|;
      && 0 <= skip
      && (i < skip <==> req.prevLogIndex + i + 1 <= n.snapshotIndex)
      && (skip <= i ==>
            && incoming[i - skip] == req.entries[i] && incoming[i - skip..] == req.entries[i..]
            && at + (i - skip) == req.prevLogIndex + i - n.snapshotIndex)
  {
  }

  lemma FreshFits(n: Node, req: AppendRequest)
    requires req.prevLogIndex <= n.LastIndex()
    ensures Start(n, req) <= |n.log| && |Fresh(n, req)| <= |req.entries|
  {
  }

  lemma RequestMeans(id: NodeId, n: Node, peer: NodeId, req: AppendRequest)
    requires SliceInBounds(n, peer) && req.prevLogIndex == NextFor(n, peer) - 1
    requires req.term == n.currentTerm && req.leader == id && req.leaderCommit == n.commitIndex
    requires req.prevLogTerm ==
      if req.prevLogIndex > n.snapshotIndex then n.EntryAt(req.prevLogIndex).term else n.snapshotTerm
    requires if req.prevLogIndex < n.LastIndex() then req.entries == n.log[req.prevLogIndex - n.snapshotIndex..]
             else req.entries == []
    ensures req == AppendRequestFor(id, n, peer)
  {
    hide NextFor;
    assert n.log[|n.log|..] == [];
  }

  // ---------------------------------------------------------------- the commit scan against its specification

  lemma CommitsTo(cfg: Config, r: Replica, target: nat, ok: bool)
    requires CommitTarget(cfg, r.node, r.node.LastIndex()) == target
    ensures NodeModel.AdvanceCommit(cfg, r, ok) ==
      if target == r.node.commitIndex then r
      else if ok then SaveHard(r.(node := r.node.(commitIndex := target)), true)
      else r.(node := r.node.(commitIndex := target, degraded := true))
  {
  }

  // ---------------------------------------------------------------- the apply stream

  /** The command messages for the entries above `from` up to `last`. */
  function Commands(n: Node, from: nat, last: nat): seq<ApplyMsg>
    requires n.snapshotIndex <= from && last <= n.LastIndex()
  {
    if last <= from then [] else Commands(n, from, last - 1) + [ApplyCommand(last, n.EntryAt(last).command)]
  }

  lemma {:induction false} CommandsAt(n: Node, from: nat, last: nat, k: nat)
    requires n.snapshotIndex <= from <= last <= n.LastIndex() && k < last - from
    ensures |Commands(n, from, last)| == last - from
    ensures Commands(n, from, last)[k] == ApplyCommand(from + 1 + k, n.EntryAt(from + 1 + k).command)
    decreases last
  {
    if k < last - from - 1 {
      CommandsAt(n, from, last - 1, k);
    } else if 0 < k {
      CommandsAt(n, from, last - 1, k - 1);
    } else {
      assert Commands(n, from, last - 1) == [];
    }
  }
}
