/** Repeated AppendEntries requests: the same request twice changes nothing more, and a refused leader finds
    a position the follower accepts. */
module Backoff {
  import opened Types
  import opened NodeModel
  import opened StepsElection
  import opened StepsReplication

  // ---------------------------------------------------------------- repeats

  /** Entries that are all in the log at `at` repeat it entirely. */
  lemma {:induction false} RepeatedAll(log: seq<LogEntry>, at: nat, entries: seq<LogEntry>)
    requires at + |entries| <= |log|
    requires forall j :: 0 <= j < |entries| ==> log[at + j].term == entries[j].term
    ensures Repeated(log, at, entries) == |entries|
    decreases |entries|
  {
    if entries != [] {
      assert log[at + 0].term == entries[0].term;
      forall j | 0 <= j < |entries[1..]| ensures log[at + 1 + j].term == entries[1..][j].term {
        assert log[at + (j + 1)].term == entries[j + 1].term;
      }
      RepeatedAll(log, at + 1, entries[1..]);
    }
  }

  lemma SplicedTerms(log: seq<LogEntry>, at: nat, incoming: seq<LogEntry>, k: nat)
    requires k <= |incoming| && at + k <= |log|
    requires forall j :: 0 <= j < k ==> log[at + j].term == incoming[j].term
    ensures var log' := log[..at + k] + incoming[k..];
      at + |incoming| <= |log'| && log'[..at] == log[..at]
      && forall j :: 0 <= j < |incoming| ==> log'[at + j].term == incoming[j].term
  {
  }

  /** After a complete merge the log repeats the incoming entries, below them nothing changed. */
  lemma MergedLog(r: Replica, req: AppendRequest, truncateOk: bool, appendOk: bool)
    requires req.prevLogIndex <= r.node.LastIndex() && Merge(r, req, truncateOk, appendOk).1
    ensures var n, n' := r.node, Merge(r, req, truncateOk, appendOk).0.node;
      var at, incoming := Start(n, req), Fresh(n, req);
      && n' == n.(log := n'.log) && at + |incoming| <= |n'.log| && at <= |n.log| && n'.log[..at] == n.log[..at]
      && forall j :: 0 <= j < |incoming| ==> n'.log[at + j].term == incoming[j].term
  {
    hide Merge;
    var n, at, incoming := r.node, Start(r.node, req), Fresh(r.node, req);
    MergeLog(r, req, truncateOk, appendOk);
    RepeatedTerms(n.log, at, incoming);
    hide Fresh;
    SplicedTerms(n.log, at, incoming, Repeated(n.log, at, incoming));
  }

  lemma MergeNothing(r: Replica, req: AppendRequest, truncateOk: bool, appendOk: bool)
    requires req.prevLogIndex <= r.node.LastIndex()
    requires Repeated(r.node.log, Start(r.node, req), Fresh(r.node, req)) == |Fresh(r.node, req)|
    ensures Merge(r, req, truncateOk, appendOk) == (r, true)
  {
  }

  /** A node that has taken in a request has nothing left to do for it. */
  predicate TakenIn(r: Replica, req: AppendRequest) {
    && !r.node.degraded
    && r.node.role == Follower
    && r.node.currentTerm == req.term
    && Refusal(r.node, req).None?
    && Repeated(r.node.log, Start(r.node, req), Fresh(r.node, req)) == |Fresh(r.node, req)|
    && r.node.commitIndex == FollowerCommit(r.node, req.leaderCommit)
    && (req.leaderCommit > r.node.commitIndex ==> r.disk.hard == r.node.Hard())
  }

  lemma HandleAgain(r: Replica, req: AppendRequest, f: AppendFaults)
    requires TakenIn(r, req)
    ensures HandleAppendEntries(r, req, f).0 == r
    ensures req.leaderCommit <= r.node.LastIndex() ==>
      HandleAppendEntries(r, req, f).1 == Some(AppendResponse(req.term, true, 0, 0))
  {
    MergeNothing(r, req, f.truncateOk, f.appendOk);
  }

  lemma MergeTakesIn(r: Replica, req: AppendRequest, truncateOk: bool, appendOk: bool)
    requires req.prevLogIndex <= r.node.LastIndex() && Refusal(r.node, req).None? && Merge(r, req, truncateOk, appendOk).1
    ensures var n' := Merge(r, req, truncateOk, appendOk).0.node;
      && n' == r.node.(log := n'.log)
      && Refusal(n', req).None?
      && Repeated(n'.log, Start(n', req), Fresh(n', req)) == |Fresh(n', req)|
  {
    hide Merge;
    MergedLog(r, req, truncateOk, appendOk);
    var n, n' := r.node, Merge(r, req, truncateOk, appendOk).0.node;
    assert Start(n', req) == Start(n, req) && Fresh(n', req) == Fresh(n, req);
    RepeatedAll(n'.log, Start(n, req), Fresh(n, req));
    if n.snapshotIndex < req.prevLogIndex {
      var at := Start(n, req);
      assert n'.log[..at][at - 1] == n.log[..at][at - 1];
    }
  }

  lemma AcceptedTakesIn(r: Replica, req: AppendRequest, f: AppendFaults)
    requires HandleAppendEntries(r, req, f).1.Some? && HandleAppendEntries(r, req, f).1.value.success
    ensures TakenIn(HandleAppendEntries(r, req, f).0, req)
    ensures HandleAppendEntries(r, req, f).1 == Some(AppendResponse(req.term, true, 0, 0))
  {
    hide Merge;
    hide Repeated;
    hide FirstIndexOfTerm;
    var r1 := Follow(r, req.term);
    assert Refusal(r1.node, req).None?;
    MergeTakesIn(r1, req, f.truncateOk, f.appendOk);
  }

  /** Handling an accepted request once more, with any storage verdicts, changes neither node nor disk. */
  lemma AppendIdempotent(r: Replica, req: AppendRequest, f: AppendFaults, again: AppendFaults)
    requires HandleAppendEntries(r, req, f).1.Some? && HandleAppendEntries(r, req, f).1.value.success
    ensures var r' := HandleAppendEntries(r, req, f).0;
      && HandleAppendEntries(r', req, again).0 == r'
      && (req.leaderCommit <= r'.node.LastIndex() ==>
            HandleAppendEntries(r', req, again).1 == HandleAppendEntries(r, req, f).1)
  {
    hide TakenIn;
    hide HandleAppendEntries;
    AcceptedTakesIn(r, req, f);
    HandleAgain(HandleAppendEntries(r, req, f).0, req, again);
  }

  // ---------------------------------------------------------------- searching for a term

  /** The conflict hint is the first index of its term in the log, or 0 when the term does not occur. */
  lemma {:induction false} FirstIndexIsFirst(log: seq<LogEntry>, offset: nat, term: nat)
    ensures var f := FirstIndexOfTerm(log, offset, term);
      && (f == 0 ==> forall k :: 0 <= k < |log| ==> log[k].term != term)
      && (f != 0 ==>
            && offset < f <= offset + |log|
            && log[f - offset - 1].term == term
            && forall k :: 0 <= k < f - offset - 1 ==> log[k].term != term)
    decreases |log|
  {
    if log != [] && log[0].term != term {
      FirstIndexIsFirst(log[1..], offset + 1, term);
      assert forall k :: 0 < k < |log| ==> log[k] == log[1..][k - 1];
    }
  }

  /** The leader's use of the hint is the last index of that term in its log, or 0 when the term does not occur. */
  lemma {:induction false} LastIndexIsLast(log: seq<LogEntry>, offset: nat, term: nat)
    ensures var f := LastIndexOfTerm(log, offset, term);
      && (f == 0 ==> forall k :: 0 <= k < |log| ==> log[k].term != term)
      && (f != 0 ==>
            && offset < f <= offset + |log|
            && log[f - offset - 1].term == term
            && forall k :: f - offset <= k < |log| ==> log[k].term != term)
    decreases |log|
  {
    if log != [] && log[|log| - 1].term != term {
      LastIndexIsLast(log[..|log| - 1], offset, term);
    }
  }

  // ---------------------------------------------------------------- backing off

  /** A refusal lowers the next index, down to 1. */
  lemma BackOffProgress(n: Node, next: nat, resp: AppendResponse)
    ensures 1 <= BackOff(n, next, resp)
    ensures next > 1 ==> BackOff(n, next, resp) < next
  {
  }

  /** A log that starts at the beginning has no snapshot term. */
  predicate NoTermBelowZero(n: Node) { n.snapshotIndex == 0 ==> n.snapshotTerm == 0 }

  /** The request a leader sends to a peer whose next index is `next`. */
  function RequestAt(id: NodeId, n: Node, peer: NodeId, next: nat): AppendRequest
    requires n.snapshotIndex < next <= n.LastIndex() + 1
  {
    AppendRequestFor(id, n.(nextIndex := n.nextIndex[peer := next]), peer)
  }

  /** A request at the very beginning of the log is never refused for a conflict. */
  lemma StartNeverRefused(id: NodeId, n: Node, peer: NodeId, follower: Node)
    requires NoTermBelowZero(n) && NoTermBelowZero(follower) && n.snapshotIndex == 0
    ensures Refusal(follower, RequestAt(id, n, peer, 1)).None?
  {
  }

  /** One leader probing one follower, both otherwise unchanged: the number of refusals until the follower
      accepts or the leader sends its snapshot, and the next index reached. */
  function Probe(id: NodeId, n: Node, peer: NodeId, follower: Node, next: nat): (res: (nat, nat))
    requires NoTermBelowZero(n) && NoTermBelowZero(follower) && 1 <= next <= n.LastIndex() + 1
    ensures res.0 + res.1 <= next && 1 <= res.1
    ensures res.1 <= n.snapshotIndex || Refusal(follower, RequestAt(id, n, peer, res.1)).None?
    decreases next
  {
    if next <= n.snapshotIndex then (0, next)
    else
      match Refusal(follower, RequestAt(id, n, peer, next))
      case None => (0, next)
      case Some(resp) =>
        BackOffProgress(n, next, resp);
        assert next > 1 by { if next == 1 { StartNeverRefused(id, n, peer, follower); } }
        var (rounds, reached) := Probe(id, n, peer, follower, BackOff(n, next, resp));
        (rounds + 1, reached)
  }
}
