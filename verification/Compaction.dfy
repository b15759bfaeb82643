/** Log compaction does not show in what the handlers decide. */
module Compaction {
  import opened Types
  import opened NodeModel
  import opened Cluster
  import opened Invariants
  import opened Safety
  import Frames
  import StepsElection

  /** The same node with its compacted prefix put back. */
  function Uncompact(n: Node, pre: seq<LogEntry>): Node {
    n.(log := pre + n.log, snapshotIndex := 0, snapshotTerm := 0, snapshot := None, pendingSnapshot := None)
  }

  /** `pre` is what the node's snapshot stands for. */
  predicate StandsFor(n: Node, pre: seq<LogEntry>) {
    |pre| == n.snapshotIndex && n.snapshotTerm == TermAt(pre, |pre|)
  }

  /** Two replicas differ only in that the second one has the compacted prefix. */
  predicate Uncompacted(r: Replica, u: Replica, pre: seq<LogEntry>) {
    StandsFor(r.node, pre) && u.node == Uncompact(r.node, pre) && u.disk.hard == r.disk.hard
  }

  lemma SameEnd(n: Node, pre: seq<LogEntry>)
    requires StandsFor(n, pre)
    ensures var u := Uncompact(n, pre);
      && u.LastIndex() == n.LastIndex() && u.LastTerm() == n.LastTerm()
      && forall i :: n.snapshotIndex < i <= n.LastIndex() ==> u.EntryAt(i) == n.EntryAt(i)
  {
  }

  // ---------------------------------------------------------------- votes

  /** A vote request is answered, and recorded, as on the uncompacted log. */
  lemma VoteUnaffected(r: Replica, u: Replica, pre: seq<LogEntry>, req: VoteRequest, termOk: bool, voteOk: bool)
    requires Uncompacted(r, u, pre)
    ensures HandleRequestVote(u, req, termOk, voteOk).1 == HandleRequestVote(r, req, termOk, voteOk).1
    ensures Uncompacted(
              HandleRequestVote(r, req, termOk, voteOk).0, HandleRequestVote(u, req, termOk, voteOk).0, pre)
  {
    SameEnd(r.node, pre);
  }

  // ---------------------------------------------------------------- appends

  /** What a request says about positions up to the end of `pre` has the terms that `pre` has. */
  predicate Consistent(pre: seq<LogEntry>, req: AppendRequest) {
    && (req.prevLogIndex <= |pre| ==> req.prevLogTerm == TermAt(pre, req.prevLogIndex))
    && forall j :: 0 <= j < |req.entries| && req.prevLogIndex + j < |pre| ==>
         req.entries[j].term == pre[req.prevLogIndex + j].term
  }

  /** Putting a prefix in front shifts the search for a term, unless the prefix has it. */
  lemma {:induction false} FirstIndexShift(pre: seq<LogEntry>, log: seq<LogEntry>, offset: nat, term: nat)
    ensures var f := FirstIndexOfTerm(pre + log, offset, term);
      f == FirstIndexOfTerm(log, offset + |pre|, term) || offset < f <= offset + |pre|
    decreases |pre|
  {
    if pre == [] {
      assert pre + log == log;
    } else {
      assert (pre + log)[1..] == pre[1..] + log;
      FirstIndexShift(pre[1..], log, offset + 1, term);
    }
  }

  /** The refusal on the compacted log: the same decision and the same conflict term, and a conflict index that
      differs only where the uncompacted search ends inside the compacted prefix. */
  predicate SameRefusal(x: Option<AppendResponse>, full: Option<AppendResponse>, index: nat) {
    && (x.None? <==> full.None?)
    && (x.Some? && full.Some? ==>
          && x.value == full.value.(conflictIndex := x.value.conflictIndex)
          && (x.value.conflictIndex == full.value.conflictIndex || 0 < full.value.conflictIndex <= index))
  }

  lemma RefusalUnaffected(n: Node, pre: seq<LogEntry>, req: AppendRequest)
    requires StandsFor(n, pre) && Consistent(pre, req)
    ensures SameRefusal(Refusal(n, req), Refusal(Uncompact(n, pre), req), n.snapshotIndex)
  {
    SameEnd(n, pre);
    var u := Uncompact(n, pre);
    if n.snapshotIndex < req.prevLogIndex <= n.LastIndex() {
      FirstIndexShift(pre, n.log, 0, n.EntryAt(req.prevLogIndex).term);
    } else if 0 < req.prevLogIndex <= n.snapshotIndex {
      assert u.EntryAt(req.prevLogIndex) == pre[req.prevLogIndex - 1];
    }
  }

  /** The merge skips, on the uncompacted log, exactly the incoming entries that the compacted node drops. */
  lemma {:induction false} RepeatedShift(pre: seq<LogEntry>, log: seq<LogEntry>, at: nat, entries: seq<LogEntry>)
    requires at <= |pre|
    requires forall j :: 0 <= j < |entries| && at + j < |pre| ==> entries[j].term == pre[at + j].term
    ensures var skip := Min(|pre| - at, |entries|);
      Repeated(pre + log, at, entries) == skip + Repeated(log, 0, entries[skip..])
    decreases |entries|
  {
    if entries == [] {
    } else if at == |pre| {
      assert entries[0..] == entries;
      RepeatedOffset(pre, log, 0, entries);
    } else {
      assert entries[0].term == pre[at + 0].term;
      forall j | 0 <= j < |entries[1..]| && at + 1 + j < |pre| ensures entries[1..][j].term == pre[at + 1 + j].term {
        assert entries[j + 1].term == pre[at + (j + 1)].term;
      }
      RepeatedShift(pre, log, at + 1, entries[1..]);
      var skip := Min(|pre| - at, |entries|);
      assert entries[1..][skip - 1..] == entries[skip..];
    }
  }

  lemma {:induction false} RepeatedOffset(pre: seq<LogEntry>, log: seq<LogEntry>, at: nat, entries: seq<LogEntry>)
    requires at <= |log|
    ensures Repeated(pre + log, |pre| + at, entries) == Repeated(log, at, entries)
    decreases |entries|
  {
    if entries != [] && at < |log| {
      assert (pre + log)[|pre| + at] == log[at];
      RepeatedOffset(pre, log, at + 1, entries[1..]);
    }
  }

  /** The merge of the compacted node, seen on the uncompacted log. */
  lemma MergePositions(n: Node, pre: seq<LogEntry>, req: AppendRequest)
    requires StandsFor(n, pre) && Consistent(pre, req) && req.prevLogIndex <= n.LastIndex()
    ensures var u := Uncompact(n, pre);
      var skip := |req.entries| - |Fresh(n, req)|;
      && 0 <= skip <= |req.entries| && Start(u, req) == req.prevLogIndex && Fresh(u, req) == req.entries
      && req.entries[skip..] == Fresh(n, req)
      && (skip < |req.entries| ==> req.prevLogIndex + skip == n.snapshotIndex + Start(n, req))
      && Repeated(u.log, req.prevLogIndex, req.entries) == skip + Repeated(n.log, Start(n, req), Fresh(n, req))
  {
    if req.prevLogIndex >= n.snapshotIndex {
      assert req.entries[0..] == req.entries;
      RepeatedOffset(pre, n.log, req.prevLogIndex - n.snapshotIndex, req.entries);
    } else {
      RepeatedShift(pre, n.log, req.prevLogIndex, req.entries);
    }
  }

  /** The log part of a merge whose first conflict is at `cut`, with `tail` still to be appended. */
  function MergedTo(log: seq<LogEntry>, cut: nat, tail: seq<LogEntry>, truncateOk: bool, appendOk: bool)
    : (seq<LogEntry>, bool)
    requires cut <= |log|
  {
    if tail == [] then (log, true)
    else if cut < |log| && !truncateOk then (log, false)
    else if !appendOk then (log[..cut], false)
    else (log[..cut] + tail, true)
  }

  lemma MergeIsMergedTo(r: Replica, req: AppendRequest, truncateOk: bool, appendOk: bool)
    requires req.prevLogIndex <= r.node.LastIndex()
    ensures var n := r.node;
      var k := Repeated(n.log, Start(n, req), Fresh(n, req));
      var (log, ok) := MergedTo(n.log, Start(n, req) + k, Fresh(n, req)[k..], truncateOk, appendOk);
      var m := Merge(r, req, truncateOk, appendOk);
      m.0.node == n.(log := log) && m.1 == ok && m.0.disk.hard == r.disk.hard
  {
    hide Fresh;
    hide Repeated;
    assert r.node.log[..|r.node.log|] == r.node.log;
  }

  lemma MergedToShift(
    pre: seq<LogEntry>, log: seq<LogEntry>, cut: nat, tail: seq<LogEntry>, truncateOk: bool, appendOk: bool)
    requires cut <= |log|
    ensures var (x, ok) := MergedTo(log, cut, tail, truncateOk, appendOk);
      MergedTo(pre + log, |pre| + cut, tail, truncateOk, appendOk) == (pre + x, ok)
  {
    assert (pre + log)[..|pre| + cut] == pre + log[..cut];
    assert pre + (log[..cut] + tail) == (pre + log[..cut]) + tail;
  }

  lemma MergedToSame(
    pre: seq<LogEntry>, log: seq<LogEntry>, at: nat, k: nat, incoming: seq<LogEntry>, prev: nat, entries: seq<LogEntry>,
    truncateOk: bool, appendOk: bool)
    requires |incoming| <= |entries| && entries[|entries| - |incoming|..] == incoming
    requires k <= |incoming| && at + k <= |log| && prev + (|entries| - |incoming| + k) <= |pre + log|
    requires incoming != [] ==> prev + |entries| - |incoming| == |pre| + at
    ensures var (x, ok) := MergedTo(log, at + k, incoming[k..], truncateOk, appendOk);
      var k' := |entries| - |incoming| + k;
      MergedTo(pre + log, prev + k', entries[k'..], truncateOk, appendOk) == (pre + x, ok)
  {
    assert entries[|entries| - |incoming| + k..] == incoming[k..];
    if k < |incoming| {
      MergedToShift(pre, log, at + k, incoming[k..], truncateOk, appendOk);
    }
  }

  /** A merge on the compacted log is the merge on the uncompacted one. */
  lemma MergeUnaffected(r: Replica, u: Replica, pre: seq<LogEntry>, req: AppendRequest, truncateOk: bool, appendOk: bool)
    requires Uncompacted(r, u, pre) && Consistent(pre, req) && req.prevLogIndex <= r.node.LastIndex()
    ensures req.prevLogIndex <= u.node.LastIndex()
    ensures Merge(u, req, truncateOk, appendOk).1 == Merge(r, req, truncateOk, appendOk).1
    ensures Uncompacted(Merge(r, req, truncateOk, appendOk).0, Merge(u, req, truncateOk, appendOk).0, pre)
  {
    hide Merge;
    hide Fresh;
    hide Repeated;
    hide MergedTo;
    hide Start;
    var n := r.node;
    MergeIsMergedTo(r, req, truncateOk, appendOk);
    MergeIsMergedTo(u, req, truncateOk, appendOk);
    MergePositions(n, pre, req);
    var at, k := Start(n, req), Repeated(n.log, Start(n, req), Fresh(n, req));
    MergedToSame(pre, n.log, at, k, Fresh(n, req), req.prevLogIndex, req.entries, truncateOk, appendOk);
  }

  /** An AppendEntries request is accepted or refused, logged and committed as on the uncompacted log. */
  lemma AppendUnaffected(r: Replica, u: Replica, pre: seq<LogEntry>, req: AppendRequest, f: AppendFaults)
    requires Uncompacted(r, u, pre) && (r.node.currentTerm <= req.term ==> Consistent(pre, req))
    ensures Uncompacted(HandleAppendEntries(r, req, f).0, HandleAppendEntries(u, req, f).0, pre)
    ensures SameRefusal(HandleAppendEntries(r, req, f).1, HandleAppendEntries(u, req, f).1, r.node.snapshotIndex)
  {
    hide Merge;
    hide Refusal;
    hide Consistent;
    if !r.node.degraded && r.node.currentTerm <= req.term {
      var r1, u1 := StepsElection.Follow(r, req.term), StepsElection.Follow(u, req.term);
      RefusalUnaffected(r1.node, pre, req);
      if Refusal(r1.node, req).None? {
        AcceptedInRange(r1.node, req);
        MergeUnaffected(r1, u1, pre, req, f.truncateOk, f.appendOk);
        SameEnd(Merge(r1, req, f.truncateOk, f.appendOk).0.node, pre);
      }
    }
  }

  lemma AcceptedInRange(n: Node, req: AppendRequest)
    requires Refusal(n, req).None?
    ensures req.prevLogIndex <= n.LastIndex()
  {
  }

  // ---------------------------------------------------------------- reachable states

  /** The requests of a reachable state are consistent with what their receiver has compacted. */
  lemma RequestsConsistent(c: Cluster, id: NodeId, req: AppendRequest)
    requires Inv(c) && id in c.servers && AppendReq(id, req) in c.net
    requires c.servers[id].rep.node.currentTerm <= req.term
    ensures var n := c.servers[id].rep.node;
      n.snapshotIndex <= |c.history.committed| && Consistent(c.history.committed[..n.snapshotIndex], req)
  {
    var h, members, s := c.history, c.servers.Keys, c.servers[id];
    var n := s.rep.node;
    assert MessageInv(h, members, AppendReq(id, req));
    assert ServerInv(h, members, id, s);
    Frames.ExtendsSelf(h);
    Frames.CoveredGrows(h, h, n.commitIndex, n.snapshotIndex, s.rep.disk.hard.currentTerm, req.term);
    CommittedInLeader(h, members, n.snapshotIndex, req.term, req.term);
  }

  /** In every reachable state, a server handles every request in the network as it would with nothing compacted. */
  lemma CompactionInvisible(
    c: Cluster, id: NodeId, req: AppendRequest, f: AppendFaults, u: Replica, pre: seq<LogEntry>)
    requires Inv(c) && id in c.servers && AppendReq(id, req) in c.net
    requires var r := c.servers[id].rep;
      && pre == c.history.committed[..Min(r.node.snapshotIndex, |c.history.committed|)]
      && u.node == Uncompact(r.node, pre) && u.disk.hard == r.disk.hard
    ensures var r := c.servers[id].rep;
      && Uncompacted(HandleAppendEntries(r, req, f).0, HandleAppendEntries(u, req, f).0, pre)
      && SameRefusal(HandleAppendEntries(r, req, f).1, HandleAppendEntries(u, req, f).1, r.node.snapshotIndex)
  {
    hide HandleAppendEntries;
    hide Uncompact;
    var r := c.servers[id].rep;
    assert ServerInv(c.history, c.servers.Keys, id, c.servers[id]);
    assert SnapshotInv(c.history, c.servers[id]);
    if r.node.currentTerm <= req.term {
      RequestsConsistent(c, id, req);
    }
    hide Inv;
    hide ServerInv;
    AppendUnaffected(r, u, pre, req, f);
  }
}
