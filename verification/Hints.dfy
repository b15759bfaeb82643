/** What a refused AppendEntries request tells its leader: which index a follower reports, where the leader lands, and
    that on the way it passes over no position the follower would have accepted. */
module Hints {
  import opened Types
  import opened NodeModel
  import opened Cluster
  import opened Invariants
  import opened Backoff
  import opened Obligations
  import opened Theorems
  import Frames
  import LogChanges
  import LogMatching
  import Progress
  import Safety

  /** Terms are positive and never decrease along the log. */
  predicate Ordered(full: seq<LogEntry>) {
    forall j, k :: 0 <= j <= k < |full| ==> 0 < full[j].term <= full[k].term
  }

  /** A follower and the uncompacted log of a leader that holds everything the follower has compacted. */
  predicate Meets(n: Node, full: seq<LogEntry>, f: Node, held: seq<LogEntry>) {
    && LogIs(n, full) && LogIs(f, held) && Ordered(full) && Ordered(held)
    && Agree(full, held, 0, f.snapshotIndex)
  }

  // ---------------------------------------------------------------- what the follower reports

  /** No entry of term `t` at positions lo..hi-1. */
  predicate Lacks(full: seq<LogEntry>, lo: nat, hi: nat, t: nat) {
    hi <= |full| && forall k :: lo <= k < hi ==> full[k].term != t
  }

  /** `i` is the first index above `from` with an entry of term `t`. */
  predicate FirstOf(full: seq<LogEntry>, from: nat, t: nat, i: nat) {
    from < i <= |full| && full[i - 1].term == t && Lacks(full, from, i - 1, t)
  }

  /** `i` is the last index above `from` with an entry of term `t`. */
  predicate LastAt(full: seq<LogEntry>, from: nat, t: nat, i: nat) {
    from < i <= |full| && full[i - 1].term == t && Lacks(full, i, |full|, t)
  }

  /** The follower's uncompacted log has an entry of the given term at the given index; index 0 is there with term 0. */
  predicate Holds(full: seq<LogEntry>, index: nat, term: nat) { index <= |full| && TermAt(full, index) == term }

  /** A follower refuses exactly when its uncompacted log does not hold the entry before the new ones. It reports the
      end of its log when that is too short, and otherwise the term it has there and the first index of that term
      that it still keeps. */
  lemma RefusalReports(f: Node, held: seq<LogEntry>, req: AppendRequest)
    requires LogIs(f, held)
    requires req.prevLogIndex <= f.snapshotIndex ==> Holds(held, req.prevLogIndex, req.prevLogTerm)
    ensures Refusal(f, req).None? <==> Holds(held, req.prevLogIndex, req.prevLogTerm)
    ensures Refusal(f, req).Some? ==>
      var resp := Refusal(f, req).value;
      && resp.term == req.term && !resp.success
      && if req.prevLogIndex > |held| then resp.conflictTerm == 0 && resp.conflictIndex == |held| + 1
         else
           && f.snapshotIndex < req.prevLogIndex
           && resp.conflictTerm == held[req.prevLogIndex - 1].term
           && resp.conflictIndex <= req.prevLogIndex
           && FirstOf(held, f.snapshotIndex, resp.conflictTerm, resp.conflictIndex)
  {
    hide FirstIndexOfTerm;
    if f.snapshotIndex < req.prevLogIndex <= |held| {
      var t := held[req.prevLogIndex - 1].term;
      assert f.EntryAt(req.prevLogIndex) == held[req.prevLogIndex - 1];
      FirstKept(f, held, t, req.prevLogIndex);
    }
  }

  lemma FirstKept(f: Node, held: seq<LogEntry>, t: nat, index: nat)
    requires LogIs(f, held) && f.snapshotIndex < index <= |held| && held[index - 1].term == t
    ensures var i := FirstIndexOfTerm(f.log, f.snapshotIndex, t); i <= index && FirstOf(held, f.snapshotIndex, t, i)
  {
    FirstIndexIsFirst(f.log, f.snapshotIndex, t);
    hide FirstIndexOfTerm;
    var i := FirstIndexOfTerm(f.log, f.snapshotIndex, t);
    assert f.log[index - f.snapshotIndex - 1].term == t;
    forall k | f.snapshotIndex <= k < i - 1 ensures held[k].term != t {
      assert f.log[k - f.snapshotIndex] == held[k];
    }
  }

  // ---------------------------------------------------------------- where the leader lands

  /** A leader told of a term goes to just after its own last entry of that term, if it keeps one, and otherwise to
      the reported index; when that is no step back it goes back by one. */
  lemma LeaderLands(n: Node, full: seq<LogEntry>, next: nat, resp: AppendResponse)
    requires LogIs(n, full) && 1 < next
    ensures var next' := BackOff(n, next, resp);
      var t := resp.conflictTerm;
      && (0 < t ==> forall l: nat :: LastAt(full, n.snapshotIndex, t, l) ==> next' == Min(l + 1, next - 1))
      && (0 < resp.conflictIndex && (t == 0 || Lacks(full, n.snapshotIndex, |full|, t)) ==>
            next' == Min(resp.conflictIndex, next - 1))
  {
    var t := resp.conflictTerm;
    LastIndexIsLast(n.log, n.snapshotIndex, t);
    hide LastIndexOfTerm;
    var last := LastIndexOfTerm(n.log, n.snapshotIndex, t);
    forall l: nat | LastAt(full, n.snapshotIndex, t, l) ensures last == l {
      assert n.log[l - n.snapshotIndex - 1] == full[l - 1];
      assert last != 0;
      assert n.log[last - n.snapshotIndex - 1] == full[last - 1];
    }
    if last != 0 {
      assert full[last - 1] == n.log[last - n.snapshotIndex - 1];
    }
  }

  /** Reading a refusal of its own term moves the leader's next index for that peer to where it lands, and nothing
      else. */
  lemma RefusedLeaderLands(
    cfg: Config, r: Replica, full: seq<LogEntry>, peer: NodeId, req: AppendRequest, resp: AppendResponse, ok: bool)
    requires LogIs(r.node, full) && r.node.role == Leader && 1 < Get(r.node.nextIndex, peer)
    requires req.term == r.node.currentTerm && resp.term <= req.term && !resp.success && 0 < resp.conflictIndex
    ensures var r' := OnAppendReply(cfg, r, peer, req, resp, ok);
      var n, next, next', t := r.node, Get(r.node.nextIndex, peer), Get(r'.node.nextIndex, peer), resp.conflictTerm;
      && r'.disk == r.disk && r'.node == n.(nextIndex := r'.node.nextIndex)
      && (forall p :: p != peer ==> Get(r'.node.nextIndex, p) == Get(n.nextIndex, p))
      && (0 < t ==> forall l: nat :: LastAt(full, n.snapshotIndex, t, l) ==> next' == Min(l + 1, next - 1))
      && (t == 0 || Lacks(full, n.snapshotIndex, |full|, t) ==> next' == Min(resp.conflictIndex, next - 1))
  {
    LeaderLands(r.node, full, Get(r.node.nextIndex, peer), resp);
    hide BackOff;
    hide AdvanceCommit;
    hide Lacks;
    hide LastAt;
  }

  lemma LastKept(n: Node, full: seq<LogEntry>, t: nat) returns (l: nat)
    requires LogIs(n, full)
    ensures l == 0 ==> Lacks(full, n.snapshotIndex, |full|, t)
    ensures l != 0 ==> LastAt(full, n.snapshotIndex, t, l)
  {
    LastIndexIsLast(n.log, n.snapshotIndex, t);
    l := LastIndexOfTerm(n.log, n.snapshotIndex, t);
    hide LastIndexOfTerm;
    forall k | n.snapshotIndex <= k < |full| && l <= k ensures full[k].term != t {
      assert n.log[k - n.snapshotIndex] == full[k];
    }
  }

  // ---------------------------------------------------------------- nothing skipped

  /** The request of a leader at `at` asks for the entry its uncompacted log has before `at`. */
  lemma ProbeAsks(id: NodeId, n: Node, full: seq<LogEntry>, peer: NodeId, f: Node, held: seq<LogEntry>, at: nat)
    requires Meets(n, full, f, held) && n.snapshotIndex < at <= |full| + 1
    ensures var req := RequestAt(id, n, peer, at);
      && req.prevLogIndex == at - 1 && req.prevLogTerm == TermAt(full, at - 1)
      && (at - 1 <= f.snapshotIndex ==> Holds(held, at - 1, req.prevLogTerm))
      && (Refusal(f, req).None? <==> Holds(held, at - 1, TermAt(full, at - 1)))
  {
    hide Refusal;
    var req := RequestAt(id, n, peer, at);
    if n.snapshotIndex < at - 1 {
      assert n.EntryAt(at - 1) == full[at - 2];
    }
    RefusalReports(f, held, req);
  }

  /** The leader has compacted all its entries of the reported term but reaches below its snapshot for them. */
  predicate TermCompacted(n: Node, resp: AppendResponse) {
    && 0 < resp.conflictTerm == n.snapshotTerm
    && 0 < resp.conflictIndex <= n.snapshotIndex
    && forall k :: 0 <= k < |n.log| ==> n.log[k].term != resp.conflictTerm
  }

  lemma LeaderHasTerm(n: Node, full: seq<LogEntry>, held: seq<LogEntry>, prev: nat, l: nat, p: nat)
    requires Ordered(full) && Ordered(held) && 0 < prev <= |full| && prev <= |held|
    requires LastAt(full, n.snapshotIndex, held[prev - 1].term, l) && l < p <= prev
    ensures full[p - 1].term != held[p - 1].term
  {
    assert full[l - 1].term <= full[p - 1].term && held[p - 1].term <= held[prev - 1].term;
  }

  lemma LeaderLacksTerm(full: seq<LogEntry>, from: nat, held: seq<LogEntry>, prev: nat, i: nat, p: nat)
    requires Ordered(held) && 0 < prev <= |full| && prev <= |held| && FirstOf(held, from, held[prev - 1].term, i)
    requires i <= p <= prev
    ensures held[p - 1].term == held[prev - 1].term
  {
    assert held[i - 1].term <= held[p - 1].term <= held[prev - 1].term;
  }

  /** Backing off passes over no position that the follower would have accepted, except the one at the leader's
      snapshot, and that one exactly when the reported term is the snapshot's and the leader keeps no entry of it. */
  lemma NothingSkipped(
    id: NodeId, n: Node, full: seq<LogEntry>, peer: NodeId, f: Node, held: seq<LogEntry>, next: nat, at: nat)
    requires Meets(n, full, f, held) && n.snapshotIndex < next <= |full| + 1
    requires Refusal(f, RequestAt(id, n, peer, next)).Some?
    requires n.snapshotIndex < at && BackOff(n, next, Refusal(f, RequestAt(id, n, peer, next)).value) < at <= next
    ensures Refusal(f, RequestAt(id, n, peer, at)).None? <==>
      at == n.snapshotIndex + 1 && TermCompacted(n, Refusal(f, RequestAt(id, n, peer, next)).value)
  {
    hide Refusal;
    hide RequestAt;
    hide BackOff;
    ProbeAsks(id, n, full, peer, f, held, next);
    ProbeAsks(id, n, full, peer, f, held, at);
    var resp := Refusal(f, RequestAt(id, n, peer, next)).value;
    RefusalReports(f, held, RequestAt(id, n, peer, next));
    assert 1 < next;
    LeaderLands(n, full, next, resp);
    var prev, t := next - 1, resp.conflictTerm;
    if prev <= |held| {
      var l := LastKept(n, full, t);
      assert full[prev - 1].term != t;
      if l != 0 {
        SkippedAfterTerm(n, full, held, prev, l, at);
      } else {
        SkippedToTerm(n, full, held, f.snapshotIndex, prev, resp, at);
      }
    }
  }

  lemma SkippedAfterTerm(n: Node, full: seq<LogEntry>, held: seq<LogEntry>, prev: nat, l: nat, at: nat)
    requires LogIs(n, full) && Ordered(full) && Ordered(held) && 0 < prev <= |full| && prev <= |held|
    requires full[prev - 1].term != held[prev - 1].term
    requires LastAt(full, n.snapshotIndex, held[prev - 1].term, l) && Min(l + 1, prev) < at <= prev + 1
    ensures !Holds(held, at - 1, TermAt(full, at - 1))
    ensures exists k :: 0 <= k < |n.log| && n.log[k].term == held[prev - 1].term
  {
    if l < prev {
      LeaderHasTerm(n, full, held, prev, l, at - 1);
    }
    assert n.log[l - n.snapshotIndex - 1] == full[l - 1];
  }

  lemma SkippedToTerm(
    n: Node, full: seq<LogEntry>, held: seq<LogEntry>, from: nat, prev: nat, resp: AppendResponse, at: nat)
    requires LogIs(n, full) && Ordered(full) && Ordered(held) && n.snapshotIndex <= prev <= |full| && 0 < prev <= |held|
    requires resp.conflictTerm == held[prev - 1].term != full[prev - 1].term
    requires FirstOf(held, from, resp.conflictTerm, resp.conflictIndex) && resp.conflictIndex <= prev
    requires Lacks(full, n.snapshotIndex, |full|, resp.conflictTerm)
    requires n.snapshotIndex < at && resp.conflictIndex < at <= prev + 1
    ensures Holds(held, at - 1, TermAt(full, at - 1)) <==> at == n.snapshotIndex + 1 && TermCompacted(n, resp)
  {
    LeaderLacksTerm(full, from, held, prev, resp.conflictIndex, at - 1);
    forall k | 0 <= k < |n.log| ensures n.log[k].term != resp.conflictTerm {
      assert n.log[k] == full[n.snapshotIndex + k];
    }
  }

  /** A leader probing an unchanged follower ends at the greatest position the follower accepts, or at its snapshot:
      every position above its snapshot and above the one reached is refused. */
  lemma {:induction false} ProbeFindsGreatest(
    id: NodeId, n: Node, full: seq<LogEntry>, peer: NodeId, f: Node, held: seq<LogEntry>, next: nat, at: nat)
    requires Meets(n, full, f, held) && NoTermBelowZero(n) && NoTermBelowZero(f) && 1 <= next <= |full| + 1
    requires Probe(id, n, peer, f, next).1 < at <= next && n.snapshotIndex + 1 < at
    ensures Refusal(f, RequestAt(id, n, peer, at)).Some?
    decreases next
  {
    hide Refusal;
    hide RequestAt;
    var refusal := Refusal(f, RequestAt(id, n, peer, next));
    assert refusal.Some?;
    var next' := BackOff(n, next, refusal.value);
    assert next > 1 by {
      assert at > 1;
    }
    BackOffProgress(n, next, refusal.value);
    if next' < at {
      NothingSkipped(id, n, full, peer, f, held, next, at);
    } else {
      ProbeFindsGreatest(id, n, full, peer, f, held, next', at);
    }
  }

  /** The one position passed over: a leader with entries of terms 1, 1, 3 that has compacted the first two answers a
      follower with three entries of term 1 by its snapshot, although its request just above the snapshot would be
      accepted. */
  lemma SnapshotPositionSkipped(id: NodeId, n: Node, peer: NodeId, f: Node)
    requires n.snapshotIndex == 2 && n.snapshotTerm == 1 && n.log == [LogEntry(3, Unknown)]
    requires f.snapshotIndex == 0 && f.snapshotTerm == 0
    requires f.log == [LogEntry(1, Unknown), LogEntry(1, Unknown), LogEntry(1, Unknown)]
    ensures var refusal := Refusal(f, RequestAt(id, n, peer, 4));
      refusal == Some(AppendResponse(n.currentTerm, false, 1, 1)) && BackOff(n, 4, refusal.value) == 1
    ensures Refusal(f, RequestAt(id, n, peer, 3)).None?
  {
    assert FirstIndexOfTerm(f.log, 0, 1) == 1;
    LastIndexIsLast(n.log, 2, 1);
    assert n.log[0].term == 3;
  }

  // ---------------------------------------------------------------- reachable states

  lemma MatchedOrdered(h: History, full: seq<LogEntry>)
    requires LogsInv(h) && LogChanges.Matched(h, full)
    ensures Ordered(full)
  {
    forall j, k | 0 <= j <= k < |full| ensures 0 < full[j].term <= full[k].term {
      LogMatching.MatchedTermsOrdered(h, full, j, k);
      assert Traced(h, full, 0, j);
      assert LeaderLogInv(h, full[j].term);
    }
  }

  lemma CompactedInLeader(run: seq<Cluster>, i: nat, a: NodeId, b: NodeId)
    requires IsRun(run) && i < |run| && a in run[i].servers && b in run[i].servers
    requires var n, f := run[i].servers[a].rep.node, run[i].servers[b].rep.node;
      n.role == Leader && f.currentTerm <= n.currentTerm
    ensures Agree(FullOf(run[i], a), FullOf(run[i], b), 0, run[i].servers[b].rep.node.snapshotIndex)
  {
    LeaderOnRecord(run, i, a);
    RunInv(run, i);
    hide IsRun;
    var c := run[i];
    var h, members, s, u := c.history, c.servers.Keys, c.servers[b], c.servers[a].rep.node.currentTerm;
    var f := s.rep.node;
    assert ServerInv(h, members, b, s);
    Frames.ExtendsSelf(h);
    Frames.CoveredGrows(h, h, f.commitIndex, f.snapshotIndex, s.rep.disk.hard.currentTerm, u);
    Safety.CommittedInLeader(h, members, f.snapshotIndex, u, u);
  }

  /** In every careful run, a leader and any server of no later term meet as the laws of this module ask. */
  lemma LogsMeet(run: seq<Cluster>, i: nat, a: NodeId, b: NodeId)
    requires CarefulRun(run) && i < |run| && a in run[i].servers && b in run[i].servers
    requires var n, f := run[i].servers[a].rep.node, run[i].servers[b].rep.node;
      n.role == Leader && f.currentTerm <= n.currentTerm
    ensures Meets(run[i].servers[a].rep.node, FullOf(run[i], a), run[i].servers[b].rep.node, FullOf(run[i], b))
  {
    CarefulRunMatched(run, i);
    hide CarefulAt;
    CompactedInLeader(run, i, a, b);
    Progress.LogIsFull(run, i, a);
    Progress.LogIsFull(run, i, b);
    RunInv(run, i);
    LogsOnRecord(run[i]);
    hide IsRun;
    hide Inv;
    hide LogIs;
    hide Ordered;
    assert LogMatching.MatchedAt(run[i], a) && LogMatching.MatchedAt(run[i], b);
    MatchedOrdered(run[i].history, FullOf(run[i], a));
    MatchedOrdered(run[i].history, FullOf(run[i], b));
  }
}
