/** Steps of log replication: merging entries, acknowledging them, appending commands, committing. */
module StepsReplication {
  import opened Types
  import opened NodeModel
  import opened Cluster
  import opened Invariants
  import opened Safety
  import opened Frames
  import opened StepsElection

  // ---------------------------------------------------------------- the merge

  /** `Repeated` stops at the first stored entry whose term differs, or at either end. */
  lemma {:induction false} RepeatedTerms(log: seq<LogEntry>, at: nat, entries: seq<LogEntry>)
    requires at <= |log|
    ensures var k := Repeated(log, at, entries);
      && (forall j :: 0 <= j < k ==> log[at + j].term == entries[j].term)
      && (k < |entries| && at + k < |log| ==> log[at + k].term != entries[k].term)
    decreases |entries|
  {
    if entries != [] && at < |log| && log[at].term == entries[0].term {
      RepeatedTerms(log, at + 1, entries[1..]);
      var k := Repeated(log, at + 1, entries[1..]);
      forall j | 0 <= j < k + 1 ensures log[at + j].term == entries[j].term {
        if j > 0 {
          assert log[at + 1 + (j - 1)].term == entries[1..][j - 1].term;
        }
      }
    }
  }

  /** The incoming entries above the snapshot are the leader's entries from the start position on. */
  lemma FreshFromLeader(h: History, n: Node, req: AppendRequest)
    requires AppendReqInv(h, req) && req.prevLogIndex <= n.LastIndex() && n.snapshotIndex <= |h.logs[req.term]|
    ensures var at, incoming := Start(n, req), Fresh(n, req);
      && at <= |n.log|
      && n.snapshotIndex + at + |incoming| == Max(n.snapshotIndex, req.prevLogIndex + |req.entries|)
      && n.snapshotIndex + at + |incoming| <= |h.logs[req.term]|
      && forall j :: 0 <= j < |incoming| ==> incoming[j] == h.logs[req.term][n.snapshotIndex + at + j]
  {
  }

  /** At the last position before the first conflict the terms agree: by the merge, or by the check on the
      entry before the new ones. */
  lemma MergeTerm(h: History, n: Node, req: AppendRequest, p: nat)
    requires AppendReqInv(h, req) && n.snapshotIndex <= |h.logs[req.term]|
    requires req.prevLogIndex <= n.LastIndex() && Refusal(n, req).None?
    requires p == n.snapshotIndex + Start(n, req) + Repeated(n.log, Start(n, req), Fresh(n, req))
    requires n.snapshotIndex < p
    ensures p <= |h.logs[req.term]| && p <= n.LastIndex() && n.EntryAt(p).term == h.logs[req.term][p - 1].term
  {
    hide Refusal;
    hide Fresh;
    hide Repeated;
    hide Covered;
    FreshFromLeader(h, n, req);
    if p == n.snapshotIndex + Start(n, req) {
      AcceptedPrev(n, req);
    } else {
      LastRepeated(n, Start(n, req), Fresh(n, req), h.logs[req.term], p);
    }
  }

  lemma AcceptedPrev(n: Node, req: AppendRequest)
    requires Refusal(n, req).None? && n.snapshotIndex < req.prevLogIndex
    ensures req.prevLogIndex <= n.LastIndex() && n.EntryAt(req.prevLogIndex).term == req.prevLogTerm
  {
  }

  lemma LastRepeated(n: Node, at: nat, incoming: seq<LogEntry>, leader: seq<LogEntry>, p: nat)
    requires at <= |n.log| && p == n.snapshotIndex + at + Repeated(n.log, at, incoming)
    requires n.snapshotIndex + at < p && n.snapshotIndex + at + |incoming| <= |leader|
    requires forall j :: 0 <= j < |incoming| ==> incoming[j] == leader[n.snapshotIndex + at + j]
    ensures n.EntryAt(p).term == leader[p - 1].term
  {
    RepeatedTerms(n.log, at, incoming);
    var j := p - 1 - n.snapshotIndex - at;
    assert n.log[at + j].term == incoming[j].term;
    assert incoming[j] == leader[n.snapshotIndex + at + j];
  }

  /** Up to the first conflict, an accepted request finds the follower's log equal to the leader's. */
  lemma MergePoint(h: History, n: Node, req: AppendRequest, p: nat)
    requires LogsInv(h) && AppendReqInv(h, req) && n.snapshotIndex <= |h.committed|
    requires req.prevLogIndex <= n.LastIndex() && Refusal(n, req).None?
    requires LogInv(h, Full(h, n), n.snapshotIndex, req.term)
    requires Agree(h.logs[req.term], h.committed, 0, n.snapshotIndex)
    requires p == n.snapshotIndex + Start(n, req) + Repeated(n.log, Start(n, req), Fresh(n, req))
    ensures Agree(Full(h, n), h.logs[req.term], 0, p)
  {
    hide Start;
    hide Fresh;
    hide Repeated;
    hide Refusal;
    var full := Full(h, n);
    if p > n.snapshotIndex {
      MergeTerm(h, n, req, p);
      assert full[p - 1] == n.EntryAt(p);
      assert EntryInv(h, full, n.snapshotIndex, p - 1, req.term);
      SameTermSamePrefix(h, full, n.snapshotIndex, req.term, p - 1);
    }
  }

  /** A log change that adopts the leader's log: nothing at all, or the leader's log up to some index that
      is no less than any index up to which the two logs agreed before. */
  ghost predicate Adopts(full: seq<LogEntry>, full': seq<LogEntry>, leader: seq<LogEntry>) {
    full' == full
    || (|full'| <= |leader| && full' == leader[..|full'|] && forall i :: |full'| < i ==> !Agree(full, leader, 0, i))
  }

  /** A log cut where it stops agreeing with the leader and continued with the leader's entries. */
  lemma Splice(pre: seq<LogEntry>, log: seq<LogEntry>, cut: nat, tail: seq<LogEntry>, leader: seq<LogEntry>)
    requires cut <= |log| && Agree(pre + log, leader, 0, |pre| + cut) && |pre| + cut + |tail| <= |leader|
    requires forall j :: 0 <= j < |tail| ==> tail[j] == leader[|pre| + cut + j]
    ensures pre + (log[..cut] + tail) == leader[..|pre| + cut + |tail|]
  {
    var x := pre + (log[..cut] + tail);
    forall j | 0 <= j < |x| ensures x[j] == leader[j] {
      if j < |pre| + cut {
        assert x[j] == (pre + log)[j];
      } else {
        assert x[j] == tail[j - |pre| - cut];
      }
    }
  }

  lemma MergeAdopts(h: History, r: Replica, req: AppendRequest, truncateOk: bool, appendOk: bool)
    requires LogsInv(h) && AppendReqInv(h, req) && r.node.snapshotIndex <= |h.committed|
    requires req.prevLogIndex <= r.node.LastIndex() && Refusal(r.node, req).None?
    requires LogInv(h, Full(h, r.node), r.node.snapshotIndex, req.term)
    requires Agree(h.logs[req.term], h.committed, 0, r.node.snapshotIndex)
    ensures var (r', ok) := Merge(r, req, truncateOk, appendOk);
      && Adopts(Full(h, r.node), Full(h, r'.node), h.logs[req.term])
      && (ok ==> Agree(Full(h, r'.node), h.logs[req.term], 0, req.prevLogIndex + |req.entries|))
  {
    var n := r.node;
    var at, incoming := Start(n, req), Fresh(n, req);
    var k := Repeated(n.log, at, incoming);
    MergePoint(h, n, req, n.snapshotIndex + at + k);
    FreshFromLeader(h, n, req);
    MergeOutcome(h, r, req, truncateOk, appendOk);
    hide Merge;
    hide Fresh;
    hide Repeated;
    if k < |incoming| {
      NoAgreementPast(h, n, req, n.snapshotIndex + at + k, k);
    }
  }

  /** The three outcomes of a merge on the follower's own log: untouched, continued with the leader's
      entries from the first conflict on, or cut there because the append failed. */
  lemma MergeLog(r: Replica, req: AppendRequest, truncateOk: bool, appendOk: bool)
    requires req.prevLogIndex <= r.node.LastIndex()
    ensures var (r', ok) := Merge(r, req, truncateOk, appendOk);
      var n, at, incoming := r.node, Start(r.node, req), Fresh(r.node, req);
      var k := Repeated(n.log, at, incoming);
      && r'.node == n.(log := r'.node.log)
      && r'.disk == r.disk.(log := r'.disk.log)
      && (k == |incoming| ==> r' == r && ok)
      && (k < |incoming| && ok ==> r'.node.log == n.log[..at + k] + incoming[k..])
      && (!ok ==> r' == r || r'.node.log == n.log[..at + k])
  {
    var n, at, incoming := r.node, Start(r.node, req), Fresh(r.node, req);
    assert n.log[..|n.log|] == n.log;
  }

  /** A follower's log cut at a point up to which it agrees with the leader, then continued with leader entries. */
  lemma ContinuedLog(h: History, n: Node, cut: nat, tail: seq<LogEntry>, leader: seq<LogEntry>)
    requires n.snapshotIndex <= |h.committed| && cut <= |n.log|
    requires Agree(Full(h, n), leader, 0, n.snapshotIndex + cut)
    requires n.snapshotIndex + cut + |tail| <= |leader|
    requires forall j :: 0 <= j < |tail| ==> tail[j] == leader[n.snapshotIndex + cut + j]
    ensures var full' := Full(h, n.(log := n.log[..cut] + tail));
      |full'| == n.snapshotIndex + cut + |tail| && full' == leader[..|full'|]
  {
    Splice(h.committed[..n.snapshotIndex], n.log, cut, tail, leader);
  }

  lemma MergeOutcome(h: History, r: Replica, req: AppendRequest, truncateOk: bool, appendOk: bool)
    requires AppendReqInv(h, req) && r.node.snapshotIndex <= |h.committed|
    requires r.node.snapshotIndex <= |h.logs[req.term]| && req.prevLogIndex <= r.node.LastIndex()
    requires var n := r.node; var at := Start(n, req);
      Agree(Full(h, n), h.logs[req.term], 0, n.snapshotIndex + at + Repeated(n.log, at, Fresh(n, req)))
    ensures var (r', ok) := Merge(r, req, truncateOk, appendOk);
      var n, at, incoming := r.node, Start(r.node, req), Fresh(r.node, req);
      var k := Repeated(n.log, at, incoming);
      var full' := Full(h, r'.node);
      && (k == |incoming| ==> r' == r && ok)
      && (r' != r ==>
            && |full'| == n.snapshotIndex + at + (if ok then |incoming| else k)
            && |full'| <= |h.logs[req.term]| && full' == h.logs[req.term][..|full'|])
      && (k < |incoming| && ok ==> r' != r)
  {
    hide Start;
    hide Fresh;
    hide Repeated;
    hide Merge;
    hide Covered;
    var n, at, incoming := r.node, Start(r.node, req), Fresh(r.node, req);
    var k := Repeated(n.log, at, incoming);
    FreshFromLeader(h, n, req);
    var tail := incoming[k..];
    assert forall j :: 0 <= j < |tail| ==> tail[j] == incoming[k + j];
    ContinuedLog(h, n, at + k, tail, h.logs[req.term]);
    ContinuedLog(h, n, at + k, [], h.logs[req.term]);
    assert n.log[..at + k] + [] == n.log[..at + k];
    RepeatedTerms(n.log, at, incoming);
    MergeLog(r, req, truncateOk, appendOk);
  }

  /** The logs disagree right after the merge point. */
  lemma NoAgreementPast(h: History, n: Node, req: AppendRequest, p: nat, k: nat)
    requires AppendReqInv(h, req) && n.snapshotIndex <= |h.committed| && n.snapshotIndex <= |h.logs[req.term]|
    requires req.prevLogIndex <= n.LastIndex()
    requires k == Repeated(n.log, Start(n, req), Fresh(n, req)) && k < |Fresh(n, req)|
    requires p == n.snapshotIndex + Start(n, req) + k
    ensures forall i :: p < i ==> !Agree(Full(h, n), h.logs[req.term], 0, i)
  {
    FreshFromLeader(h, n, req);
    var at, incoming := Start(n, req), Fresh(n, req);
    RepeatedTerms(n.log, at, incoming);
    if at + k < |n.log| {
      assert Full(h, n)[p] == n.log[at + k];
      assert h.logs[req.term][p] == incoming[k];
    }
  }

  // ---------------------------------------------------------------- adopting a leader's log

  lemma AdoptLogInv(h: History, full': seq<LogEntry>, from: nat, t: nat)
    requires LogsInv(h) && t in h.logs && |full'| <= |h.logs[t]| && full' == h.logs[t][..|full'|]
    ensures LogInv(h, full', from, t)
  {
    forall k {:trigger EntryInv(h, full', from, k, t)} | from <= k < |full'| ensures EntryInv(h, full', from, k, t)
    {
      assert LeaderLogInv(h, t) && LeaderEntryInv(h, t, k);
      assert forall j :: 0 <= j <= k ==> full'[j] == h.logs[t][j];
      LeaderTermsOrdered(h, t, k, k);
    }
  }

  /** An acknowledged entry survives adopting the log of a leader that has it. */
  lemma AdoptRetains(h: History, full: seq<LogEntry>, full': seq<LogEntry>, t: nat, u: nat, i: nat)
    requires LogsInv(h) && t in h.logs && Adopts(full, full', h.logs[t])
    requires Retained(h, full, u, i) && 1 <= i && h.logs[u][i - 1].term == u
    requires Agree(h.logs[t], h.logs[u], 0, i)
    ensures Retained(h, full', u, i)
  {
    if full' != full {
      assert Agree(full, h.logs[t], 0, i);
      assert i <= |full'|;
      LeaderTermsOrdered(h, t, i - 1, |full'| - 1);
    }
  }

  lemma AdoptAckInv(h: History, id: NodeId, full: seq<LogEntry>, full': seq<LogEntry>, t: nat)
    requires LogsInv(h) && AcksInv(h) && t in h.logs && Adopts(full, full', h.logs[t]) && AckInv(h, id, full, t)
    ensures AckInv(h, id, full', t)
  {
    forall u: nat, i: nat {:trigger AckedAt(h, id, u, i)} | AckedAt(h, id, u, i)
      ensures Retained(h, full', u, i) || Lost(h, u, i, t + 1)
    {
      if Retained(h, full, u, i) && !Lost(h, u, i, t + 1) {
        assert LeaderLogInv(h, t);
        if u != t {
          assert Key(id, u) in h.acks && u < t;
          assert Agree(h.elections[t].log, h.logs[u], 0, i);
        }
        AdoptRetains(h, full, full', t, u, i);
      }
    }
  }

  /** What is known to be committed survives adopting a leader's log. */
  lemma AdoptKnown(h: History, members: set<NodeId>, full: seq<LogEntry>, full': seq<LogEntry>, index: nat, t: nat)
    requires LogsInv(h) && ElectionsInv(h, members) && DecisionsInv(h, members)
    requires t in h.logs && Adopts(full, full', h.logs[t]) && KnownInv(h, full, index, t)
    ensures KnownInv(h, full', index, t)
  {
    CommittedInLeader(h, members, index, t, t);
    if full' != full {
      assert Agree(full, h.logs[t], 0, index);
    }
  }

  lemma AdoptDurable(
    h: History, members: set<NodeId>, id: NodeId, full: seq<LogEntry>, full': seq<LogEntry>, from: nat, d: HardState)
    requires HistInv(h, members) && DurableInv(h, id, full, from, d)
    requires d.currentTerm in h.logs && Adopts(full, full', h.logs[d.currentTerm])
    ensures DurableInv(h, id, full', from, d)
  {
    if full' != full {
      AdoptLogInv(h, full', from, d.currentTerm);
    }
    AdoptAckInv(h, id, full, full', d.currentTerm);
    AdoptKnown(h, members, full, full', d.commitIndex, d.currentTerm);
  }

  // ---------------------------------------------------------------- the follower's steps

  /** A follower's invariant from its parts. */
  lemma FollowerServer(h: History, members: set<NodeId>, id: NodeId, s: Server, full: seq<LogEntry>)
    requires s.rep.node.role == Follower && full == Full(h, s.rep.node)
    requires TermsInv(s) && SnapshotInv(h, s) && Saved(s.rep) && ApplyInv(h, s)
    requires DurableInv(h, id, full, s.rep.node.snapshotIndex, s.rep.disk.hard)
    requires KnownInv(h, full, s.rep.node.commitIndex, s.rep.disk.hard.currentTerm)
    ensures ServerInv(h, members, id, s)
  {
  }

  lemma MergeStep(
    h: History, members: set<NodeId>, id: NodeId, s: Server, req: AppendRequest, truncateOk: bool, appendOk: bool)
    requires HistInv(h, members) && ServerInv(h, members, id, s) && AppendReqInv(h, req)
    requires s.rep.node.role == Follower && !s.rep.node.degraded && s.rep.node.currentTerm == req.term
    requires Refusal(s.rep.node, req).None?
    ensures var (r, ok) := Merge(s.rep, req, truncateOk, appendOk);
      && ServerInv(h, members, id, s.(rep := r))
      && (ok ==> Agree(Full(h, r.node), h.logs[req.term], 0, req.prevLogIndex + |req.entries|))
  {
    var n := s.rep.node;
    var (r, ok) := Merge(s.rep, req, truncateOk, appendOk);
    var s' := s.(rep := r);
    ExtendsSelf(h);
    CoveredGrows(h, h, n.commitIndex, n.snapshotIndex, req.term, req.term);
    CommittedInLeader(h, members, n.snapshotIndex, req.term, req.term);
    MergeAdopts(h, s.rep, req, truncateOk, appendOk);
    MergeLog(s.rep, req, truncateOk, appendOk);
    AdoptServer(h, members, id, s, r);
  }

  lemma AdoptServer(h: History, members: set<NodeId>, id: NodeId, s: Server, r: Replica)
    requires HistInv(h, members) && ServerInv(h, members, id, s)
    requires s.rep.node.role == Follower && !s.rep.node.degraded && s.rep.node.currentTerm in h.logs
    requires r.node == s.rep.node.(log := r.node.log) && r.disk.hard == s.rep.disk.hard && Saved(r)
    requires Adopts(Full(h, s.rep.node), Full(h, r.node), h.logs[s.rep.node.currentTerm])
    ensures ServerInv(h, members, id, s.(rep := r))
  {
    var n := s.rep.node;
    var s' := s.(rep := r);
    AdoptDurable(h, members, id, Full(h, n), Full(h, r.node), n.snapshotIndex, s.rep.disk.hard);
    AdoptKnown(h, members, Full(h, n), Full(h, r.node), n.commitIndex, n.currentTerm);
    assert SnapshotInv(h, s');
    assert ApplyInv(h, s');
    FollowerServer(h, members, id, s', Full(h, r.node));
  }

  /** A follower that holds what the request covers may adopt the request's commit index. */
  lemma FollowerCommitKnown(h: History, members: set<NodeId>, n: Node, req: AppendRequest)
    requires HistInv(h, members) && AppendReqInv(h, req)
    requires KnownInv(h, Full(h, n), n.commitIndex, req.term) && n.snapshotIndex <= |h.committed|
    requires Agree(Full(h, n), h.logs[req.term], 0, req.prevLogIndex + |req.entries|)
    ensures KnownInv(h, Full(h, n), FollowerCommit(n, req.leaderCommit), req.term)
  {
    var c := FollowerCommit(n, req.leaderCommit);
    assert |Full(h, n)| == n.LastIndex();
    if req.leaderCommit > n.commitIndex {
      CommittedInLeader(h, members, req.leaderCommit, req.term, req.term);
    }
  }

  lemma FollowerCommitRest(h: History, s: Server, leaderCommit: nat, save: bool)
    requires TermsInv(s) && SnapshotInv(h, s) && Saved(s.rep) && ApplyInv(h, s)
    requires s.rep.node.commitIndex <= s.rep.node.LastIndex()
    ensures var n := s.rep.node;
      var s' := s.(rep := SaveHard(s.rep.(node := n.(commitIndex := FollowerCommit(n, leaderCommit))), save));
      TermsInv(s') && SnapshotInv(h, s') && Saved(s'.rep) && ApplyInv(h, s')
  {
  }

  lemma FollowerCommitStep(h: History, members: set<NodeId>, id: NodeId, s: Server, req: AppendRequest, save: bool)
    requires HistInv(h, members) && ServerInv(h, members, id, s) && AppendReqInv(h, req)
    requires s.rep.node.role == Follower && !s.rep.node.degraded && s.rep.node.currentTerm == req.term
    requires Agree(Full(h, s.rep.node), h.logs[req.term], 0, req.prevLogIndex + |req.entries|)
    ensures var n := s.rep.node;
      ServerInv(h, members, id,
        s.(rep := SaveHard(s.rep.(node := n.(commitIndex := FollowerCommit(n, req.leaderCommit))), save)))
  {
    var n := s.rep.node;
    var n' := n.(commitIndex := FollowerCommit(n, req.leaderCommit));
    var s' := s.(rep := SaveHard(s.rep.(node := n'), save));
    var d := s.rep.disk.hard;
    assert TermsInv(s) && SnapshotInv(h, s) && Saved(s.rep) && ApplyInv(h, s);
    assert DurableInv(h, id, Full(h, n), n.snapshotIndex, d);
    assert KnownInv(h, Full(h, n), n.commitIndex, d.currentTerm) && d.currentTerm == req.term;
    hide ServerInv;
    hide DurableInv;
    FollowerCommitKnown(h, members, n, req);
    hide HistInv;
    hide AppendReqInv;
    hide KnownInv;
    FollowerCommitRest(h, s, req.leaderCommit, save);
    hide TermsInv;
    hide SnapshotInv;
    hide ApplyInv;
    hide Saved;
    assert Full(h, n') == Full(h, n);
    DurableNewCommit(h, id, Full(h, n), n.snapshotIndex, d, n'.commitIndex);
    FollowerServer(h, members, id, s', Full(h, n));
  }

  // ---------------------------------------------------------------- acknowledging

  lemma AckExtends(h: History, id: NodeId, t: nat, index: nat)
    ensures Extends(h, RecordAck(h, id, t, index))
  {
  }

  /** Recording an acknowledgement of the present term keeps the history invariant. */
  lemma AckHist(h: History, members: set<NodeId>, id: NodeId, t: nat, index: nat)
    requires HistInv(h, members) && t in h.logs && index <= |h.logs[t]| && PastInv(h, id, t)
    ensures HistInv(RecordAck(h, id, t, index), members)
  {
    var h' := RecordAck(h, id, t, index);
    AckExtends(h, id, t, index);
    LogsSame(h, h');
    ElectionsSame(h, h', members);
    DecisionsSame(h, h', members);
  }

  /** An entry of term t that the log holds above its snapshot is not older than the end of that log. */
  lemma EndsLate(h: History, full: seq<LogEntry>, from: nat, t: nat, last: nat, i: nat)
    requires LogsInv(h) && LogInv(h, full, from, t) && t in h.logs
    requires from < last && Agree(full, h.logs[t], 0, last)
    requires 1 <= i <= last && h.logs[t][i - 1].term == t
    ensures Retained(h, full, t, i)
  {
    var k := |full| - 1;
    LeaderTermsOrdered(h, t, i - 1, last - 1);
    assert EntryInv(h, full, from, k, t);
    var u := full[k].term;
    LeaderTermsOrdered(h, u, last - 1, k);
  }

  lemma AckDurable(h: History, id: NodeId, full: seq<LogEntry>, from: nat, d: HardState, last: nat)
    requires LogsInv(h) && AcksInv(h) && DurableInv(h, id, full, from, d) && d.currentTerm in h.logs
    requires from < last && Agree(full, h.logs[d.currentTerm], 0, last)
    ensures DurableInv(RecordAck(h, id, d.currentTerm, last), id, full, from, d)
  {
    var t := d.currentTerm;
    var h' := RecordAck(h, id, t, last);
    AckExtends(h, id, t, last);
    LogInvGrows(h, h', full, from, t, t);
    KnownInvGrows(h, h', full, d.commitIndex, t, t);
    VoteInvGrows(h, h', id, d);
    forall u: nat, i: nat {:trigger AckedAt(h', id, u, i)} | AckedAt(h', id, u, i)
      ensures Retained(h', full, u, i) || Lost(h', u, i, t + 1)
    {
      if AckedAt(h, id, u, i) {
        if Retained(h, full, u, i) {
          RetainedGrows(h, h', full, u, i);
        } else {
          LostGrows(h, h', u, i, t + 1, t + 1);
        }
      } else {
        EndsLate(h, full, from, t, last, i);
      }
    }
  }

  lemma AckStep(h: History, members: set<NodeId>, id: NodeId, s: Server, last: nat)
    requires HistInv(h, members) && ServerInv(h, members, id, s)
    requires s.rep.node.role == Follower && !s.rep.node.degraded && s.rep.node.currentTerm in h.logs
    requires s.rep.node.snapshotIndex < last && Agree(Full(h, s.rep.node), h.logs[s.rep.node.currentTerm], 0, last)
    ensures var h' := RecordAck(h, id, s.rep.node.currentTerm, last);
      Extends(h, h') && HistInv(h', members) && ServerInv(h', members, id, s)
  {
    var n := s.rep.node;
    var h' := RecordAck(h, id, n.currentTerm, last);
    AckExtends(h, id, n.currentTerm, last);
    AckHist(h, members, id, n.currentTerm, last);
    AckDurable(h, id, Full(h, n), n.snapshotIndex, s.rep.disk.hard, last);
    FullStable(h, h', n);
    KnownInvGrows(h, h', Full(h, n), n.commitIndex, n.currentTerm, n.currentTerm);
    SnapshotInvFrame(h, h', s);
    ApplyInvFrame(h, h', s);
    FollowerServer(h', members, id, s, Full(h, n));
  }

  // ---------------------------------------------------------------- the whole handler

  lemma {:induction false} FirstIndexBound(log: seq<LogEntry>, offset: nat, term: nat, k: nat)
    requires k < |log| && log[k].term == term
    ensures offset < FirstIndexOfTerm(log, offset, term) <= offset + k + 1
  {
    if log[0].term != term {
      FirstIndexBound(log[1..], offset + 1, term, k - 1);
    }
  }

  /** A refusal points at most one past the entry that was checked. */
  lemma RefusalBound(n: Node, req: AppendRequest)
    requires Refusal(n, req).Some?
    ensures !Refusal(n, req).value.success && Refusal(n, req).value.conflictIndex <= req.prevLogIndex + 1
  {
    if n.snapshotIndex < req.prevLogIndex <= n.LastIndex() {
      FirstIndexBound(n.log, n.snapshotIndex, n.EntryAt(req.prevLogIndex).term, req.prevLogIndex - n.snapshotIndex - 1);
    }
  }

  lemma AcknowledgedByRecord(h: History, id: NodeId, t: nat, last: nat)
    requires t in h.logs && last <= |h.logs[t]|
    ensures Acknowledged(RecordAck(h, id, t, last), id, t, last)
  {
  }

  /** Entries of term t that are committed up to term t may be counted for anyone. */
  lemma AcknowledgedByCommit(h: History, members: set<NodeId>, id: NodeId, t: nat, last: nat, commit: nat)
    requires HistInv(h, members) && Covered(h, commit, t) && last <= commit && t in h.logs
    ensures Acknowledged(h, id, t, last)
  {
    forall i | 1 <= i <= last && i <= |LogOf(h, t)| && LogOf(h, t)[i - 1].term == t
      ensures AckedAt(h, id, t, i) || (t in h.decisions && i <= h.decisions[t].index)
    {
      CommittedByOwnTerm(h, members, commit, t, i);
    }
  }

  /** The history after a follower accepted a request. */
  function AcceptedHistory(h: History, id: NodeId, n: Node, req: AppendRequest): History {
    var last := req.prevLogIndex + |req.entries|;
    if last > n.snapshotIndex then RecordAck(h, id, req.term, last) else h
  }

  /** A follower that holds what the request covers may be counted for it: either it acknowledges from its
      own log, or its snapshot covers the request and the leader has committed that much. */
  lemma AcceptedStep(h: History, members: set<NodeId>, id: NodeId, s: Server, req: AppendRequest)
    requires HistInv(h, members) && ServerInv(h, members, id, s) && AppendReqInv(h, req)
    requires s.rep.node.role == Follower && !s.rep.node.degraded && s.rep.node.currentTerm == req.term
    requires Agree(Full(h, s.rep.node), h.logs[req.term], 0, req.prevLogIndex + |req.entries|)
    ensures var h' := AcceptedHistory(h, id, s.rep.node, req);
      && Extends(h, h') && HistInv(h', members) && ServerInv(h', members, id, s)
      && Acknowledged(h', id, req.term, req.prevLogIndex + |req.entries|)
  {
    hide HistInv;
    hide ServerInv;
    hide Extends;
    hide Acknowledged;
    var last := req.prevLogIndex + |req.entries|;
    if last > s.rep.node.snapshotIndex {
      AckStep(h, members, id, s, last);
      AcknowledgedByRecord(h, id, req.term, last);
    } else {
      ExtendsSelf(h);
      SnapshotCoversRequest(h, members, id, s, last);
    }
  }

  lemma SnapshotCoversRequest(h: History, members: set<NodeId>, id: NodeId, s: Server, last: nat)
    requires HistInv(h, members) && ServerInv(h, members, id, s) && !s.rep.node.degraded
    requires last <= s.rep.node.snapshotIndex && s.rep.node.currentTerm in h.logs
    ensures Acknowledged(h, id, s.rep.node.currentTerm, last)
  {
    AcknowledgedByCommit(h, members, id, s.rep.node.currentTerm, last, s.rep.node.commitIndex);
  }

  /** The replica after an accepted request: merged, with the commit index moved and perhaps written. */
  function Accepted(r1: Replica, req: AppendRequest, f: AppendFaults, save: bool): Replica
    requires req.prevLogIndex <= r1.node.LastIndex()
  {
    var r2 := Merge(r1, req, f.truncateOk, f.appendOk).0;
    SaveHard(r2.(node := r2.node.(commitIndex := FollowerCommit(r2.node, req.leaderCommit))), save)
  }

  lemma AcceptedServer(
    h: History, members: set<NodeId>, id: NodeId, s1: Server, req: AppendRequest, f: AppendFaults, save: bool)
    requires HistInv(h, members) && ServerInv(h, members, id, s1) && AppendReqInv(h, req)
    requires s1.rep.node.role == Follower && !s1.rep.node.degraded && s1.rep.node.currentTerm == req.term
    requires Refusal(s1.rep.node, req).None?
    requires Merge(s1.rep, req, f.truncateOk, f.appendOk).1
    ensures var r := Accepted(s1.rep, req, f, save);
      && ServerInv(h, members, id, s1.(rep := r))
      && r.node.role == Follower && !r.node.degraded && r.node.currentTerm == req.term
      && Agree(Full(h, r.node), h.logs[req.term], 0, req.prevLogIndex + |req.entries|)
  {
    MergeStep(h, members, id, s1, req, f.truncateOk, f.appendOk);
    MergeLog(s1.rep, req, f.truncateOk, f.appendOk);
    var r2 := Merge(s1.rep, req, f.truncateOk, f.appendOk).0;
    FollowerCommitStep(h, members, id, s1.(rep := r2), req, save);
    assert Full(h, Accepted(s1.rep, req, f, save).node) == Full(h, r2.node);
  }

  /** What an AppendEntries request can do to a replica. */
  lemma AppendCases(r: Replica, req: AppendRequest, f: AppendFaults)
    ensures var (r', resp) := HandleAppendEntries(r, req, f);
      var r1 := Follow(r, req.term);
      if r.node.degraded || req.term < r.node.currentTerm || (req.term > r.node.currentTerm && !f.termOk) then
        r' == r && (resp.Some? ==> !resp.value.success && resp.value.conflictIndex == 0)
      else if Refusal(r1.node, req).Some? then r' == r1 && resp == Refusal(r1.node, req)
      else if Merge(r1, req, f.truncateOk, f.appendOk).1 then
        && (r' == Accepted(r1, req, f, true) || r' == Accepted(r1, req, f, false))
        && (resp.Some? ==> resp.value == AppendResponse(req.term, true, 0, 0))
      else r' == Merge(r1, req, f.truncateOk, f.appendOk).0 && resp == None
  {
  }

  lemma AppendStep(h: History, members: set<NodeId>, id: NodeId, s: Server, req: AppendRequest, f: AppendFaults)
    requires HistInv(h, members) && ServerInv(h, members, id, s) && AppendReqInv(h, req)
    ensures var e := AppendEffect(h, s, id, req, f);
      && Extends(h, e.history)
      && HistInv(e.history, members)
      && ServerInv(e.history, members, id, e.server)
      && var resp := HandleAppendEntries(s.rep, req, f).1;
         resp.Some? ==>
           && resp.value.conflictIndex <= req.prevLogIndex + 1
           && (resp.value.success ==> Acknowledged(e.history, id, req.term, req.prevLogIndex + |req.entries|))
  {
    hide HistInv;
    hide ServerInv;
    hide Extends;
    hide Acknowledged;
    hide AppendReqInv;
    hide HandleAppendEntries;
    hide Merge;
    hide Accepted;
    var e := AppendEffect(h, s, id, req, f);
    var n := s.rep.node;
    AppendCases(s.rep, req, f);
    ExtendsSelf(h);
    if !(n.degraded || req.term < n.currentTerm || (req.term > n.currentTerm && !f.termOk)) {
      FollowStep(h, members, id, s, req.term);
      var s1 := s.(rep := Follow(s.rep, req.term));
      if Refusal(s1.rep.node, req).Some? {
        RefusalBound(s1.rep.node, req);
      } else {
        if Merge(s1.rep, req, f.truncateOk, f.appendOk).1 {
          var save := e.server.rep == Accepted(s1.rep, req, f, true);
          AcceptedServer(h, members, id, s1, req, f, save);
          assert e.server == s1.(rep := Accepted(s1.rep, req, f, save));
          AcceptedStep(h, members, id, e.server, req);
        } else {
          MergeStep(h, members, id, s1, req, f.truncateOk, f.appendOk);
        }
      }
    }
  }
}
