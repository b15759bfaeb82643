/** History only grows, and what the invariant says about servers and messages that do not take part
    in a step survives the growth. */
module Frames {
  import opened Types
  import opened NodeModel
  import opened Cluster
  import opened Invariants

  predicate IsPrefix(x: seq<LogEntry>, y: seq<LogEntry>) { Agree(y, x, 0, |x|) }

  /** One history continues another. */
  predicate Extends(h: History, h': History) {
    && (forall k :: k in h.ballots ==> k in h'.ballots && h'.ballots[k] == h.ballots[k])
    && (forall k :: k in h.votes ==> k in h'.votes && h'.votes[k] == h.votes[k])
    && (forall t :: t in h.elections ==> t in h'.elections && h'.elections[t] == h.elections[t])
    && (forall t :: t in h.logs ==> t in h'.logs && IsPrefix(h.logs[t], h'.logs[t]))
    && (forall k :: k in h.acks ==> k in h'.acks && h.acks[k] <= h'.acks[k])
    && (forall t :: t in h.decisions ==> t in h'.decisions && h.decisions[t].index <= h'.decisions[t].index)
    && IsPrefix(h.committed, h'.committed)
    && h.delivered <= h'.delivered
  }

  /** Votes, acknowledgements and candidacies of `id` are as before, and no election that names it is new. */
  predicate SameRecords(h: History, h': History, id: NodeId, term: nat) {
    && (forall k :: k in h'.ballots && k.node == id ==> k in h.ballots)
    && (forall k :: k in h'.votes && k.node == id ==> k in h.votes)
    && (forall k :: k in h'.acks && k.node == id ==> k in h.acks && h'.acks[k] == h.acks[k])
    && (forall t :: t in h'.elections && t !in h.elections ==>
          h'.elections[t].leader != id && (id in h'.elections[t].quorum ==> t <= term))
  }

  /** Nothing is added to the log or to the commits of term `t`. */
  predicate SameTenure(h: History, h': History, t: nat) {
    && t in h.logs
    && t in h'.logs
    && h'.logs[t] == h.logs[t]
    && (t in h'.decisions ==> t in h.decisions && h'.decisions[t].index == h.decisions[t].index)
  }

  /** What a step of another server may not do to the records of server `id`. */
  predicate Untouched(h: History, h': History, id: NodeId, term: nat) {
    && SameRecords(h, h', id, term)
    && (forall t {:trigger SameTenure(h, h', t)} :: t in h.elections && h.elections[t].leader == id && t in h.logs ==>
          SameTenure(h, h', t))
  }

  lemma FullStable(h: History, h': History, n: Node)
    requires Extends(h, h') && n.snapshotIndex <= |h.committed|
    ensures Full(h', n) == Full(h, n)
  {
    assert h'.committed[..n.snapshotIndex] == h.committed[..n.snapshotIndex];
  }

  lemma AckedAtGrows(h: History, h': History, id: NodeId, t: nat, i: nat)
    requires Extends(h, h') && AckedAt(h, id, t, i)
    ensures AckedAt(h', id, t, i)
  {
  }

  lemma AckedAtOld(h: History, h': History, id: NodeId, t: nat, i: nat)
    requires Extends(h, h') && AcksInv(h) && AckedAt(h', id, t, i)
    requires Key(id, t) in h.acks && h'.acks[Key(id, t)] == h.acks[Key(id, t)]
    ensures AckedAt(h, id, t, i)
  {
    assert IsPrefix(h.logs[t], h'.logs[t]);
  }

  lemma LostGrows(h: History, h': History, t: nat, i: nat, bound: nat, bound': nat)
    requires Extends(h, h') && Lost(h, t, i, bound) && i <= |h.logs[t]| && bound <= bound'
    ensures Lost(h', t, i, bound')
  {
    var u :| t < u < bound && u in h.elections && !Agree(h.elections[u].log, h.logs[t], 0, i);
    assert IsPrefix(h.logs[t], h'.logs[t]);
    assert !Agree(h'.elections[u].log, h'.logs[t], 0, i);
  }

  lemma CoveredGrows(h: History, h': History, index: nat, index': nat, t: nat, t': nat)
    requires Extends(h, h') && Covered(h, index, t) && t <= t' && index' <= index
    ensures Covered(h', index', t')
  {
    if index != 0 {
      var u :| u in h.decisions && u <= t && index <= h.decisions[u].index;
      assert u in h'.decisions && index' <= h'.decisions[u].index;
    }
  }

  lemma LogInvGrows(h: History, h': History, full: seq<LogEntry>, from: nat, t: nat, t': nat)
    requires Extends(h, h') && LogInv(h, full, from, t) && t <= t'
    ensures LogInv(h', full, from, t')
  {
    forall k {:trigger EntryInv(h', full, from, k, t')} | from <= k < |full| ensures EntryInv(h', full, from, k, t')
    {
      assert EntryInv(h, full, from, k, t);
      assert IsPrefix(h.logs[full[k].term], h'.logs[full[k].term]);
    }
  }

  lemma KnownInvGrows(h: History, h': History, full: seq<LogEntry>, index: nat, t: nat, t': nat)
    requires Extends(h, h') && KnownInv(h, full, index, t) && t <= t'
    ensures KnownInv(h', full, index, t')
  {
    CoveredGrows(h, h', index, index, t, t');
  }

  lemma RetainedGrows(h: History, h': History, full: seq<LogEntry>, t: nat, i: nat)
    requires Extends(h, h') && Retained(h, full, t, i)
    ensures Retained(h', full, t, i)
  {
    assert IsPrefix(h.logs[t], h'.logs[t]);
  }

  lemma JustifiedGrows(h: History, h': History, id: NodeId, term: nat, pos: Position, bound: nat)
    requires Extends(h, h') && AcksInv(h) && Justified(h, id, term, pos, bound)
    requires forall k :: k in h'.acks && k.node == id && k.term < term ==> k in h.acks && h'.acks[k] == h.acks[k]
    ensures Justified(h', id, term, pos, bound)
  {
    forall u: nat, i: nat {:trigger AckedAt(h', id, u, i)} | u < term && AckedAt(h', id, u, i)
      ensures AtLeast(pos, Position(u, i)) || Lost(h', u, i, bound)
    {
      AckedAtOld(h, h', id, u, i);
      if !AtLeast(pos, Position(u, i)) {
        LostGrows(h, h', u, i, bound, bound);
      }
    }
  }

  /** The acknowledgement invariant when neither the log nor the acknowledgements of the server change. */
  lemma AckInvGrows(h: History, h': History, id: NodeId, full: seq<LogEntry>, t: nat, t': nat)
    requires Extends(h, h') && AcksInv(h) && AckInv(h, id, full, t) && t <= t'
    requires forall k :: k in h'.acks && k.node == id ==> k in h.acks && h'.acks[k] == h.acks[k]
    ensures AckInv(h', id, full, t')
  {
    forall u: nat, i: nat {:trigger AckedAt(h', id, u, i)} | AckedAt(h', id, u, i)
      ensures Retained(h', full, u, i) || Lost(h', u, i, t' + 1)
    {
      AckedAtOld(h, h', id, u, i);
      if Retained(h, full, u, i) {
        RetainedGrows(h, h', full, u, i);
      } else {
        LostGrows(h, h', u, i, t + 1, t' + 1);
      }
    }
  }

  /** No vote is cast by `id`, and no acknowledgement of a term before the present one. */
  lemma VoteInvGrows(h: History, h': History, id: NodeId, d: HardState)
    requires Extends(h, h') && AcksInv(h) && VoteInv(h, id, d)
    requires forall k :: k in h'.votes && k.node == id ==> k in h.votes
    requires forall k :: k in h'.acks && k.node == id && k.term < d.currentTerm ==> k in h.acks && h'.acks[k] == h.acks[k]
    ensures VoteInv(h', id, d)
  {
    forall k | k in h'.votes && k.node == id
      ensures
        && k.term <= d.currentTerm
        && (k.term == d.currentTerm ==> d.votedFor == Some(h'.votes[k]))
        && Key(h'.votes[k], k.term) in h'.ballots
        && Justified(h', id, k.term, h'.ballots[Key(h'.votes[k], k.term)], k.term + 1)
    {
      JustifiedGrows(h, h', id, k.term, h.ballots[Key(h.votes[k], k.term)], k.term + 1);
    }
  }

  lemma DurableGrows(h: History, h': History, id: NodeId, full: seq<LogEntry>, from: nat, d: HardState)
    requires Extends(h, h') && AcksInv(h) && DurableInv(h, id, full, from, d)
    requires SameRecords(h, h', id, d.currentTerm)
    ensures DurableInv(h', id, full, from, d)
  {
    LogInvGrows(h, h', full, from, d.currentTerm, d.currentTerm);
    KnownInvGrows(h, h', full, d.commitIndex, d.currentTerm, d.currentTerm);
    AckInvGrows(h, h', id, full, d.currentTerm, d.currentTerm);
    VoteInvGrows(h, h', id, d);
  }

  lemma SnapshotInvFrame(h: History, h': History, s: Server)
    requires Extends(h, h') && SnapshotInv(h, s)
    ensures SnapshotInv(h', s)
  {
    var n := s.rep.node;
    assert h'.committed[..n.snapshotIndex] == h.committed[..n.snapshotIndex];
  }

  lemma StreamInvGrows(x: seq<LogEntry>, y: seq<LogEntry>, stream: seq<ApplyMsg>)
    requires IsPrefix(x, y) && StreamInv(x, stream)
    ensures StreamInv(y, stream)
  {
    forall k {:trigger InOrder(y, stream, k)} | 0 <= k < |stream| ensures InOrder(y, stream, k) {
      assert InOrder(x, stream, k);
      assert y[..stream[k].index] == x[..stream[k].index];
    }
  }

  lemma ApplyInvFrame(h: History, h': History, s: Server)
    requires Extends(h, h') && ApplyInv(h, s)
    ensures ApplyInv(h', s)
  {
    StreamInvGrows(h.committed, h'.committed, s.stream);
    assert h'.committed[..s.service.lastAppliedIndex] == h.committed[..s.service.lastAppliedIndex];
  }

  lemma MatchInvGrows(h: History, h': History, p: NodeId, n: Node)
    requires Extends(h, h') && MatchInv(h, p, n)
    requires n.currentTerm in h.logs && h'.logs[n.currentTerm] == h.logs[n.currentTerm]
    ensures MatchInv(h', p, n)
  {
    var t := n.currentTerm;
    forall i | n.commitIndex < i <= Get(n.matchIndex, p) && i <= |LogOf(h', t)| && LogOf(h', t)[i - 1].term == t
      ensures AckedAt(h', p, t, i)
    {
      AckedAtGrows(h, h', p, t, i);
    }
  }

  lemma LeaderInvFrame(h: History, h': History, members: set<NodeId>, id: NodeId, n: Node)
    requires Extends(h, h') && n.snapshotIndex <= |h.committed| && LeaderInv(h, members, id, n)
    requires n.role == Leader ==> SameTenure(h, h', n.currentTerm)
    ensures LeaderInv(h', members, id, n)
  {
    if n.role == Leader {
      FullStable(h, h', n);
      var t := n.currentTerm;
      forall i | 1 <= i <= |h'.logs[t]| && h'.logs[t][i - 1].term == t ensures AckedAt(h', id, t, i) {
        AckedAtGrows(h, h', id, t, i);
      }
      forall p | p in members && p != id ensures MatchInv(h', p, n) && 1 <= Get(n.nextIndex, p) <= n.LastIndex() + 1 {
        MatchInvGrows(h, h', p, n);
      }
    }
  }

  lemma CandidateInvFrame(h: History, h': History, members: set<NodeId>, id: NodeId, s: Server)
    requires Extends(h, h') && SnapshotInv(h, s) && CandidateInv(h, members, id, s)
    requires Untouched(h, h', id, s.rep.disk.hard.currentTerm)
    ensures CandidateInv(h', members, id, s)
  {
    var n := s.rep.node;
    if n.role == Candidate && s.tally.Some? {
      FullStable(h, h', n);
      assert n.currentTerm in h'.elections ==> h'.elections[n.currentTerm].leader != id;
      forall x | x in s.tally.value.granted
        ensures Key(x, n.currentTerm) in h'.votes && h'.votes[Key(x, n.currentTerm)] == id
      {
        assert Key(x, n.currentTerm) in h.votes;
      }
    }
  }

  /** A server that takes no part in a step keeps its invariant. */
  lemma ServerFrame(h: History, h': History, members: set<NodeId>, id: NodeId, s: Server)
    requires Extends(h, h') && AcksInv(h) && ServerInv(h, members, id, s)
    requires Untouched(h, h', id, s.rep.disk.hard.currentTerm)
    ensures ServerInv(h', members, id, s)
  {
    var full := Full(h, s.rep.node);
    var d := s.rep.disk.hard;
    FullStable(h, h', s.rep.node);
    SnapshotInvFrame(h, h', s);
    DurableGrows(h, h', id, full, s.rep.node.snapshotIndex, d);
    KnownInvGrows(h, h', full, s.rep.node.commitIndex, d.currentTerm, d.currentTerm);
    LeaderInvFrame(h, h', members, id, s.rep.node);
    CandidateInvFrame(h, h', members, id, s);
    ApplyInvFrame(h, h', s);
  }

  lemma AppendReqFrame(h: History, h': History, req: AppendRequest)
    requires Extends(h, h') && AppendReqInv(h, req)
    ensures AppendReqInv(h', req)
  {
    CoveredGrows(h, h', req.leaderCommit, req.leaderCommit, req.term, req.term);
    assert IsPrefix(h.logs[req.term], h'.logs[req.term]);
    var last := req.prevLogIndex + |req.entries|;
    assert h'.logs[req.term][req.prevLogIndex..last] == h.logs[req.term][req.prevLogIndex..last];
  }

  lemma SnapReqFrame(h: History, h': History, req: SnapshotRequest)
    requires Extends(h, h') && SnapReqInv(h, req)
    ensures SnapReqInv(h', req)
  {
    var i := req.snapshot.lastIncludedIndex;
    CoveredGrows(h, h', i, i, req.term, req.term);
    assert h'.committed[..i] == h.committed[..i];
  }

  lemma AcknowledgedGrows(h: History, h': History, from: NodeId, t: nat, last: nat)
    requires Extends(h, h') && Acknowledged(h, from, t, last) && t in h.logs && last <= |h.logs[t]|
    ensures Acknowledged(h', from, t, last)
  {
    assert IsPrefix(h.logs[t], h'.logs[t]);
    forall i | 1 <= i <= last && i <= |LogOf(h', t)| && LogOf(h', t)[i - 1].term == t
      ensures AckedAt(h', from, t, i) || (t in h'.decisions && i <= h'.decisions[t].index)
    {
      assert h'.logs[t][i - 1] == h.logs[t][i - 1];
      assert LogOf(h, t)[i - 1].term == t;
      if AckedAt(h, from, t, i) {
        AckedAtGrows(h, h', from, t, i);
      }
    }
  }

  /** A message already sent keeps its invariant. */
  lemma MessageFrame(h: History, h': History, members: set<NodeId>, m: Message)
    requires Extends(h, h') && MessageInv(h, members, m)
    ensures MessageInv(h', members, m)
  {
    match m
    case VoteReq(_) =>
    case VoteResp(_, _, _) =>
    case AppendReq(_, req) => AppendReqFrame(h, h', req);
    case AppendResp(from, req, resp) =>
      AppendReqFrame(h, h', req);
      if resp.success {
        AcknowledgedGrows(h, h', from, req.term, req.prevLogIndex + |req.entries|);
      }
    case SnapReq(_, req) => SnapReqFrame(h, h', req);
    case SnapResp(_, req, _) => SnapReqFrame(h, h', req);
  }

  lemma ExtendsSelf(h: History)
    ensures Extends(h, h)
  {
  }

  // ---------------------------------------------------------------- the history invariant under growth

  lemma LeaderLogGrows(h: History, h': History, t: nat)
    requires Extends(h, h') && t in h.logs && LeaderLogInv(h, t) && h'.logs[t] == h.logs[t]
    ensures LeaderLogInv(h', t)
  {
    forall k {:trigger LeaderEntryInv(h', t, k)} | 0 <= k < |h'.logs[t]| ensures LeaderEntryInv(h', t, k) {
      assert LeaderEntryInv(h, t, k);
      assert IsPrefix(h.logs[h.logs[t][k].term], h'.logs[h.logs[t][k].term]);
    }
  }

  lemma LogsSame(h: History, h': History)
    requires Extends(h, h') && LogsInv(h) && h'.logs == h.logs && h'.elections == h.elections
    ensures LogsInv(h')
  {
    forall t {:trigger LeaderLogInv(h', t)} | t in h'.logs ensures LeaderLogInv(h', t) {
      assert LeaderLogInv(h, t);
      LeaderLogGrows(h, h', t);
    }
  }

  /** Voters acknowledge nothing in terms before the election they voted in. */
  predicate NoLateAcks(h: History, h': History) {
    forall t, k :: t in h.elections && k in h'.acks && k.node in h.elections[t].quorum && k.term < t ==>
      k in h.acks && h'.acks[k] == h.acks[k]
  }

  lemma ElectionGrows(h: History, h': History, members: set<NodeId>, t: nat)
    requires Extends(h, h') && AcksInv(h) && NoLateAcks(h, h')
    requires t in h.elections && ElectionInv(h, members, t)
    ensures ElectionInv(h', members, t)
  {
    forall x {:trigger VoterInv(h', t, x)} | x in h'.elections[t].quorum ensures VoterInv(h', t, x) {
      assert VoterInv(h, t, x);
      JustifiedGrows(h, h', x, t, LastPosition(h.elections[t].log), t);
    }
  }

  lemma ElectionsSame(h: History, h': History, members: set<NodeId>)
    requires Extends(h, h') && AcksInv(h) && NoLateAcks(h, h')
    requires ElectionsInv(h, members) && h'.elections == h.elections
    ensures ElectionsInv(h', members)
  {
    forall t {:trigger ElectionInv(h', members, t)} | t in h'.elections ensures ElectionInv(h', members, t) {
      assert ElectionInv(h, members, t);
      ElectionGrows(h, h', members, t);
    }
  }

  lemma ChosenGrows(h: History, h': History, members: set<NodeId>, t: nat, i: nat, q: set<NodeId>)
    requires Extends(h, h') && Chosen(h, members, t, i, q)
    ensures Chosen(h', members, t, i, q)
  {
    forall x {:trigger AckedAt(h', x, t, i)} | x in q ensures AckedAt(h', x, t, i) {
      AckedAtGrows(h, h', x, t, i);
    }
  }

  lemma DecisionGrows(h: History, h': History, members: set<NodeId>, t: nat)
    requires Extends(h, h') && t in h.decisions && DecisionInv(h, members, t) && h'.decisions[t] == h.decisions[t]
    ensures DecisionInv(h', members, t)
  {
    ChosenGrows(h, h', members, t, h.decisions[t].index, h.decisions[t].quorum);
    assert IsPrefix(h.logs[t], h'.logs[t]);
  }

  lemma DecisionsSame(h: History, h': History, members: set<NodeId>)
    requires Extends(h, h') && DecisionsInv(h, members)
    requires h'.decisions == h.decisions && h'.committed == h.committed
    ensures DecisionsInv(h', members)
  {
    forall t {:trigger DecisionInv(h', members, t)} | t in h'.decisions ensures DecisionInv(h', members, t) {
      assert DecisionInv(h, members, t);
      DecisionGrows(h, h', members, t);
    }
  }

  /** New votes and candidacies do not disturb the history invariant. */
  lemma HistVotes(h: History, h': History, members: set<NodeId>)
    requires HistInv(h, members) && Extends(h, h')
    requires h' == h.(ballots := h'.ballots, votes := h'.votes)
    ensures HistInv(h', members)
  {
    LogsSame(h, h');
    ElectionsSame(h, h', members);
    DecisionsSame(h, h', members);
  }

  /** Adding candidacies and votes extends a history. */
  lemma ExtendsRecords(h: History, h': History)
    requires h' == h.(ballots := h'.ballots, votes := h'.votes)
    requires forall k :: k in h.ballots ==> k in h'.ballots && h'.ballots[k] == h.ballots[k]
    requires forall k :: k in h.votes ==> k in h'.votes && h'.votes[k] == h.votes[k]
    ensures Extends(h, h')
  {
  }

  lemma ExtendsTransitive(h: History, h1: History, h2: History)
    requires Extends(h, h1) && Extends(h1, h2)
    ensures Extends(h, h2)
  {
    hide IsPrefix;
    forall t | t in h.logs ensures t in h2.logs && IsPrefix(h.logs[t], h2.logs[t]) {
      PrefixTransitive(h.logs[t], h1.logs[t], h2.logs[t]);
    }
    PrefixTransitive(h.committed, h1.committed, h2.committed);
  }

  lemma PrefixTransitive(x: seq<LogEntry>, y: seq<LogEntry>, z: seq<LogEntry>)
    requires IsPrefix(x, y) && IsPrefix(y, z)
    ensures IsPrefix(x, z)
  {
  }
}
