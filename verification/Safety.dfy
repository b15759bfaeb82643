/** Consequences of the history invariant: quorums meet, leader logs are ordered, and every later
    leader holds every committed entry. */
module Safety {
  import opened Types
  import opened Cluster
  import opened Invariants

  lemma {:induction false} SubsetSize(a: set<NodeId>, b: set<NodeId>)
    requires a <= b
    ensures |a| <= |b|
    decreases a
  {
    if a != {} {
      var x :| x in a;
      SubsetSize(a - {x}, b - {x});
    }
  }

  /** Two majorities share a member. */
  lemma QuorumsMeet(members: set<NodeId>, a: set<NodeId>, b: set<NodeId>) returns (x: NodeId)
    requires IsQuorum(members, a) && IsQuorum(members, b)
    ensures x in a && x in b
  {
    SubsetSize(a + b, members);
    assert |a + b| == |a| + |b| - |a * b|;
    x :| x in a * b;
  }

  lemma LeaderTermsOrdered(h: History, t: nat, j: nat, k: nat)
    requires LogsInv(h) && t in h.logs && j <= k < |h.logs[t]|
    ensures h.logs[t][j].term <= h.logs[t][k].term <= t
  {
    assert LeaderLogInv(h, t) && LeaderEntryInv(h, t, k);
    var u := h.logs[t][k].term;
    assert LeaderLogInv(h, u) && LeaderEntryInv(h, u, j);
  }

  /** The log a leader was elected with is a prefix of the log of the leader of its last term. */
  lemma ElectedFromLog(h: History, t: nat)
    requires LogsInv(h) && t in h.logs && h.elections[t].log != []
    ensures var log := h.elections[t].log; var u := log[|log| - 1].term;
      && u < t && u in h.logs
      && |h.elections[u].log| < |log|
      && Agree(log, h.logs[u], 0, |log|)
  {
    var log := h.elections[t].log;
    assert LeaderLogInv(h, t) && LeaderEntryInv(h, t, |log| - 1);
    var u := log[|log| - 1].term;
    assert LeaderLogInv(h, u) && LeaderEntryInv(h, u, |log| - 1);
  }

  /** Leader Completeness: an entry acknowledged by a quorum in its own term is, with everything
      before it, in the log every leader of a later term was elected with. */
  lemma {:induction false} LeaderCompleteness(
    h: History, members: set<NodeId>, t: nat, i: nat, q: set<NodeId>, u: nat)
    requires LogsInv(h) && ElectionsInv(h, members)
    requires Chosen(h, members, t, i, q)
    requires t < u && u in h.elections && t in h.logs
    ensures Agree(h.elections[u].log, h.logs[t], 0, i)
    decreases u
  {
    assert ElectionInv(h, members, u);
    var x := QuorumsMeet(members, q, h.elections[u].quorum);
    assert AckedAt(h, x, t, i) && VoterInv(h, u, x);
    var log := h.elections[u].log;
    if Lost(h, t, i, u) {
      var v :| t < v < u && v in h.elections && !Agree(h.elections[v].log, h.logs[t], 0, i);
      LeaderCompleteness(h, members, t, i, q, v);
      assert false;
    }
    assert AtLeast(LastPosition(log), Position(t, i));
    assert LeaderLogInv(h, t);
    ElectedFromLog(h, u);
    var v := log[|log| - 1].term;
    if t < v {
      LeaderCompleteness(h, members, t, i, q, v);
      assert LeaderLogInv(h, v);
    }
  }

  /** Every leader of term `t` or later has every entry committed up to term `t`. */
  lemma CommittedInLeader(h: History, members: set<NodeId>, index: nat, t: nat, u: nat)
    requires LogsInv(h) && ElectionsInv(h, members) && DecisionsInv(h, members)
    requires Covered(h, index, t) && t <= u && u in h.logs
    ensures Agree(h.logs[u], h.committed, 0, index)
  {
    if 0 < index {
      var v :| v in h.decisions && v <= t && index <= h.decisions[v].index;
      assert DecisionInv(h, members, v);
      if v < u {
        LeaderCompleteness(h, members, v, h.decisions[v].index, h.decisions[v].quorum, u);
        assert LeaderLogInv(h, u);
      }
    }
  }

  /** An index committed up to term `t` that holds an entry of term `t` was committed by term t's leader. */
  lemma CommittedByOwnTerm(h: History, members: set<NodeId>, index: nat, t: nat, i: nat)
    requires LogsInv(h) && ElectionsInv(h, members) && DecisionsInv(h, members)
    requires Covered(h, index, t) && t in h.logs
    requires 1 <= i <= index && i <= |h.logs[t]| && h.logs[t][i - 1].term == t
    ensures t in h.decisions && i <= h.decisions[t].index
  {
    var v :| v in h.decisions && v <= t && index <= h.decisions[v].index;
    assert DecisionInv(h, members, v);
    assert LeaderLogInv(h, t) && LeaderEntryInv(h, t, i - 1);
    if v < t {
      LeaderCompleteness(h, members, v, h.decisions[v].index, h.decisions[v].quorum, t);
    }
  }

  /** A node log traced to leaders agrees with a leader's log up to any position where the terms agree. */
  lemma SameTermSamePrefix(h: History, full: seq<LogEntry>, from: nat, t: nat, k: nat)
    requires LogsInv(h) && t in h.logs && from <= k < |full| && k < |h.logs[t]|
    requires Traced(h, full, from, k)
    requires full[k].term == h.logs[t][k].term
    ensures Agree(full, h.logs[t], from, k + 1)
  {
    assert LeaderLogInv(h, t) && LeaderEntryInv(h, t, k);
  }
}
