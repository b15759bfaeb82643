/** Log Matching: exactly which steps keep it, and the runs in which it holds for whole prefixes. */
module LogMatching {
  import opened Types
  import opened NodeModel
  import opened Cluster
  import opened Invariants
  import opened Safety
  import opened Frames
  import opened StepsSnapshot
  import opened Preservation
  import opened LogChanges

  /** Every log of the cluster consists of prefixes of leaders' logs. */
  predicate AllMatched(c: Cluster) {
    forall id {:trigger MatchedAt(c, id)} :: id in c.servers ==> MatchedAt(c, id)
  }

  predicate MatchedAt(c: Cluster, id: NodeId)
    requires id in c.servers
  {
    Matched(c.history, Full(c.history, c.servers[id].rep.node))
  }

  /** An action leaves every other server, and its uncompacted log, alone. */
  lemma OthersKeepLog(c: Cluster, a: Action, id: NodeId)
    requires Inv(c) && Enabled(c, a) && Extends(c.history, EffectOf(c, a).history) && id in c.servers && id != a.id
    ensures Apply(c, a).servers[id] == c.servers[id]
    ensures Full(Apply(c, a).history, c.servers[id].rep.node) == Full(c.history, c.servers[id].rep.node)
  {
    hide EffectOf;
    Unpack(c, id);
    hide Inv;
    CommittedSnapshot(c.history, c.servers.Keys, id, c.servers[id]);
    FullStable(c.history, Apply(c, a).history, c.servers[id].rep.node);
  }

  lemma InstalledForeign(h: History, members: set<NodeId>, n: Node, snap: Snapshot)
    requires LogsInv(h) && DecisionsInv(h, members) && Matched(h, Full(h, n))
    requires n.snapshotIndex < snap.lastIncludedIndex <= |h.committed|
    requires snap.lastIncludedTerm == TermAt(h.committed, snap.lastIncludedIndex)
    ensures Matched(h, Installed(h, Full(h, n), snap.lastIncludedIndex)) <==> !KeepsForeignSuffix(n, snap)
  {
    InstalledMatched(h, members, Full(h, n), snap.lastIncludedIndex);
    assert |Full(h, n)| == n.LastIndex();
  }

  lemma InstallKeepsMatched(c: Cluster, a: Action)
    requires Inv(c) && Enabled(c, a) && a.DoInstall? && MatchedAt(c, a.id)
    ensures MatchedAt(Apply(c, a), a.id) <==> !ForeignInstall(c, a)
  {
    var h, members, s := c.history, c.servers.Keys, c.servers[a.id];
    Unpack(c, a.id);
    assert MessageInv(h, members, SnapReq(a.id, a.sreq));
    hide Inv;
    hide HandleInstallSnapshot;
    hide Installed;
    hide Matched;
    InstallChange(h, members, a.id, s, a.sreq, a.sfaults);
    hide ServerInv;
    assert LogsInv(h) && DecisionsInv(h, members);
    hide HistInv;
    hide LogsInv;
    hide DecisionsInv;
    assert Apply(c, a).history == h;
    if Takes(s.rep, a.sreq, a.sfaults) {
      InstalledForeign(h, members, s.rep.node, a.sreq.snapshot);
    }
  }

  lemma ChangeKeepsMatched(h: History, full: seq<LogEntry>, full': seq<LogEntry>, t: nat)
    requires LogsInv(h) && Matched(h, full) && LogChange(h, full, full', t, None)
    ensures Matched(h, full')
  {
    if full' != full {
      LeaderPrefixMatched(h, full', t);
    }
  }

  lemma ActorMatched(c: Cluster, a: Action)
    requires Inv(c) && Enabled(c, a) && Recovers(c, a) && Inv(Apply(c, a)) && Continues(c, Apply(c, a)) && MatchedAt(c, a.id)
    ensures MatchedAt(Apply(c, a), a.id) <==> !ForeignInstall(c, a)
  {
    if a.DoInstall? {
      InstallKeepsMatched(c, a);
    } else {
      var e, full := EffectOf(c, a), Full(c.history, c.servers[a.id].rep.node);
      assert LogsInv(e.history);
      hide Inv;
      hide Enabled;
      hide EffectOf;
      ActionLogChange(c, a);
      MatchedGrows(c.history, e.history, full);
      ChangeKeepsMatched(e.history, full, Full(e.history, e.server.rep.node), e.server.rep.disk.hard.currentTerm);
    }
  }

  /** A step keeps all logs matched exactly when it does not install a snapshot below entries kept over a
      boundary entry of another term. */
  lemma MatchedStep(c: Cluster, a: Action)
    requires Inv(c) && Enabled(c, a) && Recovers(c, a) && AllMatched(c)
    ensures AllMatched(Apply(c, a)) <==> !ForeignInstall(c, a)
  {
    hide Inv;
    hide Matched;
    hide EffectOf;
    hide ForeignInstall;
    var c' := Apply(c, a);
    StepPreservesInv(c, a);
    assert a.id in c'.servers && a.id in c.servers;
    hide Enabled;
    assert MatchedAt(c, a.id);
    ActorMatched(c, a);
    forall id {:trigger MatchedAt(c', id)} | id in c'.servers && id != a.id ensures MatchedAt(c', id) {
      assert MatchedAt(c, id);
      OthersKeepLog(c, a, id);
      MatchedGrows(c.history, c'.history, Full(c.history, c.servers[id].rep.node));
    }
  }

  /** In a matched log terms never decrease. */
  lemma MatchedTermsOrdered(h: History, full: seq<LogEntry>, j: nat, k: nat)
    requires LogsInv(h) && Matched(h, full) && j <= k < |full|
    ensures full[j].term <= full[k].term
  {
    assert Traced(h, full, 0, k);
    LeaderTermsOrdered(h, full[k].term, j, k);
  }

  /** Every entry of an uncompacted log, compacted or kept, is the entry that the leader of its term has there. */
  lemma EntryOfLeader(c: Cluster, id: NodeId, k: nat)
    requires Inv(c) && id in c.servers && k < |Full(c.history, c.servers[id].rep.node)|
    ensures var e := Full(c.history, c.servers[id].rep.node)[k];
      && e.term in c.history.logs && k < |c.history.logs[e.term]| && c.history.logs[e.term][k] == e
  {
    var h, members, s := c.history, c.servers.Keys, c.servers[id];
    var n, full := s.rep.node, Full(h, s.rep.node);
    Unpack(c, id);
    CommittedSnapshot(h, members, id, s);
    assert LogInv(h, full, n.snapshotIndex, s.rep.disk.hard.currentTerm);
    hide ServerInv;
    hide Inv;
    if k < n.snapshotIndex {
      CommittedMatched(h, members, n.snapshotIndex);
      assert Traced(h, h.committed[..n.snapshotIndex], 0, k);
    } else {
      assert EntryInv(h, full, n.snapshotIndex, k, s.rep.disk.hard.currentTerm);
    }
  }
}
