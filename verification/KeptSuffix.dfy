/** A run in which Log Matching is lost: a follower installs a snapshot of one term below entries of an older
    term, because the entry at the boundary is not compared with the snapshot. */
module KeptSuffix {
  import opened Types
  import opened NodeModel
  import opened Cluster
  import opened Invariants
  import opened LogMatching
  import opened Scenario
  import Theorems

  const X := Put("x", "1")
  const Y := Put("y", "1")

  lemma Install(run: seq<Cluster>, l: NodeId, g: NodeId, t: nat, store: Store) returns (run': seq<Cluster>)
    requires IsExecution(run) && g in Last(run).servers
    requires SnapReq(g, SnapshotRequest(t, l, TakenAt(t, store))) in Last(run).net
    requires var n := Last(run).servers[g].rep.node;
      !n.degraded && n.currentTerm < t && n.snapshotIndex == 0 && 1 < |n.log|
    ensures Continued(run, run') && g in Last(run').servers
    ensures var n, n' := Last(run).servers[g].rep.node, Last(run').servers[g].rep.node;
      n'.log == n.log[1..] && n'.snapshotIndex == 1 && n'.snapshotTerm == t
  {
    hide IsExecution;
    hide IsRun;
    run' := Act(run, DoInstall(g, SnapshotRequest(t, l, TakenAt(t, store)), SnapshotFaults(true, true, true, true)));
  }

  /** Server 2 leads term 1 and keeps two entries to itself. */
  lemma FirstTerm() returns (run: seq<Cluster>)
    ensures IsExecution(run) && IsRun(run) && ThreeServers(Last(run))
    ensures Blank(Last(run).servers[1], 0) && Blank(Last(run).servers[0], 1)
    ensures Led(Last(run).servers[2], Last(run).ConfigOf(2), 1, [LogEntry(1, X), LogEntry(1, X)])
  {
    hide IsExecution;
    hide IsRun;
    hide Blank;
    hide Led;
    var r1 := Begin();
    var r2 := BlankCampaign(r1, 2, 0, 0, 0);
    var r3 := LedPropose(r2, 2, 1, [], X);
    var entry := LogEntry(1, X);
    assert [] + [entry] == [entry];
    run := LedPropose(r3, 2, 1, [entry], X);
    assert [entry] + [entry] == [entry, entry];
  }

  /** Server 0 leads term 2 and has one entry. */
  lemma SecondTerm() returns (run: seq<Cluster>)
    ensures IsExecution(run) && IsRun(run) && ThreeServers(Last(run)) && Blank(Last(run).servers[1], 2)
    ensures Led(Last(run).servers[0], Last(run).ConfigOf(0), 2, [LogEntry(2, Y)])
    ensures Led(Last(run).servers[2], Last(run).ConfigOf(2), 1, [LogEntry(1, X), LogEntry(1, X)])
  {
    hide IsExecution;
    hide IsRun;
    hide Blank;
    hide Led;
    var r1 := FirstTerm();
    var r2 := BlankCampaign(r1, 0, 1, 1, 0);
    run := LedPropose(r2, 0, 2, [], Y);
    assert [] + [LogEntry(2, Y)] == [LogEntry(2, Y)];
  }

  /** A reachable state in which Log Matching does not hold: in the log of server 2, an entry of term 1 follows
      a committed one of term 2. */
  lemma LogMatchingCanFail() returns (run: seq<Cluster>, h: History, full: seq<LogEntry>)
    ensures IsRun(run) && 2 in Last(run).servers && h == Last(run).history && full == Full(h, Last(run).servers[2].rep.node)
    ensures |full| == 2 && full[0].term == 2 && full[1].term == 1
    ensures !AllMatched(Last(run))
  {
    hide NextAt;
    hide StepAt;
    hide Init;
    hide AllMatched;
    hide Full;
    var store: Store := map["y" := "1"];
    var r0 := SecondTerm();
    var r1 := Settle(r0, 0, 1, 2, 2, Y);
    var r2 := Apply1(r1, 0, 2, "y", "1");
    var r3 := Compact(r2, 0, 2, Y, store);
    var r4 := SendSnapshot(r3, 0, 2, 2, store);
    run := Install(r4, 0, 2, 2, store);
    assert [LogEntry(1, X), LogEntry(1, X)][1..] == [LogEntry(1, X)];
    h, full := Last(run).history, Full(Last(run).history, Last(run).servers[2].rep.node);
    OldAboveNew(run, h, full);
  }

  lemma OldAboveNew(run: seq<Cluster>, h: History, full: seq<LogEntry>)
    requires IsRun(run) && 2 in Last(run).servers && h == Last(run).history && full == Full(h, Last(run).servers[2].rep.node)
    requires var n := Last(run).servers[2].rep.node;
      n.snapshotIndex == 1 && n.snapshotTerm == 2 && n.log == [LogEntry(1, X)]
    ensures |full| == 2 && full[0].term == 2 && full[1].term == 1
    ensures !AllMatched(Last(run))
  {
    Theorems.RunInv(run, |run| - 1);
    var c := Last(run);
    hide IsRun;
    assert ServerInv(h, c.servers.Keys, 2, c.servers[2]);
    assert LogsInv(h);
    hide Inv;
    if AllMatched(c) {
      assert MatchedAt(c, 2);
      MatchedTermsOrdered(h, full, 0, 1);
    }
  }
}
