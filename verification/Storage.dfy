/** The durable storage of a node, as an object that the node's locked sections write to. */
module Storage {
  import opened Types
  import opened NodeModel

  /** Copy entries one by one into fresh memory. */
  method CloneLogEntries(src: seq<LogEntry>) returns (dst: seq<LogEntry>)
    ensures dst == src
  {
    dst := [];
    for i := 0 to |src|
      invariant dst == src[..i]
    {
      dst := dst + [LogEntry(src[i].term, src[i].command)];
    }
  }

  /** Three records written independently. A call whose verdict is false fails and leaves its record alone. */
  class InMemoryStorage {
    var hard: HardState
    var logBase: nat
    var log: seq<LogEntry>
    var snap: Option<Snapshot>

    function View(): Disk
      reads this
    {
      Disk(hard, logBase, log, snap)
    }

    constructor ()
      ensures View() == Disk(HardState(0, None, 0), 0, [], None)
    {
      hard := HardState(0, None, 0);
      logBase := 0;
      log := [];
      snap := None;
    }

    method Load() returns (d: Disk)
      ensures d == View()
    {
      var entries := CloneLogEntries(log);
      d := Disk(hard, logBase, entries, snap);
    }

    method SaveHardState(state: HardState, ok: bool) returns (done: bool)
      modifies this
      ensures done == ok
      ensures View() == if ok then old(View()).(hard := state) else old(View())
    {
      if ok {
        hard := state;
      }
      done := ok;
    }

    method AppendLog(entries: seq<LogEntry>, ok: bool) returns (done: bool)
      modifies this
      ensures done == ok
      ensures View() == if ok then NodeModel.AppendLog(old(View()), entries) else old(View())
    {
      if ok {
        var copied := CloneLogEntries(entries);
        log := log + copied;
      }
      done := ok;
    }

    /** Keep the first `keepN` entries; a negative count keeps none, a large one keeps all. */
    method TruncateLog(keepN: int, ok: bool) returns (done: bool)
      modifies this
      ensures done == ok
      ensures View() ==
        if ok then NodeModel.TruncateLog(old(View()), if keepN < 0 then 0 else keepN) else old(View())
    {
      if ok {
        var keep := if keepN < 0 then 0 else keepN;
        if keep > |log| {
          keep := |log|;
        }
        log := log[..keep];
      }
      done := ok;
    }

    method SetLog(baseIndex: nat, entries: seq<LogEntry>, ok: bool) returns (done: bool)
      modifies this
      ensures done == ok
      ensures View() == if ok then NodeModel.SetLog(old(View()), baseIndex, entries) else old(View())
    {
      if ok {
        logBase := baseIndex;
        log := CloneLogEntries(entries);
      }
      done := ok;
    }

    method SaveSnapshot(snapshot: Snapshot, ok: bool) returns (done: bool)
      modifies this
      ensures done == ok
      ensures View() == if ok then old(View()).(snap := Some(snapshot)) else old(View())
    {
      if ok {
        snap := Some(snapshot);
      }
      done := ok;
    }
  }
}
