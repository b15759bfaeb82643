/** The replicated key-value state machine as a function of the committed commands. */
module StateMachine {
  import opened Types

  /** The effect of one decoded command; a payload that does not decode changes nothing. */
  function Execute(store: Store, command: Command): Store {
    match command
    case Put(key, value) => store[key := value]
    case Delete(key) => store - {key}
    case Unknown => store
    case Malformed => store
  }

  /** The state reached by executing a log from the empty store. */
  function Replay(log: seq<LogEntry>): Store {
    if log == [] then map[] else Execute(Replay(log[..|log| - 1]), log[|log| - 1].command)
  }

  lemma ReplayStep(log: seq<LogEntry>, k: nat)
    requires k < |log|
    ensures Replay(log[..k + 1]) == Execute(Replay(log[..k]), log[k].command)
  {
    assert log[..k + 1][..k] == log[..k];
  }

  /** The entry puts or deletes the key. */
  predicate Writes(entry: LogEntry, key: string) {
    (entry.command.Put? || entry.command.Delete?) && entry.command.key == key
  }

  /** The last entry of a log that writes the key is at position k. */
  predicate LastWrite(log: seq<LogEntry>, key: string, k: nat) {
    k < |log| && Writes(log[k], key) && forall j :: k < j < |log| ==> !Writes(log[j], key)
  }

  /** What a lookup finds after a replay: nothing if no entry writes the key or the last one that does deletes
      it, and the value of the last put otherwise. */
  lemma {:induction false} ReplayLookup(log: seq<LogEntry>, key: string)
    ensures (forall k :: 0 <= k < |log| ==> !Writes(log[k], key)) ==> key !in Replay(log)
    ensures forall k: nat :: LastWrite(log, key, k) ==>
      if log[k].command.Put? then key in Replay(log) && Replay(log)[key] == log[k].command.value
      else key !in Replay(log)
    ensures key in Replay(log) <==> exists k: nat :: LastWrite(log, key, k) && log[k].command.Put?
  {
    if log != [] {
      var init, last := log[..|log| - 1], |log| - 1;
      ReplayLookup(init, key);
      if Writes(log[last], key) {
        assert LastWrite(log, key, last);
      } else {
        forall k: nat ensures LastWrite(log, key, k) <==> LastWrite(init, key, k) {
          assert forall j :: 0 <= j < |init| ==> init[j] == log[j];
        }
        assert forall k: nat :: LastWrite(log, key, k) ==> log[k] == init[k];
      }
    }
  }
}
