/** The key-value store and the service between store and consensus, as objects updated in place. */
module KV {
  import opened Types
  import opened StateMachine
  import opened Raft
  import M = ServiceModel
  import NodeModel

  class Store {
    var data: map<string, string>

    constructor ()
      ensures data == map[]
    {
      data := map[];
    }

    method Get(key: string) returns (value: Option<string>)
      ensures value == if key in data then Some(data[key]) else None
    {
      if key in data {
        return Some(data[key]);
      }
      return None;
    }

    /** Decode and apply a command; a payload that does not decode is an error. */
    method Apply(command: Command) returns (ok: bool)
      modifies this
      ensures ok == !command.Malformed? && data == Execute(old(data), command)
    {
      if command.Malformed? {
        return false;
      }
      match command {
        case Put(key, value) => data := data[key := value];
        case Delete(key) => data := data - {key};
        case Unknown =>
      }
      return true;
    }

    /** Serialize a copy of the data, taken key by key. */
    method Snapshot() returns (raw: Blob)
      ensures raw == Encoded(data)
    {
      var copy: map<string, string> := map[];
      var rest := data.Keys;
      while rest != {}
        invariant rest <= data.Keys
        invariant copy == map k | k in data && k !in rest :: data[k]
        decreases |rest|
      {
        var k :| k in rest;
        copy := copy[k := data[k]];
        rest := rest - {k};
      }
      assert copy == data;
      return Encoded(copy);
    }

    /** Replace the data by a snapshot; no bytes mean the empty store, undecodable bytes change nothing. */
    method RestoreSnapshot(raw: Blob) returns (ok: bool)
      modifies this
      ensures ok == M.Restore(raw).Some?
      ensures data == if ok then M.Restore(raw).value else old(data)
    {
      match raw {
        case NoBytes => data := map[];
        case Encoded(store) => data := store;
        case Garbage => return false;
      }
      return true;
    }
  }

  class Service {
    const store: Store
    const consensus: RaftNode
    const snapshotEvery: nat

    var lastAppliedIndex: nat
    var appliedSinceSnap: nat

    function View(): M.Service
      reads this, store
    {
      M.Service(store.data, lastAppliedIndex, appliedSinceSnap)
    }

    constructor (store: Store, consensus: RaftNode, snapshotEvery: nat)
      ensures this.store == store && this.consensus == consensus && this.snapshotEvery == snapshotEvery
      ensures View() == M.Service(store.data, 0, 0)
    {
      this.store, this.consensus, this.snapshotEvery := store, consensus, snapshotEvery;
      lastAppliedIndex, appliedSinceSnap := 0, 0;
    }

    /** Consume one message of the apply channel. */
    method HandleApply(msg: ApplyMsg, saveOk: bool, setLogOk: bool) returns (ok: bool)
      modifies this, store, consensus, consensus.storage
      ensures (View(), consensus.View(), ok) ==
        M.Serve(old(View()), old(consensus.View()), msg, snapshotEvery, saveOk, setLogOk)
    {
      if msg.ApplySnapshot? {
        var restored := store.RestoreSnapshot(msg.data);
        if !restored {
          return false;
        }
        lastAppliedIndex := msg.index;
        appliedSinceSnap := 0;
        return true;
      }
      var applied := store.Apply(msg.command);
      if !applied {
        return false;
      }
      lastAppliedIndex := msg.index;
      appliedSinceSnap := appliedSinceSnap + 1;
      if snapshotEvery > 0 && appliedSinceSnap >= snapshotEvery {
        ok := TakeSnapshot(saveOk, setLogOk);
        return;
      }
      return true;
    }

    /** Hand the serialized store to the node; only a success resets the counter. */
    method TakeSnapshot(saveOk: bool, setLogOk: bool) returns (ok: bool)
      modifies this, consensus, consensus.storage
      ensures (consensus.View(), ok) ==
        NodeModel.TakeSnapshot(old(consensus.View()), lastAppliedIndex, Encoded(store.data), saveOk, setLogOk)
      ensures View() == if ok then old(View()).(appliedSinceSnap := 0) else old(View())
    {
      var data := store.Snapshot();
      ok := consensus.Snapshot(lastAppliedIndex, data, saveOk, setLogOk);
      if ok {
        appliedSinceSnap := 0;
      }
    }
  }
}
