/** The KV service that consumes the apply stream, on values. */
module ServiceModel {
  import opened Types
  import opened NodeModel
  import opened StateMachine

  datatype Service = Service(store: Store, lastAppliedIndex: nat, appliedSinceSnap: nat)

  const NEW_SERVICE := Service(map[], 0, 0)

  /** Replace the state by a snapshot: no bytes means the empty store, undecodable bytes are an error. */
  function Restore(data: Blob): Option<Store> {
    match data
    case NoBytes => Some(map[])
    case Encoded(store) => Some(store)
    case Garbage => None
  }

  /** Consume one message; `None` is the error that stops the service's apply loop. */
  function HandleApply(s: Service, msg: ApplyMsg): Option<Service> {
    match msg
    case ApplySnapshot(index, data) =>
      (match Restore(data)
       case None => None
       case Some(store) => Some(Service(store, index, 0)))
    case ApplyCommand(index, command) =>
      if command.Malformed? then None
      else Some(Service(Execute(s.store, command), index, s.appliedSinceSnap + 1))
  }

  /** A snapshot is due after `every` commands; zero turns periodic snapshots off. */
  predicate Due(s: Service, every: nat) { every > 0 && s.appliedSinceSnap >= every }

  /** Consume one message and compact the log of the node when a snapshot is due; false is an error. */
  function Serve(s: Service, r: Replica, msg: ApplyMsg, every: nat, saveOk: bool, setLogOk: bool)
    : (Service, Replica, bool)
  {
    match HandleApply(s, msg)
    case None => (s, r, false)
    case Some(s1) =>
      if msg.ApplyCommand? && Due(s1, every) then
        var (r1, done) := TakeSnapshot(r, s1.lastAppliedIndex, Encoded(s1.store), saveOk, setLogOk);
        (if done then s1.(appliedSinceSnap := 0) else s1, r1, done)
      else (s1, r, true)
  }

  /** The message continues what the service has consumed and is about entries the node still knows of. */
  predicate InSequence(s: Service, n: Node, msg: ApplyMsg) {
    match msg
    case ApplyCommand(index, _) => index == s.lastAppliedIndex + 1 && index <= n.LastIndex()
    case ApplySnapshot(index, _) => index <= n.snapshotIndex
  }

  /** Fewer than `every` applied commands are uncompacted. */
  predicate Bounded(s: Service, n: Node, every: nat) {
    every > 0 ==> s.appliedSinceSnap < every && s.lastAppliedIndex <= n.snapshotIndex + s.appliedSinceSnap
  }

  /** Consuming the messages of a stream keeps the number of uncompacted commands below the threshold, and a
      message fails only because it does not decode or because the snapshot could not be saved: a snapshot is
      never asked for beyond the last log index. */
  lemma CompactionBound(s: Service, r: Replica, msg: ApplyMsg, every: nat, saveOk: bool, setLogOk: bool)
    requires InSequence(s, r.node, msg) && Bounded(s, r.node, every)
    ensures var (s', r', ok) := Serve(s, r, msg, every, saveOk, setLogOk);
      && (ok ==> Bounded(s', r'.node, every) && s'.lastAppliedIndex == msg.index)
      && (ok <==>
            && HandleApply(s, msg).Some?
            && (msg.ApplyCommand? && every > 0 && s.appliedSinceSnap + 1 == every && r.node.snapshotIndex < msg.index
                ==> saveOk))
  {
  }
}
