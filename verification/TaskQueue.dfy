/** The Redis side of the queue: a ready list, a processing list and one expiring marker
    per task, changed by single atomic commands. */
module TaskQueue {
  import opened Basics

  type Id = nat

  /** List index 0 is the left end; a marker maps to the time at which it lapses. */
  datatype Redis = Redis(ready: seq<Id>, processing: seq<Id>, markers: map<Id, nat>, cancels: set<Id>)

  datatype Command =
    | SetMarker(id: Id)        // SET NX EX
    | DropProcessing(id: Id)   // LREM processing 0
    | PushReady(id: Id)        // LPUSH ready
    | DeleteMarker(id: Id)
    | PopReady                 // BRPOPLPUSH ready processing
    | DropOne(id: Id)          // LREM processing 1
    | PushBack(id: Id)         // RPUSH ready
    | SetCancel(id: Id)
    | ClearCancel(id: Id)

  predicate Live(markers: map<Id, nat>, id: Id, now: nat) { id in markers && now < markers[id] }

  function Without(xs: seq<Id>, id: Id): (ys: seq<Id>)
    ensures id !in ys && forall y :: y in ys ==> y in xs
    ensures forall y :: y in xs && y != id ==> y in ys
  {
    if xs == [] then []
    else if xs[0] == id then Without(xs[1..], id)
    else
      assert xs == [xs[0]] + xs[1..];
      [xs[0]] + Without(xs[1..], id)
  }

  function WithoutFirst(xs: seq<Id>, id: Id): seq<Id> {
    if xs == [] then [] else if xs[0] == id then xs[1..] else [xs[0]] + WithoutFirst(xs[1..], id)
  }

  function Do(cmd: Command, r: Redis, now: nat, ttl: nat): Redis {
    match cmd
    case SetMarker(id) => if Live(r.markers, id, now) then r else r.(markers := r.markers[id := now + ttl])
    case DropProcessing(id) => r.(processing := Without(r.processing, id))
    case PushReady(id) => r.(ready := [id] + r.ready)
    case DeleteMarker(id) => r.(markers := r.markers - {id})
    case PopReady =>
      if r.ready == [] then r
      else r.(ready := r.ready[..|r.ready| - 1], processing := [r.ready[|r.ready| - 1]] + r.processing)
    case DropOne(id) => r.(processing := WithoutFirst(r.processing, id))
    case PushBack(id) => r.(ready := r.ready + [id])
    case SetCancel(id) => r.(cancels := r.cancels + {id})
    case ClearCancel(id) => r.(cancels := r.cancels - {id})
  }

  /** TaskQueue, its methods running without interruption. */
  class Queue {
    var ready: seq<Id>
    var processing: seq<Id>
    var markers: map<Id, nat>
    const markerTtl: nat

    constructor (ttl: nat)
      ensures ready == [] && processing == [] && markers == map[] && markerTtl == ttl
    {
      ready, processing, markers, markerTtl := [], [], map[], ttl;
    }

    function View(): Redis
      reads this
    {
      Redis(ready, processing, markers, {})
    }

    method Enqueue(id: Id, now: nat) returns (queued: bool)
      modifies this
      ensures queued == !Live(old(markers), id, now)
      ensures View() ==
              if queued then
                old(View()).(ready := [id] + old(ready), processing := Without(old(processing), id),
                             markers := old(markers)[id := now + markerTtl])
              else old(View())
    {
      if Live(markers, id, now) { return false; }
      markers := markers[id := now + markerTtl];
      var kept := [];
      for i := 0 to |processing|
        invariant kept + Without(processing[i..], id) == Without(processing, id)
      {
        if processing[i] != id { kept := kept + [processing[i]]; }
      }
      assert processing[|processing|..] == [];
      processing := kept;
      ready := [id] + ready;
      queued := true;
    }

    /** None when the blocking pop times out. */
    method Reserve() returns (id: Option<Id>)
      modifies this
      ensures View() == Do(PopReady, old(View()), 0, markerTtl)
      ensures id == if old(ready) == [] then None else Some(old(ready)[|old(ready)| - 1])
    {
      if ready == [] { return None; }
      id := Some(ready[|ready| - 1]);
      ready := ready[..|ready| - 1];
      processing := [id.value] + processing;
    }

    method Acknowledge(id: Id)
      modifies this
      ensures View() == old(View()).(processing := WithoutFirst(old(processing), id), markers := old(markers) - {id})
    {
      processing := WithoutFirst(processing, id);
      markers := markers - {id};
    }

    method Release(id: Id)
      modifies this
      ensures View() == old(View()).(
                processing := WithoutFirst(old(processing), id),
                ready := if id in old(processing) then old(ready) + [id] else old(ready))
    {
      var removed := id in processing;
      processing := WithoutFirst(processing, id);
      if removed { ready := ready + [id]; }
    }
  }

  /** Releasing a reserved task puts both lists back as they were; acknowledging it leaves
      processing as it was and frees its marker, whatever duplicates the lists hold. */
  lemma ReleaseUndoesReserve(r: Redis, id: Id, now: nat, ttl: nat)
    requires r.ready != [] && id == r.ready[|r.ready| - 1]
    ensures var reserved := Do(PopReady, r, now, ttl);
      && id in reserved.processing
      && Do(PushBack(id), Do(DropOne(id), reserved, now, ttl), now, ttl) == r
      && Do(DeleteMarker(id), Do(DropOne(id), reserved, now, ttl), now, ttl)
         == r.(ready := r.ready[..|r.ready| - 1], markers := r.markers - {id})
  {
  }
}
