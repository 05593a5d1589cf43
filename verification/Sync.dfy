/** One node of the synchronization protocol: exec/sync.c, with `confchg_fn` and
    `corosync_sync_completed` of exec/main.c, as functions on the static state. */
module Sync {

  type NodeId = int

  type ServiceId = int

  /** `struct memb_ring_id`; all zero means no ring. */
  datatype RingId = RingId(nodeid: NodeId, sequence: int)

  const NO_RING := RingId(0, 0)

  /** A process that joined a process group: one entry of the replicated list. */
  datatype Process = Process(nodeid: NodeId, pid: int, group: seq<int>)

  /** Messages of the closed process group service. The sender is known from the
      delivery, so entries carry the sender's node id only implicitly. */
  datatype CpgMessage =
    | ProcJoin(pid: int, group: seq<int>, behind: seq<int>)
    | ProcLeave(pid: int, group: seq<int>, reason: int)
    | Downlist(left: seq<NodeId>)
    | Joinlist(entries: seq<JoinEntry>)

  /** `join_list_entry`. A name is the first `length` bytes of its buffer; the bytes
      `behind` it are not part of it but are copied along with it. */
  datatype JoinEntry = JoinEntry(pid: int, group: seq<int>, behind: seq<int>)

  /** Multicast messages. `about` is not on the wire: it records for which index the
      sender transmitted a barrier, so that properties can speak of it. */
  datatype Message =
    | ServiceBuild(ring: RingId, services: seq<ServiceId>)
    | BarrierReached(ring: RingId, about: nat)
    | App(body: CpgMessage)

  datatype State = SERVICELIST_BUILD | PROCESS | BARRIER

  /** `loaded` entries have this node's own callbacks, the others dummies. */
  datatype Service = Service(id: ServiceId, activated: bool, loaded: bool)

  datatype Processor = Processor(nodeid: NodeId, received: bool)

  /** Calls into the services, in order. */
  datatype Callback =
    | RoundStart(ring: RingId)
    | Init(service: ServiceId)
    | Processed(service: ServiceId)
    | Activated(service: ServiceId)
    | Aborted(service: ServiceId)

  /** The static variables of exec/sync.c, `sync_in_process` of exec/main.c, the
      messages handed to totempg, the calls made so far, and whether the code has
      indexed the service list beyond its end. */
  datatype Node = Node(
    state: State,
    ring: RingId,
    idx: nat,
    processors: seq<Processor>,
    members: seq<NodeId>,
    trans: seq<NodeId>,
    services: seq<Service>,
    scheduled: bool,
    inProcess: bool,
    out: seq<Message>,
    calls: seq<Callback>,
    broken: bool)

  const INITIAL := Node(BARRIER, NO_RING, 0, [], [], [], [], false, true, [], [], false)

  // ---- the processor list ----

  function Unreceived(members: seq<NodeId>): (r: seq<Processor>)
    ensures |r| == |members|
    ensures forall i :: 0 <= i < |r| ==> r[i] == Processor(members[i], false)
  {
    seq(|members|, i requires 0 <= i < |members| => Processor(members[i], false))
  }

  function MarkReceived(ps: seq<Processor>, from: NodeId): (r: seq<Processor>)
    ensures |r| == |ps|
    ensures forall i :: 0 <= i < |r| ==>
              r[i] == if ps[i].nodeid == from then Processor(from, true) else ps[i]
  {
    seq(|ps|, i requires 0 <= i < |ps| =>
      if ps[i].nodeid == from then Processor(from, true) else ps[i])
  }

  function ClearReceived(ps: seq<Processor>): (r: seq<Processor>)
    ensures |r| == |ps|
    ensures forall i :: 0 <= i < |r| ==> r[i] == Processor(ps[i].nodeid, false)
  {
    seq(|ps|, i requires 0 <= i < |ps| => Processor(ps[i].nodeid, false))
  }

  predicate AllReceived(ps: seq<Processor>) {
    forall i :: 0 <= i < |ps| ==> ps[i].received
  }

  // ---- the service list ----

  function HasService(services: seq<Service>, id: ServiceId): bool {
    exists i :: 0 <= i < |services| && services[i].id == id
  }

  /** Append an entry with dummy callbacks for every id that is not known yet. */
  function AddUnknown(services: seq<Service>, ids: seq<ServiceId>): (r: seq<Service>)
    ensures services <= r
  {
    if ids == [] then services
    else
      var pre := AddUnknown(services, ids[..|ids| - 1]);
      var id := ids[|ids| - 1];
      if HasService(pre, id) then pre else pre + [Service(id, false, false)]
  }

  /** `qsort` by service id. */
  function SortServices(services: seq<Service>): (r: seq<Service>)
    ensures |r| == |services|
  {
    if services == [] then []
    else InsertService(SortServices(services[..|services| - 1]), services[|services| - 1])
  }

  function InsertService(sorted: seq<Service>, s: Service): (r: seq<Service>)
    ensures |r| == |sorted| + 1
  {
    if sorted == [] || sorted[|sorted| - 1].id <= s.id then sorted + [s]
    else InsertService(sorted[..|sorted| - 1], s) + [sorted[|sorted| - 1]]
  }

  /** The entries of this node's own services. */
  function OwnServices(loaded: seq<ServiceId>): (r: seq<Service>)
    ensures |r| == |loaded|
    ensures forall i :: 0 <= i < |r| ==> r[i] == Service(loaded[i], false, true)
  {
    seq(|loaded|, i requires 0 <= i < |loaded| => Service(loaded[i], false, true))
  }

  function Inits(loaded: seq<ServiceId>): (r: seq<Callback>)
    ensures |r| == |loaded|
    ensures forall i :: 0 <= i < |r| ==> r[i] == Init(loaded[i])
  {
    seq(|loaded|, i requires 0 <= i < |loaded| => Init(loaded[i]))
  }

  /** Members of the transitional configuration that are also in the new one. */
  function Surviving(trans: seq<NodeId>, members: seq<NodeId>): seq<NodeId> {
    if trans == [] then []
    else
      var pre := Surviving(trans[..|trans| - 1], members);
      if trans[|trans| - 1] in members then pre + [trans[|trans| - 1]] else pre
  }

  // ---- the handlers ----

  /** `corosync_sync_completed`. */
  function Complete(n: Node): Node {
    n.(inProcess := false)
  }

  /** `sync_process_enter`. */
  function ProcessEnter(n: Node): Node {
    if n.services == [] then Complete(n.(state := SERVICELIST_BUILD))
    else n.(state := PROCESS, processors := ClearReceived(n.processors), scheduled := true)
  }

  /** `sync_start` and `sync_servicelist_build_enter`; `loaded` are the ids of the
      services that have synchronization callbacks on this node. */
  function Start(n: Node, members: seq<NodeId>, ring: RingId, loaded: seq<ServiceId>): Node {
    n.(ring := ring,
       state := SERVICELIST_BUILD,
       processors := Unreceived(members),
       members := members,
       trans := Surviving(n.trans, members),
       idx := 0,
       services := OwnServices(loaded),
       out := n.out + [ServiceBuild(ring, loaded)],
       calls := n.calls + [RoundStart(ring)] + Inits(loaded))
  }

  /** A call to a service that is loaded here; dummies make no call. */
  function Call(s: Service, c: Callback): seq<Callback> {
    if s.loaded then [c] else []
  }

  /** `sync_abort`. */
  function Abort(n: Node): Node {
    n.(scheduled := n.scheduled && n.state != PROCESS,
       calls := n.calls +
         if (n.state == PROCESS || n.state == BARRIER) && n.idx < |n.services|
         then Call(n.services[n.idx], Aborted(n.services[n.idx].id)) else [],
       ring := NO_RING)
  }

  /** `confchg_fn` for a transitional configuration. */
  function Transitional(n: Node, members: seq<NodeId>): Node {
    var n1 := n.(inProcess := true);
    (if n.inProcess then Abort(n1) else n1).(trans := members)
  }

  /** `confchg_fn` for a regular configuration. */
  function Regular(n: Node, members: seq<NodeId>, ring: RingId, loaded: seq<ServiceId>): Node {
    var n1 := n.(inProcess := true);
    Start(if n.inProcess then Abort(n1) else n1, members, ring, loaded)
  }

  /** `sync_service_build_handler`. */
  function BuildHandler(n: Node, from: NodeId, ring: RingId, ids: seq<ServiceId>): Node {
    if n.ring != ring then n
    else
      var added := AddUnknown(n.services, ids);
      var n1 := n.(services := if |added| > |n.services| then SortServices(added) else n.services,
                   processors := MarkReceived(n.processors, from));
      if AllReceived(n1.processors) then ProcessEnter(n1) else n1
  }

  /** `sync_barrier_handler`. */
  function BarrierHandler(n: Node, from: NodeId, ring: RingId): Node {
    if n.ring != ring then n
    else
      var n1 := n.(processors := MarkReceived(n.processors, from));
      if !AllReceived(n1.processors) then n1
      else if n.idx >= |n.services| then n1.(broken := true)
      else Commit(n1)
  }

  /** The barrier is reached: activate the service and go on to the next. */
  function Commit(n: Node): Node
    requires n.idx < |n.services|
  {
    var s := n.services[n.idx];
    var n1 := n.(services := n.services[n.idx := s.(activated := true)],
                 calls := n.calls + Call(s, Activated(s.id)),
                 idx := n.idx + 1);
    if |n1.services| == n1.idx then Complete(n1) else ProcessEnter(n1)
  }

  /** `schedwrk_processor`: run `sync_process` of the current service, which sends
      `sent` and succeeds or asks to be called again. */
  function Work(n: Node, sent: seq<Message>, done: bool): Node {
    if n.idx >= |n.services| then n.(broken := true)
    else if n.services[n.idx].activated then n.(scheduled := false)
    else
      var s := n.services[n.idx];
      var n1 := n.(calls := n.calls + Call(s, Processed(s.id)), out := n.out + sent);
      if done || !s.loaded
      then n1.(scheduled := false, state := BARRIER, out := n1.out + [BarrierReached(n.ring, n.idx)])
      else n1
  }

  /** `sync_deliver_fn`; messages of other services do not concern it. */
  function DeliverMessage(n: Node, from: NodeId, m: Message): Node {
    match m
    case ServiceBuild(ring, services) => BuildHandler(n, from, ring, services)
    case BarrierReached(ring, _) => BarrierHandler(n, from, ring)
    case App(_) => n
  }
}
