/** The synchronization protocol as a state machine: any number of nodes, any
    sequence of transitional and regular configuration changes, and for every ring
    one log that its members deliver in the same order. */
module SyncProtocol {
  import opened Wrappers
  import opened Sync
  import opened SyncLists

  type Log = seq<(NodeId, Message)>

  /** The members of every ring, and the services a node has loaded while it is in
      a ring. */
  datatype Config = Config(members: RingId -> seq<NodeId>, loaded: (RingId, NodeId) -> seq<ServiceId>)

  ghost predicate DistinctNodes(ns: seq<NodeId>) {
    forall i, j :: 0 <= i < j < |ns| ==> ns[i] != ns[j]
  }

  ghost predicate ConfigOk(c: Config) {
    && (forall r :: DistinctNodes(c.members(r)) && c.members(r) != [])
    && (forall r, n :: IncreasingIds(c.loaded(r, n)))
  }

  /** A node in the system: its state with the queue in use, the ring of its last
      regular configuration, how much of that ring's log it has delivered, whether the
      transitional configuration out of that ring has been delivered, the rings it was
      in, and the queue that is not in use: totemsrp has one queue for the messages of
      a synchronization and another one for the time between two of them. */
  datatype Local =
    Local(node: Node, cur: RingId, pos: nat, transit: bool, joined: set<RingId>, held: seq<Message>)

  const FRESH := Local(INITIAL, NO_RING, 0, false, {}, [])

  /** Milestones of a run, in order. */
  datatype Event =
    | Finished(node: NodeId, ring: RingId, service: ServiceId)
    | Committed(node: NodeId, ring: RingId, service: ServiceId)

  datatype System = System(locals: map<NodeId, Local>, logs: map<RingId, Log>, events: seq<Event>)

  const INIT := System(map[], map[], [])

  function At(s: System, n: NodeId): Local {
    if n in s.locals then s.locals[n] else FRESH
  }

  function LogIn(s: System, r: RingId): Log {
    if r in s.logs then s.logs[r] else []
  }

  datatype Step =
    | RegularConf(n: NodeId, ring: RingId, kept: seq<Message>)
      // the node enters a ring; of the messages in the queue in use `kept` survive
    | TransitionalConf(n: NodeId, members: seq<NodeId>)
    | Originate(n: NodeId)
      // the oldest unsent message of the node is put into the log of its ring
    | Deliver(n: NodeId)
    | Skip(n: NodeId)
      // after the transitional configuration messages of the old ring may be lost
    | DoWork(n: NodeId, sent: seq<CpgMessage>, done: bool)
      // the scheduled call of `schedwrk_processor`
    | Send(n: NodeId, body: CpgMessage)
      // a service sends a message of its own
    | Exchange(n: NodeId, out: seq<Message>, held: seq<Message>)
      // before and after a synchronization the queues change places
    | Restart(n: NodeId)
      // the node stops and starts again; it will not be in an old ring again

  function Bodies(sent: seq<CpgMessage>): (r: seq<Message>)
    ensures |r| == |sent|
    ensures forall i :: 0 <= i < |r| ==> r[i] == App(sent[i])
  {
    seq(|sent|, i requires 0 <= i < |sent| => App(sent[i]))
  }

  ghost predicate Enabled(c: Config, s: System, step: Step) {
    var l := At(s, step.n);
    match step
    case RegularConf(n, r, kept) =>
      && r != NO_RING && n in c.members(r) && r !in l.joined
      && forall i :: 0 <= i < |kept| ==> kept[i] in l.node.out
    case TransitionalConf(n, members) => true
    case Originate(n) => l.node.out != [] && l.cur != NO_RING && !l.transit
    case Deliver(n) => l.cur != NO_RING && l.pos < |LogIn(s, l.cur)|
    case Skip(n) => l.transit && l.cur != NO_RING && l.pos < |LogIn(s, l.cur)|
    case DoWork(n, sent, done) =>
      && l.node.scheduled
      && (l.node.idx < |l.node.services| && !l.node.services[l.node.idx].loaded ==> sent == [])
    case Send(n, body) => true
    case Exchange(n, out, held) =>
      && !l.node.inProcess
      && (forall i :: 0 <= i < |out| ==> out[i] in l.node.out || out[i] in l.held)
      && (forall i :: 0 <= i < |held| ==> held[i] in l.node.out || held[i] in l.held)
    case Restart(n) => true
  }

  function SetLocal(s: System, n: NodeId, l: Local): System {
    s.(locals := s.locals[n := l])
  }

  /** Milestones of a step that takes a node from `a` to `b`. */
  function Milestones(n: NodeId, a: Node, b: Node): seq<Event> {
    if b.idx == a.idx + 1 && a.idx < |a.services| then [Committed(n, a.ring, a.services[a.idx].id)]
    else if a.state == PROCESS && b.state == BARRIER && a.idx < |a.services|
    then [Finished(n, a.ring, a.services[a.idx].id)]
    else []
  }

  ghost function Apply(c: Config, s: System, step: Step): System
    requires Enabled(c, s, step)
  {
    var l := At(s, step.n);
    match step
    case RegularConf(n, r, kept) =>
      var node := Regular(l.node.(out := kept), c.members(r), r, c.loaded(r, n));
      SetLocal(s, n, Local(node, r, 0, false, l.joined + {r}, l.held))
    case TransitionalConf(n, members) =>
      SetLocal(s, n, l.(node := Transitional(l.node, members), transit := true))
    case Originate(n) =>
      SetLocal(s.(logs := s.logs[l.cur := LogIn(s, l.cur) + [(n, l.node.out[0])]]), n,
               l.(node := l.node.(out := l.node.out[1..])))
    case Deliver(n) =>
      var (from, m) := LogIn(s, l.cur)[l.pos];
      var node := DeliverMessage(l.node, from, m);
      SetLocal(s, n, l.(node := node, pos := l.pos + 1))
        .(events := s.events + Milestones(n, l.node, node))
    case Skip(n) => SetLocal(s, n, l.(pos := l.pos + 1))
    case DoWork(n, sent, done) =>
      var node := Work(l.node, Bodies(sent), done);
      SetLocal(s, n, l.(node := node)).(events := s.events + Milestones(n, l.node, node))
    case Send(n, body) =>
      SetLocal(s, n, l.(node := l.node.(out := l.node.out + [App(body)])))
    case Exchange(n, out, held) =>
      SetLocal(s, n, l.(node := l.node.(out := out), held := held))
    case Restart(n) =>
      SetLocal(s, n, FRESH.(joined := l.joined))
  }

  /** The state after a sequence of steps, if all of them are possible. */
  ghost function Exec(c: Config, steps: seq<Step>): Option<System> {
    if steps == [] then Some(INIT)
    else
      match Exec(c, steps[..|steps| - 1])
      case None => None
      case Some(s) =>
        var step := steps[|steps| - 1];
        if Enabled(c, s, step) then Some(Apply(c, s, step)) else None
  }

  // ---- what the invariant speaks of ----

  /** A synchronization message of a ring. */
  predicate Tagged(m: Message, r: RingId) {
    !m.App? && m.ring == r
  }

  /** How many synchronization messages of ring `r` a sender has in a log. */
  function Count(log: Log, sender: NodeId, r: RingId): nat {
    if log == [] then 0
    else
      var (from, m) := log[|log| - 1];
      Count(log[..|log| - 1], sender, r) + if from == sender && Tagged(m, r) then 1 else 0
  }

  function Pending(out: seq<Message>, r: RingId): nat {
    if out == [] then 0
    else (if Tagged(out[0], r) then 1 else 0) + Pending(out[1..], r)
  }

  /** The k-th synchronization message of a node in a ring. */
  function Expected(c: Config, r: RingId, n: NodeId, k: nat): Message {
    if k == 0 then ServiceBuild(r, c.loaded(r, n)) else BarrierReached(r, k - 1)
  }

  function UnionOf(c: Config, r: RingId, ms: seq<NodeId>): (u: set<ServiceId>)
    ensures forall x :: x in u <==> exists i :: 0 <= i < |ms| && x in c.loaded(r, ms[i])
  {
    if ms == [] then {}
    else
      var k := |ms| - 1;
      var u := UnionOf(c, r, ms[..k]);
      assert forall i :: 0 <= i < k ==> ms[..k][i] == ms[i];
      u + ToSet(c.loaded(r, ms[k]))
  }

  /** All services of a ring. */
  function Union(c: Config, r: RingId): set<ServiceId> {
    UnionOf(c, r, c.members(r))
  }

  /** The services of a ring in the order in which they are synchronized. */
  ghost function Agenda(c: Config, r: RingId): seq<ServiceId> {
    Sorted(Union(c, r))
  }

  /** The services a node knows of: its own and those of the nodes it heard from. */
  ghost predicate Knows(c: Config, r: RingId, n: NodeId, heard: Log, x: ServiceId) {
    || x in c.loaded(r, n)
    || exists s :: s in c.members(r) && Count(heard, s, r) > 0 && x in c.loaded(r, s)
  }

  ghost function Known(c: Config, r: RingId, n: NodeId, heard: Log): set<ServiceId> {
    set x | x in Union(c, r) && Knows(c, r, n, heard, x)
  }

  /** The node has activated every service of the ring. */
  predicate Completed(nd: Node) {
    || (nd.state == BARRIER && nd.idx == |nd.services|)
    || (nd.state == SERVICELIST_BUILD && AllReceived(nd.processors))
  }

  /** How many rounds (service list, then one per service) the node has finished. */
  function Round(nd: Node): nat {
    if nd.state == SERVICELIST_BUILD then (if AllReceived(nd.processors) then 1 else 0)
    else nd.idx + 1
  }

  function Bit(b: bool): nat {
    if b then 1 else 0
  }

  // ---- the invariant ----

  /** In every prefix of the log the members are at most one message apart. */
  ghost predicate PhaseOrdered(c: Config, r: RingId, log: Log) {
    forall i, s, t :: 0 <= i <= |log| && s in c.members(r) && t in c.members(r) ==>
      Count(log[..i], s, r) <= Count(log[..i], t, r) + 1
  }

  ghost predicate RingInv(c: Config, r: RingId, log: Log) {
    && PhaseOrdered(c, r, log)
    && (forall s :: s in c.members(r) ==> Count(log, s, r) <= |Agenda(c, r)| + 1)
    && (forall i :: 0 <= i < |log| && Tagged(log[i].1, r) ==>
          && log[i].0 in c.members(r)
          && log[i].1 == Expected(c, r, log[i].0, Count(log[..i], log[i].0, r)))
  }

  /** The processor list mirrors what has been delivered. */
  ghost predicate ProcessorsInv(c: Config, r: RingId, nd: Node, heard: Log) {
    && nd.members == c.members(r)
    && |nd.processors| == |c.members(r)|
    && (forall i :: 0 <= i < |nd.processors| ==>
          && nd.processors[i].nodeid == c.members(r)[i]
          && Count(heard, c.members(r)[i], r)
             == Round(nd) + Bit(!Completed(nd) && nd.processors[i].received))
    && (!Completed(nd) ==> !AllReceived(nd.processors))
  }

  ghost predicate ServicesInv(c: Config, r: RingId, n: NodeId, nd: Node, heard: Log) {
    && Merged(nd.services, Known(c, r, n, heard), ToSet(c.loaded(r, n)), nd.idx)
    && (nd.state == SERVICELIST_BUILD ==> nd.idx == 0)
    && (nd.state == SERVICELIST_BUILD && AllReceived(nd.processors) ==> nd.services == [])
    && (nd.state != SERVICELIST_BUILD ==> nd.idx <= |nd.services| && nd.services != [])
    && (nd.state == PROCESS ==> nd.idx < |nd.services|)
    && (nd.scheduled <==> nd.state == PROCESS)
  }

  /** What the node has sent in this ring is in the log or still unsent. */
  ghost predicate SentInv(c: Config, r: RingId, n: NodeId, nd: Node, log: Log) {
    && Count(log, n, r) + Pending(nd.out, r) == Round(nd) + Bit(!Completed(nd) && nd.state != PROCESS)
    && (forall i :: 0 <= i < |nd.out| && Tagged(nd.out[i], r) ==>
          nd.out[i] == Expected(c, r, n, Count(log, n, r)))
  }

  ghost predicate FlagsInv(nd: Node, transit: bool) {
    && !nd.broken
    && if transit then Completed(nd) && nd.inProcess else (nd.inProcess <==> !Completed(nd))
  }

  /** A node that takes part in ring `r`. */
  ghost predicate ActiveInv(c: Config, r: RingId, n: NodeId, nd: Node, log: Log, pos: nat, transit: bool) {
    && nd.ring == r && n in c.members(r) && pos <= |log|
    && ProcessorsInv(c, r, nd, log[..pos])
    && ServicesInv(c, r, n, nd, log[..pos])
    && SentInv(c, r, n, nd, log)
    && FlagsInv(nd, transit)
  }

  /** A node that takes part in no ring: before the first, or aborted. */
  ghost predicate IdleInv(nd: Node) {
    && nd.ring == NO_RING
    && !nd.scheduled && nd.inProcess && !nd.broken
  }

  ghost predicate LocalInv(c: Config, n: NodeId, l: Local, log: Log) {
    && NO_RING !in l.joined
    && (l.cur != NO_RING ==> l.cur in l.joined)
    && (forall r :: r in l.joined ==> n in c.members(r))
    && (forall i :: 0 <= i < |l.node.out| && !l.node.out[i].App? ==> l.node.out[i].ring in l.joined)
    && (forall i :: 0 <= i < |l.held| && !l.held[i].App? ==> l.held[i].ring in l.joined && l.held[i].ring != l.cur)
    && (if l.node.ring == NO_RING then IdleInv(l.node) && (l.cur != NO_RING ==> l.transit)
        else l.cur != NO_RING && ActiveInv(c, l.cur, n, l.node, log, l.pos, l.transit))
  }

  /** Only nodes that were in a ring have sent synchronization messages in it. */
  ghost predicate SendersJoined(s: System, r: RingId) {
    forall i :: 0 <= i < |LogIn(s, r)| && Tagged(LogIn(s, r)[i].1, r) ==>
      r in At(s, LogIn(s, r)[i].0).joined
  }

  /** No message is tagged with the zero ring id. */
  ghost predicate TagsOk(log: Log) {
    forall i :: 0 <= i < |log| && !log[i].1.App? ==> log[i].1.ring != NO_RING
  }

  ghost predicate Inv(c: Config, s: System) {
    && (forall r :: r != NO_RING ==> RingInv(c, r, LogIn(s, r)) && SendersJoined(s, r))
    && (forall r :: TagsOk(LogIn(s, r)))
    && (forall n :: LocalInv(c, n, At(s, n), LogIn(s, At(s, n).cur)))
    && LogIn(s, NO_RING) == []
  }
}
