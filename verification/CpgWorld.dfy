/** Closed process groups on top of the synchronization protocol: every node runs
    both, and the callbacks and messages of the protocol drive the process lists. */
module CpgWorld {
  import opened Wrappers
  import opened Sync
  import opened SyncProtocol
  import opened Cpg
  import opened CpgLists
  import opened CpgChain

  const CPG_SERVICE: ServiceId := 2

  /** What a node had and what it ended with when it activated the service in a ring. */
  datatype Result = Result(local: seq<Process>, list: seq<Process>)

  /** The protocol, the process groups of every node, and a record of each round:
      which own processes a node announced, what it ended with, which rings began
      with joinlists of an older ring around, and which nodes saw a join or leave of
      an own process between announcing and activating. */
  datatype World = World(
    sys: System,
    cpgs: map<NodeId, CpgState>,
    announced: map<(RingId, NodeId), seq<Process>>,
    results: map<(RingId, NodeId), Result>,
    stale: set<RingId>,
    moved: set<(RingId, NodeId)>)

  const FIRST := World(INIT, map[], map[], map[], {}, {})

  function CpgAt(w: World, n: NodeId): CpgState {
    if n in w.cpgs then w.cpgs[n] else InitialState(n)
  }

  /** How the service reacts to a callback; `nd` is the node at that time. */
  function React(s: CpgState, call: Callback, nd: Node): CpgState {
    match call
    case Init(id) => if id == CPG_SERVICE then SyncInit(s, nd.trans, nd.members) else s
    case Aborted(id) => if id == CPG_SERVICE then SyncAbort(s) else s
    case Activated(id) => if id == CPG_SERVICE then SyncActivate(s) else s
    case Processed(_) => s
    case RoundStart(_) => s
  }

  function ReactAll(s: CpgState, calls: seq<Callback>, nd: Node): CpgState {
    if calls == [] then s
    else React(ReactAll(s, calls[..|calls| - 1], nd), calls[|calls| - 1], nd)
  }

  /** The calls a step has made. */
  function NewCalls(a: Node, b: Node): seq<Callback> {
    if |a.calls| <= |b.calls| then b.calls[|a.calls|..] else []
  }

  /** The node is about to run `sync_process` of the process group service. */
  predicate AtCpg(nd: Node) {
    nd.idx < |nd.services| && nd.services[nd.idx].id == CPG_SERVICE && nd.services[nd.idx].loaded
  }

  datatype WorldStep = WorldStep(step: Step, downOk: bool, joinOk: bool)

  ghost predicate WorldEnabled(c: Config, w: World, ws: WorldStep) {
    && Enabled(c, w.sys, ws.step)
    && var l := At(w.sys, ws.step.n);
       match ws.step
       case RegularConf(n, r, kept) => l.cur == NO_RING || l.transit
       case TransitionalConf(n, members) => n in members
       case DoWork(n, sent, done) =>
         if AtCpg(l.node) then
           var (_, s, d) := SyncProcess(CpgAt(w, n), ws.downOk, ws.joinOk);
           sent == s && done == d
         else sent == []
       case Send(n, body) => MaySend(l.node, body)
       case _ => true
  }

  /** Clients cannot join or leave while the node synchronizes; but when a client
      exits, its leave message is sent at any time. */
  predicate MaySend(nd: Node, body: CpgMessage) {
    || (body.ProcJoin? && !nd.inProcess)
    || (body.ProcLeave? && (!nd.inProcess || body.reason == REASON_PROCDOWN))
  }

  /** This node's own processes. */
  function OwnProcesses(s: CpgState): seq<Process> {
    OfNodes(s.list, [s.me])
  }

  predicate IsJoinlist(m: Message) {
    m.App? && m.body.Joinlist?
  }

  predicate HasJoinlist(out: seq<Message>) {
    exists i :: 0 <= i < |out| && IsJoinlist(out[i])
  }

  /** The process groups of the stepping node after the step. */
  ghost function CpgAfter(c: Config, w: World, ws: WorldStep): CpgState
    requires Enabled(c, w.sys, ws.step)
  {
    var n := ws.step.n;
    var s := CpgAt(w, n);
    var l := At(w.sys, n);
    var nd := At(Apply(c, w.sys, ws.step), n).node;
    match ws.step
    case Deliver(_) =>
      var (from, m) := LogIn(w.sys, l.cur)[l.pos];
      if m.App? then HandleMessage(s, from, m.body) else ReactAll(s, NewCalls(l.node, nd), nd)
    case DoWork(_, sent, done) =>
      if AtCpg(l.node) then SyncProcess(s, ws.downOk, ws.joinOk).0 else s
    case RegularConf(_, _, _) => ReactAll(s, NewCalls(l.node, nd), nd)
    case TransitionalConf(_, _) => ReactAll(s, NewCalls(l.node, nd), nd)
    case Restart(_) => InitialState(n)
    case _ => s
  }

  ghost function WorldApply(c: Config, w: World, ws: WorldStep): World
    requires WorldEnabled(c, w, ws)
  {
    var n := ws.step.n;
    var l := At(w.sys, n);
    var sys := Apply(c, w.sys, ws.step);
    var s, s' := CpgAt(w, n), CpgAfter(c, w, ws);
    var w1 := w.(sys := sys, cpgs := w.cpgs[n := s']);
    match ws.step
    case RegularConf(_, r, kept) =>
      if s'.stored != [] || HasJoinlist(kept) || HasJoinlist(l.held)
      then w1.(stale := w.stale + {r}) else w1
    case DoWork(_, sent, done) =>
      if AtCpg(l.node) && done
      then w1.(announced := w.announced[(l.node.ring, n) := OwnProcesses(s)]) else w1
    case Deliver(_) =>
      var (from, m) := LogIn(w.sys, l.cur)[l.pos];
      var key := (l.node.ring, n);
      var w2 := if m.App? && from == n && (m.body.ProcJoin? || m.body.ProcLeave?)
                   && key in w.announced && key !in w.results
                then w1.(moved := w.moved + {key}) else w1;
      if AtCpg(l.node) && At(sys, n).node.idx == l.node.idx + 1
      then w2.(results := w.results[key := Result(OwnProcesses(s), s'.list)]) else w2
    case _ => w1
  }

  ghost function WorldExec(c: Config, steps: seq<WorldStep>): Option<World> {
    if steps == [] then Some(FIRST)
    else
      match WorldExec(c, steps[..|steps| - 1])
      case None => None
      case Some(w) =>
        var ws := steps[|steps| - 1];
        if WorldEnabled(c, w, ws) then Some(WorldApply(c, w, ws)) else None
  }

  // ---- what activation does to one node ----

  lemma {:induction false} RemoveZombiesList(s: CpgState, list0: seq<Process>)
    requires ListOk(s.list)
    ensures var r := RemoveZombies(s, list0);
            && ListOk(r.list)
            && r.me == s.me && r.stored == s.stored && r.oldMembers == s.oldMembers && r.downlist == s.downlist
            && r.members == s.members && r.behind == s.behind && r.storedBehind == s.storedBehind
            && forall p :: p in r.list <==> p in s.list && !(p in list0 && Zombie(s, p))
  {
    if list0 != [] {
      var k := |list0| - 1;
      RemoveZombiesList(s, list0[..k]);
      assert list0 == list0[..k] + [list0[k]];
      var s1 := RemoveZombies(s, list0[..k]);
      if Zombie(s, list0[k]) {
        RemoveOk(s1.list, list0[k]);
      }
    }
  }

  /** Activation leaves exactly the own processes and the remote processes that the
      joinlists of this round mention. */
  lemma ActivateList(s: CpgState)
    requires ListOk(s.list) && s.me !in s.downlist
    ensures ListOk(SyncActivate(s).list)
    ensures forall p :: p in SyncActivate(s).list <==>
              (p.nodeid == s.me && p in s.list) || (p.nodeid != s.me && p in s.stored)
    ensures SyncActivate(s).me == s.me && SyncActivate(s).downlist == s.downlist
    ensures SyncActivate(s).oldMembers == s.members && SyncActivate(s).stored == []
  {
    var s1 := DownlistInform(s.(oldMembers := s.members));
    NotOfNodesOk(s.list, s.downlist);
    NewJoinsElements(s1.list, s1.stored, s1.me);
    var s2 := JoinStored(s1);
    RemoveZombiesList(s2, s2.list);
    assert SyncActivate(s) == RemoveZombies(s2, s2.list).(stored := [], storedBehind := map[]);
  }

  /** A joinlist has an entry for a process. */
  ghost predicate Mentions(entries: seq<JoinEntry>, p: Process) {
    exists i :: 0 <= i < |entries| && entries[i].pid == p.pid && entries[i].group == p.group
  }

  lemma MentionsSnoc(entries: seq<JoinEntry>, e: JoinEntry, p: Process)
    ensures Mentions(entries + [e], p) <==> Mentions(entries, p) || (e.pid == p.pid && e.group == p.group)
  {
    var all := entries + [e];
    if Mentions(entries, p) {
      var i :| 0 <= i < |entries| && entries[i].pid == p.pid && entries[i].group == p.group;
      assert all[i] == entries[i];
    }
    if e.pid == p.pid && e.group == p.group {
      assert all[|entries|] == e;
    }
    if Mentions(all, p) {
      var i :| 0 <= i < |all| && all[i].pid == p.pid && all[i].group == p.group;
      if i < |entries| {
        assert entries[i] == all[i];
      }
    }
  }

  lemma {:induction false} StoreElements(stored: seq<Process>, sender: NodeId, entries: seq<JoinEntry>, p: Process)
    ensures p in Store(stored, sender, entries) <==>
            p in stored || (p.nodeid == sender && Mentions(entries, p))
  {
    if entries != [] {
      var k := |entries| - 1;
      StoreElements(stored, sender, entries[..k], p);
      assert entries == entries[..k] + [entries[k]];
      MentionsSnoc(entries[..k], entries[k], p);
    }
  }

  lemma {:induction false} OwnEntriesElements(list: seq<Process>, b: Behind, me: NodeId, p: Process)
    requires p.nodeid == me
    ensures Mentions(OwnEntries(list, b, me), p) <==> p in list
  {
    if list != [] {
      var k := |list| - 1;
      OwnEntriesElements(list[..k], b, me, p);
      assert list == list[..k] + [list[k]];
      if list[k].nodeid == me {
        MentionsSnoc(OwnEntries(list[..k], b, me), JoinEntry(list[k].pid, list[k].group, BehindOf(b, list[k])), p);
      } else {
        assert OwnEntries(list, b, me) == OwnEntries(list[..k], b, me);
      }
    }
  }
}
