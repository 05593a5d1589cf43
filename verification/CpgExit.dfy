/** A run in which two members of a ring end with different processes: a client exits
    after its node has announced its processes and before the service is activated.
    The other node removes the process when the leave message arrives, and adds it
    again from the joinlist when it activates. */
module CpgExit {
  import opened Wrappers
  import opened Sync
  import opened SyncProtocol
  import opened Cpg
  import opened CpgWorld
  import opened CpgConvergence

  const OLD := RingId(1, 4)
  const NEW := RingId(1, 8)
  const CLIENT := Process(1, 7, [97])

  /** Two nodes that have the process group service and nothing else. */
  const CONFIG := Config(_ => [1, 2], (_, _) => [CPG_SERVICE])

  ghost predicate Reached(w: World) {
    exists steps :: WorldExec(CONFIG, steps) == Some(w)
  }

  lemma ReachedFirst()
    ensures Reached(FIRST)
  {
    assert WorldExec(CONFIG, []) == Some(FIRST);
  }

  lemma ReachedNext(w: World, ws: WorldStep)
    requires Reached(w) && WorldEnabled(CONFIG, w, ws)
    ensures Reached(WorldApply(CONFIG, w, ws))
  {
    hide WorldEnabled, WorldApply;
    var steps :| WorldExec(CONFIG, steps) == Some(w);
    assert (steps + [ws])[..|steps|] == steps;
    assert WorldExec(CONFIG, steps + [ws]) == Some(WorldApply(CONFIG, w, ws));
  }

  // ---- what the run looks like ----

  /** The two nodes, the logs of the two rings and the record of the rounds. */
  datatype View = View(l1: Local, l2: Local, s1: CpgState, s2: CpgState, oldLog: Log, newLog: Log,
                       announced: Announced, results: map<(RingId, NodeId), Result>)

  function LocalOf(v: View, n: NodeId): Local {
    if n == 1 then v.l1 else v.l2
  }

  function StateOf(v: View, n: NodeId): CpgState {
    if n == 1 then v.s1 else v.s2
  }

  function LogOf(v: View, r: RingId): Log {
    if r == OLD then v.oldLog else v.newLog
  }

  function Set(v: View, n: NodeId, l: Local, s: CpgState): View {
    if n == 1 then v.(l1 := l, s1 := s) else v.(l2 := l, s2 := s)
  }

  function AddLog(v: View, r: RingId, e: (NodeId, Message)): View {
    if r == OLD then v.(oldLog := v.oldLog + [e]) else v.(newLog := v.newLog + [e])
  }

  ghost predicate Shows(w: World, v: View) {
    && Reached(w)
    && (forall n :: n == 1 || n == 2 ==> At(w.sys, n) == LocalOf(v, n) && CpgAt(w, n) == StateOf(v, n))
    && LogIn(w.sys, OLD) == v.oldLog && LogIn(w.sys, NEW) == v.newLog
    && w.announced == v.announced && w.results == v.results && w.stale == {}
  }

  predicate OneOf(n: NodeId) {
    n == 1 || n == 2
  }

  predicate InRing(l: Local) {
    (l.cur == OLD || l.cur == NEW) && !l.transit
  }

  // ---- the steps ----

  lemma Untouched(w: World, ws: WorldStep)
    requires WorldEnabled(CONFIG, w, ws)
    ensures forall m :: m != ws.step.n ==>
              && At(WorldApply(CONFIG, w, ws).sys, m) == At(w.sys, m)
              && CpgAt(WorldApply(CONFIG, w, ws), m) == CpgAt(w, m)
  {
    hide WorldApply, WorldEnabled, At, CpgAt;
    forall m | m != ws.step.n
      ensures At(WorldApply(CONFIG, w, ws).sys, m) == At(w.sys, m)
      ensures CpgAt(WorldApply(CONFIG, w, ws), m) == CpgAt(w, m)
    {
      StepOther(CONFIG, w, ws, m);
    }
  }

  lemma Enter(w: World, v: View, n: NodeId, r: RingId, nd: Node, s: CpgState) returns (w': World)
    requires Shows(w, v) && OneOf(n) && (r == OLD || r == NEW)
    requires var l := LocalOf(v, n);
             && r !in l.joined && (l.cur == NO_RING || l.transit) && l.held == []
             && nd == Regular(l.node.(out := []), [1, 2], r, [CPG_SERVICE])
             && s == ReactAll(StateOf(v, n), NewCalls(l.node, nd), nd) && s.stored == []
    ensures Shows(w', Set(v, n, Local(nd, r, 0, false, LocalOf(v, n).joined + {r}, []), s))
  {
    hide WorldApply, WorldEnabled, At, CpgAt, LogIn, Reached, Regular, ReactAll, NewCalls;
    var ws := WorldStep(RegularConf(n, r, []), true, true);
    EnterEnabled(w, v, n, r);
    ReachedNext(w, ws);
    w' := WorldApply(CONFIG, w, ws);
    RegularApplied(w, n, r, nd);
    SameLogs(CONFIG, w, ws);
    Untouched(w, ws);
  }

  lemma EnterEnabled(w: World, v: View, n: NodeId, r: RingId)
    requires Shows(w, v) && OneOf(n) && (r == OLD || r == NEW)
    requires var l := LocalOf(v, n); r !in l.joined && (l.cur == NO_RING || l.transit)
    ensures WorldEnabled(CONFIG, w, WorldStep(RegularConf(n, r, []), true, true))
  {
    hide Reached;
  }

  lemma RegularApplied(w: World, n: NodeId, r: RingId, nd: Node)
    requires WorldEnabled(CONFIG, w, WorldStep(RegularConf(n, r, []), true, true))
    requires nd == Regular(At(w.sys, n).node.(out := []), [1, 2], r, [CPG_SERVICE])
    ensures var l := At(w.sys, n);
            var s := ReactAll(CpgAt(w, n), NewCalls(l.node, nd), nd);
            var w' := WorldApply(CONFIG, w, WorldStep(RegularConf(n, r, []), true, true));
            && At(w'.sys, n) == Local(nd, r, 0, false, l.joined + {r}, l.held) && CpgAt(w', n) == s
            && w'.announced == w.announced && w'.results == w.results
            && (s.stored == [] && l.held == [] ==> w'.stale == w.stale)
  {
    hide Regular, ReactAll, NewCalls, LogIn, AtCpg, OwnProcesses;
  }

  lemma Part(w: World, v: View, n: NodeId) returns (w': World)
    requires Shows(w, v) && OneOf(n)
    requires !LocalOf(v, n).node.inProcess
    ensures var l := LocalOf(v, n);
            Shows(w', Set(v, n, l.(node := l.node.(inProcess := true, trans := [1, 2]), transit := true),
                          StateOf(v, n)))
  {
    hide WorldApply, WorldEnabled, At, CpgAt, LogIn, Reached;
    var ws := WorldStep(TransitionalConf(n, [1, 2]), true, true);
    PartApplied(w, n);
    ReachedNext(w, ws);
    w' := WorldApply(CONFIG, w, ws);
    SameLogs(CONFIG, w, ws);
    Untouched(w, ws);
  }

  lemma PartApplied(w: World, n: NodeId)
    requires OneOf(n) && !At(w.sys, n).node.inProcess
    ensures var ws := WorldStep(TransitionalConf(n, [1, 2]), true, true);
            && WorldEnabled(CONFIG, w, ws)
            && var l, w' := At(w.sys, n), WorldApply(CONFIG, w, ws);
               && At(w'.sys, n) == l.(node := l.node.(inProcess := true, trans := [1, 2]), transit := true)
               && CpgAt(w', n) == CpgAt(w, n)
               && w'.announced == w.announced && w'.results == w.results && w'.stale == w.stale
  {
    hide LogIn, AtCpg, OwnProcesses;
  }

  lemma Put(w: World, v: View, n: NodeId) returns (w': World)
    requires Shows(w, v) && OneOf(n) && InRing(LocalOf(v, n)) && LocalOf(v, n).node.out != []
    ensures var l := LocalOf(v, n);
            Shows(w', AddLog(Set(v, n, l.(node := l.node.(out := l.node.out[1..])), StateOf(v, n)), l.cur,
                             (n, l.node.out[0])))
  {
    var ws := WorldStep(Originate(n), true, true);
    assert WorldEnabled(CONFIG, w, ws);
    hide WorldApply, WorldEnabled, At, CpgAt, LogIn, Reached;
    ReachedNext(w, ws);
    w' := WorldApply(CONFIG, w, ws);
    OriginateApplied(CONFIG, w, ws);
    Untouched(w, ws);
  }

  lemma Post(w: World, v: View, n: NodeId, body: CpgMessage) returns (w': World)
    requires Shows(w, v) && OneOf(n) && MaySend(LocalOf(v, n).node, body)
    ensures var l := LocalOf(v, n);
            Shows(w', Set(v, n, l.(node := l.node.(out := l.node.out + [App(body)])), StateOf(v, n)))
  {
    var ws := WorldStep(Send(n, body), true, true);
    assert WorldEnabled(CONFIG, w, ws);
    ReachedNext(w, ws);
    w' := WorldApply(CONFIG, w, ws);
    hide Reached;
    SameLogs(CONFIG, w, ws);
    Untouched(w, ws);
  }

  /** The scheduled call of the service. */
  lemma Announce(w: World, v: View, n: NodeId, nd: Node, s: CpgState, sent: seq<CpgMessage>) returns (w': World)
    requires Shows(w, v) && OneOf(n) && AtCpg(LocalOf(v, n).node) && LocalOf(v, n).node.scheduled
    requires SyncProcess(StateOf(v, n), true, true) == (s, sent, true)
    requires nd == Work(LocalOf(v, n).node, Bodies(sent), true)
    ensures var l := LocalOf(v, n);
            Shows(w', Set(v, n, l.(node := nd), s)
                        .(announced := v.announced[(l.node.ring, n) := OwnProcesses(StateOf(v, n))]))
  {
    hide WorldApply, At, CpgAt, LogIn, Reached, SyncProcess, Work, OwnProcesses;
    var ws := WorldStep(DoWork(n, sent, true), true, true);
    assert WorldEnabled(CONFIG, w, ws);
    hide WorldEnabled;
    ReachedNext(w, ws);
    w' := WorldApply(CONFIG, w, ws);
    WorkApplied(CONFIG, w, ws);
    SameLogs(CONFIG, w, ws);
    Untouched(w, ws);
  }

  /** A delivered message. */
  lemma Get(w: World, v: View, n: NodeId, nd: Node, s: CpgState) returns (w': World)
    requires Shows(w, v) && OneOf(n) && InRing(LocalOf(v, n))
    requires var l := LocalOf(v, n); l.pos < |LogOf(v, l.cur)|
    requires var l := LocalOf(v, n);
             var (from, m) := LogOf(v, l.cur)[l.pos];
             && nd == DeliverMessage(l.node, from, m)
             && s == if m.App? then HandleMessage(StateOf(v, n), from, m.body)
                     else ReactAll(StateOf(v, n), NewCalls(l.node, nd), nd)
    ensures var l := LocalOf(v, n);
            var v' := Set(v, n, l.(node := nd, pos := l.pos + 1), s);
            Shows(w', if AtCpg(l.node) && nd.idx == l.node.idx + 1
                      then v'.(results := v.results[(l.node.ring, n) := Result(OwnProcesses(StateOf(v, n)), s.list)])
                      else v')
  {
    hide WorldApply, WorldEnabled, At, CpgAt, LogIn, Reached, DeliverMessage, HandleMessage, ReactAll, NewCalls, AtCpg,
         OwnProcesses;
    var ws := WorldStep(Deliver(n), true, true);
    GetEnabled(w, v, n);
    ReachedNext(w, ws);
    w' := WorldApply(CONFIG, w, ws);
    DeliverApplied(CONFIG, w, ws);
    SameLogs(CONFIG, w, ws);
    Untouched(w, ws);
  }

  lemma GetEnabled(w: World, v: View, n: NodeId)
    requires Shows(w, v) && OneOf(n) && InRing(LocalOf(v, n))
    requires var l := LocalOf(v, n); l.pos < |LogOf(v, l.cur)|
    ensures WorldEnabled(CONFIG, w, WorldStep(Deliver(n), true, true))
  {
    hide Reached;
  }
}
