/** The run itself: a first ring in which the client joins, and a second one in whose
    round it exits. */
module CpgExitRun {
  import opened Wrappers
  import opened Sync
  import opened SyncProtocol
  import opened Cpg
  import opened CpgWorld
  import opened CpgConvergence
  import opened CpgAgreement
  import opened CpgExit

  // ---- the node in a round ----

  function NodeAt(r: RingId, trans: seq<NodeId>, state: State, got1: bool, got2: bool, out: seq<Message>,
                  calls: seq<Callback>): Node {
    Node(state, r, 0, [Processor(1, got1), Processor(2, got2)], [1, 2], trans, [Service(CPG_SERVICE, false, true)],
         state == PROCESS, true, out, calls, false)
  }

  function FinishedNode(r: RingId, trans: seq<NodeId>, out: seq<Message>, calls: seq<Callback>): Node {
    Node(BARRIER, r, 1, [Processor(1, true), Processor(2, true)], [1, 2], trans, [Service(CPG_SERVICE, true, true)],
         false, false, out, calls + [Activated(CPG_SERVICE)], false)
  }

  function Build(r: RingId): Message {
    ServiceBuild(r, [CPG_SERVICE])
  }

  function Barrier(r: RingId): Message {
    BarrierReached(r, 0)
  }

  function Opening(r: RingId): seq<Callback> {
    [RoundStart(r), Init(CPG_SERVICE)]
  }

  lemma BuildSteps(r: RingId, trans: seq<NodeId>, calls: seq<Callback>)
    ensures var a, b := NodeAt(r, trans, SERVICELIST_BUILD, false, false, [], calls),
                        NodeAt(r, trans, SERVICELIST_BUILD, true, false, [], calls);
            && DeliverMessage(a, 1, Build(r)) == b
            && DeliverMessage(b, 2, Build(r)) == NodeAt(r, trans, PROCESS, false, false, [], calls)
  {
    var services := [Service(CPG_SERVICE, false, true)];
    assert services[0].id == CPG_SERVICE;
    assert AddUnknown(services, [CPG_SERVICE]) == services by {
      assert [CPG_SERVICE][..0] == [];
    }
    var p0, p1 := [Processor(1, false), Processor(2, false)], [Processor(1, true), Processor(2, false)];
    assert MarkReceived(p0, 1) == p1 && !p1[1].received;
    var p2 := MarkReceived(p1, 2);
    assert p2 == [Processor(1, true), Processor(2, true)] && ClearReceived(p2) == p0;
  }

  lemma BarrierSteps(r: RingId, trans: seq<NodeId>, out: seq<Message>, calls: seq<Callback>)
    ensures var a, b := NodeAt(r, trans, BARRIER, false, false, out, calls),
                        NodeAt(r, trans, BARRIER, true, false, out, calls);
            && DeliverMessage(a, 1, Barrier(r)) == b
            && DeliverMessage(b, 2, Barrier(r)) == FinishedNode(r, trans, out, calls)
  {
    var p0, p1 := [Processor(1, false), Processor(2, false)], [Processor(1, true), Processor(2, false)];
    assert MarkReceived(p0, 1) == p1 && !p1[1].received;
    assert MarkReceived(p1, 2) == [Processor(1, true), Processor(2, true)];
  }

  lemma NoCalls(s: CpgState, a: Node, b: Node)
    requires a.calls == b.calls
    ensures ReactAll(s, NewCalls(a, b), b) == s
  {
  }

  lemma AppIgnored(nd: Node, from: NodeId, body: CpgMessage)
    ensures DeliverMessage(nd, from, App(body)) == nd
  {
  }

  /** A node delivers a message of the service. */
  lemma GetApp(w: World, v: View, n: NodeId, from: NodeId, body: CpgMessage) returns (w': World)
    requires Shows(w, v) && OneOf(n) && InRing(LocalOf(v, n))
    requires var l := LocalOf(v, n); l.pos < |LogOf(v, l.cur)| && LogOf(v, l.cur)[l.pos] == (from, App(body))
    ensures var l := LocalOf(v, n);
            Shows(w', Set(v, n, l.(pos := l.pos + 1), HandleMessage(StateOf(v, n), from, body)))
  {
    hide Shows, DeliverMessage, ReactAll, NewCalls, HandleMessage, OwnProcesses;
    AppIgnored(LocalOf(v, n).node, from, body);
    w' := Get(w, v, n, LocalOf(v, n).node, HandleMessage(StateOf(v, n), from, body));
  }

  /** A node delivers the barrier messages of the others, the last of which finishes
      the round. */
  lemma GetFirstBarrier(w: World, v: View, n: NodeId, r: RingId, trans: seq<NodeId>, calls: seq<Callback>, pos: nat,
                    joined: set<RingId>)
    returns (w': World)
    requires Shows(w, v) && OneOf(n) && (r == OLD || r == NEW)
    requires LocalOf(v, n) == Local(NodeAt(r, trans, BARRIER, false, false, [], calls), r, pos, false, joined, [])
    requires pos < |LogOf(v, r)| && LogOf(v, r)[pos] == (1, Barrier(r))
    ensures Shows(w', Set(v, n, Local(NodeAt(r, trans, BARRIER, true, false, [], calls), r, pos + 1, false, joined, []),
                          StateOf(v, n)))
  {
    hide Shows, DeliverMessage, ReactAll, NewCalls, OwnProcesses;
    var b := NodeAt(r, trans, BARRIER, true, false, [], calls);
    BarrierSteps(r, trans, [], calls);
    NoCalls(StateOf(v, n), LocalOf(v, n).node, b);
    w' := Get(w, v, n, b, StateOf(v, n));
  }

  lemma GetLastBarrier(w: World, v: View, n: NodeId, r: RingId, trans: seq<NodeId>, calls: seq<Callback>, pos: nat,
                    joined: set<RingId>)
    returns (w': World)
    requires Shows(w, v) && OneOf(n) && (r == OLD || r == NEW)
    requires LocalOf(v, n) == Local(NodeAt(r, trans, BARRIER, true, false, [], calls), r, pos, false, joined, [])
    requires pos < |LogOf(v, r)| && LogOf(v, r)[pos] == (2, Barrier(r))
    ensures var s := StateOf(v, n);
            Shows(w', Set(v, n, Local(FinishedNode(r, trans, [], calls), r, pos + 1, false, joined, []),
                          SyncActivate(s))
                        .(results := v.results[(r, n) := Result(OwnProcesses(s), SyncActivate(s).list)]))
  {
    hide Shows, DeliverMessage, ReactAll, NewCalls, OwnProcesses, SyncActivate;
    BarrierSteps(r, trans, [], calls);
    ActivatedReaction(StateOf(v, n), r, trans, calls);
    w' := Get(w, v, n, FinishedNode(r, trans, [], calls), SyncActivate(StateOf(v, n)));
  }

  /** A node delivers both service lists. */
  lemma GetBuild(w: World, v: View, n: NodeId, r: RingId, trans: seq<NodeId>, calls: seq<Callback>, joined: set<RingId>)
    returns (w': World)
    requires Shows(w, v) && OneOf(n) && (r == OLD || r == NEW) && LogOf(v, r) == [(1, Build(r)), (2, Build(r))]
    requires LocalOf(v, n) == Local(NodeAt(r, trans, SERVICELIST_BUILD, false, false, [], calls), r, 0, false,
                                    joined, [])
    ensures Shows(w', Set(v, n, Local(NodeAt(r, trans, PROCESS, false, false, [], calls), r, 2, false, joined, []),
                          StateOf(v, n)))
  {
    hide Shows, DeliverMessage, ReactAll, NewCalls;
    BuildSteps(r, trans, calls);
    var a, b, c := LocalOf(v, n).node, NodeAt(r, trans, SERVICELIST_BUILD, true, false, [], calls),
                   NodeAt(r, trans, PROCESS, false, false, [], calls);
    var s := StateOf(v, n);
    NoCalls(s, a, b);
    NoCalls(s, b, c);
    w' := Get(w, v, n, b, s);
    w' := Get(w', Set(v, n, Local(b, r, 1, false, joined, []), s), n, c, s);
  }

  // ---- the first ring ----

  function Prepared(n: NodeId): CpgState {
    InitialState(n).(members := [1, 2])
  }

  function Told(n: NodeId): CpgState {
    Prepared(n).(syncState := JOINLIST)
  }

  function Idle(n: NodeId): CpgState {
    Told(n).(oldMembers := [1, 2])
  }

  const FIRST_CALLS := Opening(OLD) + [Processed(CPG_SERVICE)]

  lemma FirstStates(n: NodeId)
    ensures var nd := Regular(INITIAL.(out := []), [1, 2], OLD, [CPG_SERVICE]);
            && nd == NodeAt(OLD, [], SERVICELIST_BUILD, false, false, [Build(OLD)], Opening(OLD))
            && ReactAll(InitialState(n), NewCalls(INITIAL, nd), nd) == Prepared(n)
    ensures SyncProcess(Prepared(n), true, true) == (Told(n), [Downlist([])], true)
    ensures OwnProcesses(Prepared(n)) == [] && OwnProcesses(Told(n)) == []
    ensures SyncActivate(Told(n)) == Idle(n)
  {
    var nd := Regular(INITIAL.(out := []), [1, 2], OLD, [CPG_SERVICE]);
    assert nd.calls == Opening(OLD);
    assert nd == NodeAt(OLD, [], SERVICELIST_BUILD, false, false, [Build(OLD)], Opening(OLD));
    assert NewCalls(INITIAL, nd) == Opening(OLD);
    OpeningReaction(InitialState(n), OLD, nd);
    var s := Told(n).(oldMembers := [1, 2]);
    assert DownlistInform(s) == s;
    assert NewJoins([], [], n) == ([], []);
    assert s.notices + JoinNotices([], BatchOf([], map[])) == s.notices;
  }

  lemma FirstActivate(n: NodeId)
    ensures SyncActivate(Told(n)) == Idle(n)
  {
    FirstStates(n);
  }

  lemma OpeningReaction(s: CpgState, r: RingId, nd: Node)
    ensures ReactAll(s, Opening(r), nd) == SyncInit(s, nd.trans, nd.members)
  {
    assert ReactAll(s, [RoundStart(r)], nd) == s by {
      assert [RoundStart(r)][..0] == [];
    }
    assert Opening(r)[..1] == [RoundStart(r)];
  }

  /** The reaction of the service to being activated. */
  lemma ActivatedReaction(s: CpgState, r: RingId, trans: seq<NodeId>, calls: seq<Callback>)
    ensures var a, b := NodeAt(r, trans, BARRIER, true, false, [], calls), FinishedNode(r, trans, [], calls);
            ReactAll(s, NewCalls(a, b), b) == SyncActivate(s)
  {
    hide SyncActivate;
    var a, b := NodeAt(r, trans, BARRIER, true, false, [], calls), FinishedNode(r, trans, [], calls);
    assert NewCalls(a, b) == [Activated(CPG_SERVICE)];
    assert [Activated(CPG_SERVICE)][..0] == [];
  }

  lemma WorkNode(r: RingId, trans: seq<NodeId>, calls: seq<Callback>, sent: seq<CpgMessage>)
    ensures Work(NodeAt(r, trans, PROCESS, false, false, [], calls), Bodies(sent), true) ==
            NodeAt(r, trans, BARRIER, false, false, Bodies(sent) + [Barrier(r)], calls + [Processed(CPG_SERVICE)])
  {
    assert [] + Bodies(sent) == Bodies(sent);
  }

  function InOld(nd: Node, pos: nat): Local {
    Local(nd, OLD, pos, false, {OLD}, [])
  }

  /** Both nodes enter the first ring and send their service lists. */
  lemma FirstBuild() returns (w: World)
    ensures var nd := NodeAt(OLD, [], SERVICELIST_BUILD, false, false, [], Opening(OLD));
            Shows(w, View(InOld(nd, 0), InOld(nd, 0), Prepared(1), Prepared(2), [(1, Build(OLD)), (2, Build(OLD))], [],
                          map[], map[]))
  {
    hide Shows, Regular, ReactAll, NewCalls;
    var v := View(FRESH, FRESH, InitialState(1), InitialState(2), [], [], map[], map[]);
    var nd := NodeAt(OLD, [], SERVICELIST_BUILD, false, false, [Build(OLD)], Opening(OLD));
    var l, l' := InOld(nd, 0), InOld(nd.(out := []), 0);
    FirstShows();
    FirstStates(1);
    FirstStates(2);
    assert {} + {OLD} == {OLD};
    w := Enter(FIRST, v, 1, OLD, nd, Prepared(1));
    v := v.(l1 := l, s1 := Prepared(1));
    w := Enter(w, v, 2, OLD, nd, Prepared(2));
    v := v.(l2 := l, s2 := Prepared(2));
    assert [Build(OLD)][1..] == [];
    w := Put(w, v, 1);
    v := v.(l1 := l', oldLog := v.oldLog + [(1, Build(OLD))]);
    w := Put(w, v, 2);
    assert v.oldLog + [(2, Build(OLD))] == [(1, Build(OLD)), (2, Build(OLD))];
  }

  lemma FirstShows()
    ensures Shows(FIRST, View(FRESH, FRESH, InitialState(1), InitialState(2), [], [], map[], map[]))
  {
    ReachedFirst();
  }

  const FIRST_LOG: Log :=
    [(1, Build(OLD)), (2, Build(OLD)), (1, App(Downlist([]))), (1, Barrier(OLD)), (2, App(Downlist([]))),
     (2, Barrier(OLD))]

  const SILENT: Announced := map[(OLD, 1) := [], (OLD, 2) := []]

  /** Both announce that they have no processes. */
  lemma FirstAnnounce() returns (w: World)
    ensures var nd := NodeAt(OLD, [], BARRIER, false, false, [], FIRST_CALLS);
            Shows(w, View(InOld(nd, 2), InOld(nd, 2), Told(1), Told(2), FIRST_LOG, [], SILENT, map[]))
  {
    hide Shows, Work, SyncProcess, OwnProcesses;
    w := FirstBuild();
    var nd := NodeAt(OLD, [], SERVICELIST_BUILD, false, false, [], Opening(OLD));
    var p := InOld(NodeAt(OLD, [], PROCESS, false, false, [], Opening(OLD)), 2);
    var v := View(InOld(nd, 0), InOld(nd, 0), Prepared(1), Prepared(2), [(1, Build(OLD)), (2, Build(OLD))], [],
                  map[], map[]);
    w := GetBuild(w, v, 1, OLD, [], Opening(OLD), {OLD});
    v := v.(l1 := p);
    w := GetBuild(w, v, 2, OLD, [], Opening(OLD), {OLD});
    v := v.(l2 := p);
    FirstStates(1);
    FirstStates(2);
    WorkNode(OLD, [], Opening(OLD), [Downlist([])]);
    var q := NodeAt(OLD, [], BARRIER, false, false, [App(Downlist([])), Barrier(OLD)], FIRST_CALLS);
    assert Bodies([Downlist([])]) + [Barrier(OLD)] == [App(Downlist([])), Barrier(OLD)];
    w := Announce(w, v, 1, q, Told(1), [Downlist([])]);
    v := v.(l1 := InOld(q, 2), s1 := Told(1), announced := map[(OLD, 1) := []]);
    w := Announce(w, v, 2, q, Told(2), [Downlist([])]);
    v := v.(l2 := InOld(q, 2), s2 := Told(2), announced := SILENT);
    w := FirstSend(w, v);
  }

  lemma FirstSend(w: World, v: View) returns (w': World)
    requires var q := NodeAt(OLD, [], BARRIER, false, false, [App(Downlist([])), Barrier(OLD)], FIRST_CALLS);
             v.l1 == InOld(q, 2) && v.l2 == InOld(q, 2) && v.oldLog == [(1, Build(OLD)), (2, Build(OLD))]
    requires Shows(w, v)
    ensures var nd := NodeAt(OLD, [], BARRIER, false, false, [], FIRST_CALLS);
            Shows(w', v.(l1 := InOld(nd, 2), l2 := InOld(nd, 2), oldLog := FIRST_LOG))
  {
    hide Shows;
    var d, b := App(Downlist([])), Barrier(OLD);
    var one := InOld(NodeAt(OLD, [], BARRIER, false, false, [b], FIRST_CALLS), 2);
    var none := InOld(NodeAt(OLD, [], BARRIER, false, false, [], FIRST_CALLS), 2);
    assert [d, b][1..] == [b] && [b][1..] == [];
    w' := Put(w, v, 1);
    var v1 := v.(l1 := one, oldLog := v.oldLog + [(1, d)]);
    w' := Put(w', v1, 1);
    v1 := v1.(l1 := none, oldLog := v1.oldLog + [(1, b)]);
    w' := Put(w', v1, 2);
    v1 := v1.(l2 := one, oldLog := v1.oldLog + [(2, d)]);
    w' := Put(w', v1, 2);
    assert v1.oldLog + [(2, b)] == FIRST_LOG;
  }

  function FirstDone(pos: nat): Local {
    InOld(FinishedNode(OLD, [], [], FIRST_CALLS), pos)
  }

  /** A node delivers the rest of the first round. */
  lemma FirstGet(w: World, v: View, n: NodeId) returns (w': World, res: map<(RingId, NodeId), Result>)
    requires Shows(w, v) && OneOf(n) && v.oldLog == FIRST_LOG && StateOf(v, n) == Told(n)
    requires LocalOf(v, n) == InOld(NodeAt(OLD, [], BARRIER, false, false, [], FIRST_CALLS), 2)
    ensures Shows(w', Set(v, n, FirstDone(6), Idle(n)).(results := res))
  {
    hide Shows, SyncActivate, OwnProcesses;
    var b := InOld(NodeAt(OLD, [], BARRIER, true, false, [], FIRST_CALLS), 4);
    FirstActivate(n);
    w' := FirstHalf(w, v, n);
    w' := GetApp(w', Set(v, n, b, Told(n)), n, 2, Downlist([]));
    w' := GetLastBarrier(w', Set(v, n, b.(pos := 5), Told(n)), n, OLD, [], FIRST_CALLS, 5, {OLD});
    res := v.results[(OLD, n) := Result(OwnProcesses(Told(n)), Idle(n).list)];
  }

  lemma FirstHalf(w: World, v: View, n: NodeId) returns (w': World)
    requires Shows(w, v) && OneOf(n) && v.oldLog == FIRST_LOG && StateOf(v, n) == Told(n)
    requires LocalOf(v, n) == InOld(NodeAt(OLD, [], BARRIER, false, false, [], FIRST_CALLS), 2)
    ensures Shows(w', Set(v, n, InOld(NodeAt(OLD, [], BARRIER, true, false, [], FIRST_CALLS), 4), Told(n)))
  {
    hide Shows;
    w' := GetApp(w, v, n, 1, Downlist([]));
    var a := InOld(NodeAt(OLD, [], BARRIER, false, false, [], FIRST_CALLS), 3);
    w' := GetFirstBarrier(w', Set(v, n, a, Told(n)), n, OLD, [], FIRST_CALLS, 3, {OLD});
  }

  function Joined(n: NodeId): CpgState {
    ProcJoined(Idle(n), CLIENT, [0])
  }

  const JOIN := App(ProcJoin(7, [97], [0]))
  const JOINED_LOG: Log := FIRST_LOG + [(1, JOIN)]

  /** The first ring is done and the client has joined on node 1. */
  lemma FirstRing() returns (w: World, res: map<(RingId, NodeId), Result>)
    ensures Shows(w, View(FirstDone(7), FirstDone(7), Joined(1), Joined(2), JOINED_LOG, [], SILENT, res))
  {
    hide Shows, ProcJoined;
    w := FirstAnnounce();
    var nd := NodeAt(OLD, [], BARRIER, false, false, [], FIRST_CALLS);
    var v := View(InOld(nd, 2), InOld(nd, 2), Told(1), Told(2), FIRST_LOG, [], SILENT, map[]);
    w, res := FirstGet(w, v, 1);
    v := v.(l1 := FirstDone(6), s1 := Idle(1), results := res);
    w, res := FirstGet(w, v, 2);
    v := v.(l2 := FirstDone(6), s2 := Idle(2), results := res);
    w := Post(w, v, 1, ProcJoin(7, [97], [0]));
    var sending := InOld(FinishedNode(OLD, [], [JOIN], FIRST_CALLS), 6);
    assert [] + [JOIN] == [JOIN] && [JOIN][1..] == [];
    w := Put(w, v.(l1 := sending), 1);
    v := v.(oldLog := JOINED_LOG);
    w := GetApp(w, v, 1, 1, ProcJoin(7, [97], [0]));
    v := v.(l1 := FirstDone(7), s1 := Joined(1));
    w := GetApp(w, v, 2, 1, ProcJoin(7, [97], [0]));
  }

  // ---- the second ring ----

  function Ready(n: NodeId): CpgState {
    SyncInit(Joined(n), [1, 2], [1, 2])
  }

  function Informed(n: NodeId): CpgState {
    Ready(n).(syncState := JOINLIST)
  }

  const OLD_CALLS := FIRST_CALLS + [Activated(CPG_SERVICE)]
  const NEW_CALLS := OLD_CALLS + Opening(NEW)
  const LAST_CALLS := NEW_CALLS + [Processed(CPG_SERVICE)]

  function OwnJoinlist(n: NodeId): seq<CpgMessage> {
    if n == 1 then [Downlist([]), Joinlist([JoinEntry(7, [97], [0])])] else [Downlist([])]
  }

  lemma SecondStates(n: NodeId)
    ensures Joined(n).list == [CLIENT] && Joined(n).stored == [] && Joined(n).me == n
    ensures Ready(n).list == [CLIENT] && Ready(n).behind == map[CLIENT := [0]] && Ready(n).stored == []
            && Ready(n).me == n && Ready(n).downlist == []
    ensures Ready(n).syncState == DOWNLIST
  {
    assert Insert([], CLIENT) == [CLIENT];
    assert NotIn([1, 2], [1, 2]) == [] by {
      assert [1, 2][..1] == [1] && [1][..0] == [];
    }
  }

  lemma SecondProcess(n: NodeId)
    requires OneOf(n)
    ensures SyncProcess(Ready(n), true, true) == (Informed(n), OwnJoinlist(n), true)
    ensures OwnProcesses(Ready(n)) == if n == 1 then [CLIENT] else []
  {
    hide Ready;
    SecondStates(n);
    assert [CLIENT][..0] == [];
    assert OwnEntries([CLIENT], map[CLIENT := [0]], n) == if n == 1 then [JoinEntry(7, [97], [0])] else [];
    assert OfNodes([CLIENT], [n]) == if n == 1 then [CLIENT] else [];
    assert [Downlist([])] + [Joinlist([JoinEntry(7, [97], [0])])] == OwnJoinlist(1);
  }

  lemma SecondEnter(n: NodeId)
    ensures var l := FirstDone(7).node.(inProcess := true, trans := [1, 2]);
            var nd := Regular(l.(out := []), [1, 2], NEW, [CPG_SERVICE]);
            && nd == NodeAt(NEW, [1, 2], SERVICELIST_BUILD, false, false, [Build(NEW)], NEW_CALLS)
            && ReactAll(Joined(n), NewCalls(l, nd), nd) == Ready(n)
  {
    hide ProcJoined;
    var l := FirstDone(7).node.(inProcess := true, trans := [1, 2]);
    var nd := Regular(l.(out := []), [1, 2], NEW, [CPG_SERVICE]);
    assert Surviving([1, 2], [1, 2]) == [1, 2] by {
      assert [1, 2][..1] == [1] && [1][..0] == [];
    }
    assert OLD_CALLS + [] == OLD_CALLS;
    assert nd.calls == NEW_CALLS;
    assert NewCalls(l, nd) == Opening(NEW);
    OpeningReaction(Joined(n), NEW, nd);
  }

  function InNew(nd: Node, pos: nat): Local {
    Local(nd, NEW, pos, false, {OLD, NEW}, [])
  }

  /** Both nodes leave the first ring and enter the second. */
  lemma SecondBuild() returns (w: World, res: map<(RingId, NodeId), Result>)
    ensures var nd := NodeAt(NEW, [1, 2], SERVICELIST_BUILD, false, false, [], NEW_CALLS);
            Shows(w, View(InNew(nd, 0), InNew(nd, 0), Ready(1), Ready(2), JOINED_LOG,
                          [(1, Build(NEW)), (2, Build(NEW))], SILENT, res))
  {
    hide Shows, Regular, ReactAll, NewCalls, ProcJoined;
    w, res := FirstRing();
    var v := View(FirstDone(7), FirstDone(7), Joined(1), Joined(2), JOINED_LOG, [], SILENT, res);
    var left := FirstDone(7).(node := FirstDone(7).node.(inProcess := true, trans := [1, 2]), transit := true);
    w := Part(w, v, 1);
    v := v.(l1 := left);
    w := Part(w, v, 2);
    v := v.(l2 := left);
    var nd := NodeAt(NEW, [1, 2], SERVICELIST_BUILD, false, false, [Build(NEW)], NEW_CALLS);
    SecondEnter(1);
    SecondEnter(2);
    SecondStates(1);
    SecondStates(2);
    assert {OLD} + {NEW} == {OLD, NEW};
    w := Enter(w, v, 1, NEW, nd, Ready(1));
    v := v.(l1 := InNew(nd, 0), s1 := Ready(1));
    w := Enter(w, v, 2, NEW, nd, Ready(2));
    v := v.(l2 := InNew(nd, 0), s2 := Ready(2));
    assert [Build(NEW)][1..] == [];
    w := Put(w, v, 1);
    v := v.(l1 := InNew(nd.(out := []), 0), newLog := v.newLog + [(1, Build(NEW))]);
    w := Put(w, v, 2);
    assert v.newLog + [(2, Build(NEW))] == [(1, Build(NEW)), (2, Build(NEW))];
  }

  const DOWN := App(Downlist([]))
  const LIST := App(Joinlist([JoinEntry(7, [97], [0])]))
  const EXIT := App(ProcLeave(7, [97], REASON_PROCDOWN))

  const SECOND_LOG: Log :=
    [(1, Build(NEW)), (2, Build(NEW)), (1, DOWN), (1, LIST), (1, Barrier(NEW)), (1, EXIT), (2, DOWN), (2, Barrier(NEW))]

  const CLAIMED: Announced := map[(OLD, 1) := [], (OLD, 2) := [], (NEW, 1) := [CLIENT], (NEW, 2) := []]

  function Waiting(out: seq<Message>): Local {
    InNew(NodeAt(NEW, [1, 2], BARRIER, false, false, out, LAST_CALLS), 2)
  }

  /** Node 1 announces the client, which then exits. */
  lemma SecondAnnounce() returns (w: World, res: map<(RingId, NodeId), Result>)
    ensures Shows(w, View(Waiting([DOWN, LIST, Barrier(NEW), EXIT]), Waiting([DOWN, Barrier(NEW)]), Informed(1),
                          Informed(2), JOINED_LOG, [(1, Build(NEW)), (2, Build(NEW))], CLAIMED, res))
  {
    hide Shows, Work, SyncProcess, OwnProcesses, Ready;
    w, res := SecondBuild();
    var nd := NodeAt(NEW, [1, 2], SERVICELIST_BUILD, false, false, [], NEW_CALLS);
    var p := InNew(NodeAt(NEW, [1, 2], PROCESS, false, false, [], NEW_CALLS), 2);
    var v := View(InNew(nd, 0), InNew(nd, 0), Ready(1), Ready(2), JOINED_LOG, [(1, Build(NEW)), (2, Build(NEW))],
                  SILENT, res);
    w := GetBuild(w, v, 1, NEW, [1, 2], NEW_CALLS, {OLD, NEW});
    v := v.(l1 := p);
    w := GetBuild(w, v, 2, NEW, [1, 2], NEW_CALLS, {OLD, NEW});
    v := v.(l2 := p);
    SecondProcess(1);
    SecondProcess(2);
    WorkNode(NEW, [1, 2], NEW_CALLS, OwnJoinlist(1));
    WorkNode(NEW, [1, 2], NEW_CALLS, OwnJoinlist(2));
    var out1, out2 := [DOWN, LIST, Barrier(NEW)], [DOWN, Barrier(NEW)];
    assert Bodies(OwnJoinlist(1)) + [Barrier(NEW)] == out1;
    assert Bodies(OwnJoinlist(2)) + [Barrier(NEW)] == out2;
    w := Announce(w, v, 1, Waiting(out1).node, Informed(1), OwnJoinlist(1));
    v := v.(l1 := Waiting(out1), s1 := Informed(1), announced := v.announced[(NEW, 1) := [CLIENT]]);
    w := Announce(w, v, 2, Waiting(out2).node, Informed(2), OwnJoinlist(2));
    v := v.(l2 := Waiting(out2), s2 := Informed(2), announced := v.announced[(NEW, 2) := []]);
    assert v.announced == CLAIMED;
    w := Post(w, v, 1, ProcLeave(7, [97], REASON_PROCDOWN));
    assert out1 + [EXIT] == [DOWN, LIST, Barrier(NEW), EXIT];
  }

  const FOUR_LOG: Log := [(1, Build(NEW)), (2, Build(NEW)), (1, DOWN), (1, LIST), (1, Barrier(NEW)), (1, EXIT)]

  lemma SecondSend(w: World, v: View) returns (w': World)
    requires v.l1 == Waiting([DOWN, LIST, Barrier(NEW), EXIT]) && v.l2 == Waiting([DOWN, Barrier(NEW)])
    requires v.newLog == [(1, Build(NEW)), (2, Build(NEW))] && Shows(w, v)
    ensures Shows(w', v.(l1 := Waiting([]), newLog := FOUR_LOG))
  {
    hide Shows;
    var b := Barrier(NEW);
    assert [DOWN, LIST, b, EXIT][1..] == [LIST, b, EXIT] && [LIST, b, EXIT][1..] == [b, EXIT]
           && [b, EXIT][1..] == [EXIT];
    assert [EXIT][1..] == [];
    w' := Put(w, v, 1);
    var v1 := v.(l1 := Waiting([LIST, b, EXIT]), newLog := v.newLog + [(1, DOWN)]);
    w' := Put(w', v1, 1);
    v1 := v1.(l1 := Waiting([b, EXIT]), newLog := v1.newLog + [(1, LIST)]);
    w' := Put(w', v1, 1);
    v1 := v1.(l1 := Waiting([EXIT]), newLog := v1.newLog + [(1, b)]);
    w' := Put(w', v1, 1);
    assert v1.newLog + [(1, EXIT)] == FOUR_LOG;
  }

  lemma SecondSendRest(w: World, v: View) returns (w': World)
    requires v.l2 == Waiting([DOWN, Barrier(NEW)]) && v.newLog == FOUR_LOG && Shows(w, v)
    ensures Shows(w', v.(l2 := Waiting([]), newLog := SECOND_LOG))
  {
    hide Shows;
    var b := Barrier(NEW);
    assert [DOWN, b][1..] == [b] && [b][1..] == [];
    w' := Put(w, v, 2);
    var v1 := v.(l2 := Waiting([b]), newLog := v.newLog + [(2, DOWN)]);
    w' := Put(w', v1, 2);
    assert v1.newLog + [(2, b)] == SECOND_LOG;
  }

  function Listed(n: NodeId): CpgState {
    HandleMessage(Informed(n), 1, Joinlist([JoinEntry(7, [97], [0])]))
  }

  lemma SecondHalf(w: World, v: View, n: NodeId) returns (w': World)
    requires Shows(w, v) && OneOf(n) && v.newLog == SECOND_LOG && StateOf(v, n) == Informed(n)
    requires LocalOf(v, n) == Waiting([])
    ensures Shows(w', Set(v, n, InNew(NodeAt(NEW, [1, 2], BARRIER, true, false, [], LAST_CALLS), 5), Listed(n)))
  {
    hide Shows, Informed, Store, StoreBehind;
    var a := Waiting([]).node;
    w' := GetApp(w, v, n, 1, Downlist([]));
    w' := GetApp(w', Set(v, n, InNew(a, 3), Informed(n)), n, 1, Joinlist([JoinEntry(7, [97], [0])]));
    w' := GetFirstBarrier(w', Set(v, n, InNew(a, 4), Listed(n)), n, NEW, [1, 2], LAST_CALLS, 4, {OLD, NEW});
  }

  function Left(n: NodeId): CpgState {
    ProcLeft(Listed(n), CLIENT, REASON_PROCDOWN)
  }

  lemma SecondLeave(w: World, v: View, n: NodeId) returns (w': World)
    requires Shows(w, v) && OneOf(n) && v.newLog == SECOND_LOG && StateOf(v, n) == Listed(n)
    requires LocalOf(v, n) == InNew(NodeAt(NEW, [1, 2], BARRIER, true, false, [], LAST_CALLS), 5)
    ensures Shows(w', Set(v, n, InNew(NodeAt(NEW, [1, 2], BARRIER, true, false, [], LAST_CALLS), 7), Left(n)))
  {
    hide Shows, Listed, ProcLeft;
    var b := NodeAt(NEW, [1, 2], BARRIER, true, false, [], LAST_CALLS);
    w' := GetApp(w, v, n, 1, ProcLeave(7, [97], REASON_PROCDOWN));
    w' := GetApp(w', Set(v, n, InNew(b, 6), Left(n)), n, 2, Downlist([]));
  }

  /** A node delivers the rest of the second round. */
  lemma SecondGet(w: World, v: View, n: NodeId) returns (w': World, l: Local, s: CpgState)
    requires Shows(w, v) && OneOf(n) && v.newLog == SECOND_LOG && StateOf(v, n) == Informed(n)
    requires LocalOf(v, n) == Waiting([])
    ensures Shows(w', Set(v, n, l, s).(results := v.results[(NEW, n) := Result(OwnProcesses(Left(n)), s.list)]))
  {
    hide Shows, SyncActivate, OwnProcesses, Listed, Left;
    var b := NodeAt(NEW, [1, 2], BARRIER, true, false, [], LAST_CALLS);
    var s2 := Left(n);
    w' := SecondHalf(w, v, n);
    w' := SecondLeave(w', Set(v, n, InNew(b, 5), Listed(n)), n);
    w' := GetLastBarrier(w', Set(v, n, InNew(b, 7), s2), n, NEW, [1, 2], LAST_CALLS, 7, {OLD, NEW});
    l := InNew(FinishedNode(NEW, [1, 2], [], LAST_CALLS), 8);
    s := SyncActivate(s2);
  }

  /** The members of a ring need not agree: a run in which both have activated the
      service, no joinlist of an older ring is around, and they differ. */
  lemma Disagreement()
    ensures exists steps, w ::
              && WorldExec(CONFIG, steps) == Some(w) && NEW !in w.stale
              && Done(w, NEW, 1) && Done(w, NEW, 2)
              && !KeptItsWord(w, NEW, 1)
              && !SameProcesses(w.results[(NEW, 1)].list, w.results[(NEW, 2)].list)
  {
    hide Shows, OwnProcesses, Informed, Left;
    var w, res := SecondAnnounce();
    var v := View(Waiting([DOWN, LIST, Barrier(NEW), EXIT]), Waiting([DOWN, Barrier(NEW)]), Informed(1), Informed(2),
                  JOINED_LOG, [(1, Build(NEW)), (2, Build(NEW))], CLAIMED, res);
    w := SecondSend(w, v);
    v := v.(l1 := Waiting([]), newLog := FOUR_LOG);
    w := SecondSendRest(w, v);
    v := v.(l2 := Waiting([]), newLog := SECOND_LOG);
    var l, s;
    w, l, s := SecondGet(w, v, 1);
    v := v.(l1 := l, s1 := s, results := v.results[(NEW, 1) := Result(OwnProcesses(Left(1)), s.list)]);
    w, l, s := SecondGet(w, v, 2);
    Differ(w, Set(v, 2, l, s).(results := v.results[(NEW, 2) := Result(OwnProcesses(Left(2)), s.list)]));
  }

  lemma Differ(w: World, v: View)
    requires Shows(w, v) && v.announced == CLAIMED && (NEW, 1) in v.results && (NEW, 2) in v.results
    requires v.results[(NEW, 1)].local == OwnProcesses(Left(1))
    ensures exists steps, w ::
              && WorldExec(CONFIG, steps) == Some(w) && NEW !in w.stale
              && Done(w, NEW, 1) && Done(w, NEW, 2)
              && !KeptItsWord(w, NEW, 1)
              && !SameProcesses(w.results[(NEW, 1)].list, w.results[(NEW, 2)].list)
  {
    hide WorldExec;
    var steps :| WorldExec(CONFIG, steps) == Some(w);
    assert CLIENT !in w.results[(NEW, 1)].local && CLIENT in Ann(w.announced, NEW, 1);
    Agreement(CONFIG, steps, w, NEW, 1, 2);
  }
}
