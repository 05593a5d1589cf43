/** Which nodes a node takes for gone: from the beginning of a round to the activation the
    downlist has the members of the last activation that did not come along, and their
    processes are reported as such. */
module CpgDownlist {
  import opened Wrappers
  import opened Sync
  import opened SyncLists
  import opened SyncProtocol
  import opened SyncInvariant
  import opened SyncSafety
  import opened Cpg
  import opened CpgLists
  import opened CpgChain
  import opened CpgReasons
  import opened CpgWorld
  import opened CpgConvergence
  import opened CpgAgreement

  // ---- what happened to a node, from its steps ----

  /** The members of the last transitional configuration. */
  function LastTrans(steps: seq<WorldStep>, n: NodeId): seq<NodeId> {
    if steps == [] then []
    else NextTrans(steps[|steps| - 1], n, LastTrans(steps[..|steps| - 1], n))
  }

  function NextTrans(ws: WorldStep, n: NodeId, trans: seq<NodeId>): seq<NodeId> {
    match ws.step
    case TransitionalConf(m, members) => if m == n then members else trans
    case Restart(m) => if m == n then [] else trans
    case _ => trans
  }

  /** The step activates the process group service. */
  ghost predicate Activates(c: Config, w: World, ws: WorldStep)
    requires Enabled(c, w.sys, ws.step)
  {
    var l := At(w.sys, ws.step.n);
    ws.step.Deliver? && AtCpg(l.node) && At(Apply(c, w.sys, ws.step), ws.step.n).node.idx == l.node.idx + 1
  }

  /** The ring in which the node last activated the service, since it started. */
  ghost function LastRing(c: Config, steps: seq<WorldStep>, n: NodeId): RingId {
    if steps == [] then NO_RING
    else
      var pre, ws := steps[..|steps| - 1], steps[|steps| - 1];
      match WorldExec(c, pre)
      case None => NO_RING
      case Some(w) => NextRing(c, w, ws, n, LastRing(c, pre, n))
  }

  ghost function NextRing(c: Config, w: World, ws: WorldStep, n: NodeId, last: RingId): RingId {
    if ws.step.n != n then last
    else if ws.step.Restart? then NO_RING
    else if Enabled(c, w.sys, ws.step) && Activates(c, w, ws) then At(w.sys, n).node.ring
    else last
  }

  /** The members of that ring. */
  ghost function Before(c: Config, last: RingId): seq<NodeId> {
    if last == NO_RING then [] else c.members(last)
  }

  /** The node was there, and did not come along into the ring `r`. */
  ghost predicate Gone(c: Config, r: RingId, trans: seq<NodeId>, last: RingId, x: NodeId) {
    x in Before(c, last) && !(x in trans && x in c.members(r))
  }

  // ---- what every step keeps ----

  /** The node is in a round of `r` and has not yet activated the service. */
  ghost predicate Ahead(c: Config, n: NodeId, nd: Node) {
    nd.ring != NO_RING && HasCpg(c, nd.ring, n) && nd.idx <= CpgIndex(c, nd.ring)
  }

  ghost predicate DownInv(c: Config, n: NodeId, l: Local, s: CpgState, trans: seq<NodeId>, last: RingId) {
    var nd := l.node;
    && s.oldMembers == Before(c, last)
    && (nd.ring == NO_RING || l.transit ==> nd.trans == trans)
    && (Ahead(c, n, nd) ==>
          && s.members == c.members(nd.ring)
          && forall x :: x in s.downlist <==> Gone(c, nd.ring, trans, last, x))
  }

  lemma {:induction false} SurvivingElements(trans: seq<NodeId>, members: seq<NodeId>, x: NodeId)
    ensures x in Surviving(trans, members) <==> x in trans && x in members
  {
    if trans != [] {
      var k := |trans| - 1;
      SurvivingElements(trans[..k], members, x);
      assert trans == trans[..k] + [trans[k]];
    }
  }

  /** `cpg_sync_init` finds the old members that are not in the transitional list. */
  lemma InitFindsGone(s: CpgState, trans: seq<NodeId>, members: seq<NodeId>, x: NodeId)
    ensures x in SyncInit(s, trans, members).downlist <==> x in s.oldMembers && x !in trans
  {
  }

  /** The calls with which a round begins, for this service. */
  lemma {:induction false} ReactInit(s: CpgState, calls: seq<Callback>, nd: Node)
    requires forall i :: 0 <= i < |calls| ==> !calls[i].Activated?
    ensures var r := ReactAll(s, calls, nd);
            && r.oldMembers == s.oldMembers
            && (Init(CPG_SERVICE) in calls ==>
                  r.members == nd.members && forall x :: x in r.downlist <==> x in s.oldMembers && x !in nd.trans)
  {
    if calls != [] {
      var k := |calls| - 1;
      ReactInit(s, calls[..k], nd);
      assert calls == calls[..k] + [calls[k]];
      var r := ReactAll(s, calls[..k], nd);
      if calls[k] == Init(CPG_SERVICE) {
        forall x {
          InitFindsGone(r, nd.trans, nd.members, x);
        }
      }
    }
  }

  lemma RegularStarts(nd: Node, kept: seq<Message>, members: seq<NodeId>, r: RingId, loaded: seq<ServiceId>)
    ensures var nd' := Regular(nd.(out := kept), members, r, loaded);
            && nd'.ring == r && nd'.trans == Surviving(nd.trans, members) && nd'.members == members
            && (forall i :: 0 <= i < |NewCalls(nd, nd')| ==> !NewCalls(nd, nd')[i].Activated?)
            && forall id :: id in loaded ==> Init(id) in NewCalls(nd, nd')
  {
    var nd' := Regular(nd.(out := kept), members, r, loaded);
    RegularQuiet(nd, kept, members, r, loaded);
    AbortCalls(nd.(out := kept, inProcess := true));
    var a := |nd'.calls| - |loaded|;
    forall id | id in loaded
      ensures Init(id) in NewCalls(nd, nd')
    {
      var i :| 0 <= i < |loaded| && loaded[i] == id;
      assert nd'.calls[a + i] == Init(id);
      assert NewCalls(nd, nd')[a + i - |nd.calls|] == Init(id);
    }
  }

  lemma RegularDown(c: Config, n: NodeId, l: Local, s: CpgState, trans: seq<NodeId>, last: RingId,
                    r: RingId, kept: seq<Message>, l': Local)
    requires DownInv(c, n, l, s, trans, last) && (l.node.ring == NO_RING || l.transit)
    requires l'.node == Regular(l.node.(out := kept), c.members(r), r, c.loaded(r, n)) && !l'.transit && r != NO_RING
    ensures DownInv(c, n, l', ReactAll(s, NewCalls(l.node, l'.node), l'.node), trans, last)
  {
    hide Regular, ReactAll, NewCalls, CpgIndex;
    var nd' := l'.node;
    RegularStarts(l.node, kept, c.members(r), r, c.loaded(r, n));
    ReactInit(s, NewCalls(l.node, nd'), nd');
    forall x {
      SurvivingElements(trans, c.members(r), x);
    }
  }

  /** A node that has completed its ring is past the service. */
  lemma PastService(c: Config, r: RingId, n: NodeId, nd: Node, log: Log, pos: nat, transit: bool)
    requires ActiveInv(c, r, n, nd, log, pos, transit) && Completed(nd) && HasCpg(c, r, n)
    ensures nd.idx > CpgIndex(c, r)
  {
    ActiveIndex(c, r, n, nd, log, pos, transit);
    ServiceInAgenda(c, r, n);
  }

  lemma ServiceInAgenda(c: Config, r: RingId, n: NodeId)
    requires HasCpg(c, r, n) && n in c.members(r)
    ensures CpgIndex(c, r) < |Agenda(c, r)|
  {
    assert CPG_SERVICE in Union(c, r) by {
      var i :| 0 <= i < |c.members(r)| && c.members(r)[i] == n;
      assert CPG_SERVICE in c.loaded(r, c.members(r)[i]);
    }
    assert ToSet(Agenda(c, r)) == Union(c, r);
    var i :| 0 <= i < |Agenda(c, r)| && Agenda(c, r)[i] == CPG_SERVICE;
    assert CpgIndex(c, r) <= i;
  }

  lemma TransitionalDown(c: Config, w: World, n: NodeId, members: seq<NodeId>, trans: seq<NodeId>, last: RingId)
    requires WorldInv(c, w) && n in members
    requires DownInv(c, n, At(w.sys, n), CpgAt(w, n), trans, last)
    ensures var l := At(w.sys, n);
            var nd := Transitional(l.node, members);
            var s := ReactAll(CpgAt(w, n), NewCalls(l.node, nd), nd);
            DownInv(c, n, l.(node := nd, transit := true), s, members, last)
  {
    var l := At(w.sys, n);
    var nd := Transitional(l.node, members);
    WorldParts(c, w, n);
    hide WorldInv, Inv, NodeCpg, BasicCpg, CpgIndex, HasCpg, ReactAll, NewCalls, Gone, Before;
    TransitionalNode(c, w, n, members);
    TransitionalQuiet(l.node, members);
    ReactInit(CpgAt(w, n), NewCalls(l.node, nd), nd);
    if nd.ring != NO_RING && HasCpg(c, nd.ring, n) {
      PastService(c, l.cur, n, l.node, LogIn(w.sys, l.cur), l.pos, l.transit);
    }
  }

  lemma HandleKeeps(s: CpgState, from: NodeId, m: CpgMessage)
    ensures var s' := HandleMessage(s, from, m);
            s'.oldMembers == s.oldMembers && s'.members == s.members && s'.downlist == s.downlist
  {
  }

  /** Changes that concern neither the round nor what the service knows of members. */
  lemma SameDown(c: Config, n: NodeId, l: Local, l': Local, s: CpgState, s': CpgState, trans: seq<NodeId>, last: RingId)
    requires DownInv(c, n, l, s, trans, last)
    requires s'.oldMembers == s.oldMembers && s'.members == s.members && s'.downlist == s.downlist
    requires l'.node.ring == l.node.ring && l'.node.trans == l.node.trans && l'.transit == l.transit
    requires l'.node.idx >= l.node.idx
    ensures DownInv(c, n, l', s', trans, last)
  {
    hide CpgIndex, Gone, Before;
  }

  lemma DeliverDown(c: Config, w: World, ws: WorldStep, trans: seq<NodeId>, last: RingId)
    requires ConfigOk(c) && WorldInv(c, w) && WorldEnabled(c, w, ws) && ws.step.Deliver?
    requires DownInv(c, ws.step.n, At(w.sys, ws.step.n), CpgAt(w, ws.step.n), trans, last)
    ensures var n, w' := ws.step.n, WorldApply(c, w, ws);
            DownInv(c, n, At(w'.sys, n), CpgAt(w', n), trans, NextRing(c, w, ws, n, last))
  {
    hide WorldInv, Inv, CpgIndex, LocalInv, ActiveInv, WorldApply, Apply, Enabled, WorldEnabled, At, CpgAt, LogIn,
         DownInv, HandleMessage, AtCpg, NextRing, SyncActivate, DeliverMessage, ReactAll;
    var n := ws.step.n;
    var l, s, w' := At(w.sys, n), CpgAt(w, n), WorldApply(c, w, ws);
    WorldParts(c, w, n);
    DeliverApplied(c, w, ws);
    NextRingIs(c, w, ws, last);
    CurActive(c, n, l, LogIn(w.sys, l.cur));
    HeadTagOk(c, w, l.cur, l.pos);
    var (from, m) := LogIn(w.sys, l.cur)[l.pos];
    if l.node.ring == NO_RING {
      IdleCalls(l.node, from, m);
      CommitReaction(s, Service(0, false, false), l.node);
      if m.App? {
        HandleKeeps(s, from, m.body);
      }
      SameDown(c, n, l, At(w'.sys, n), s, CpgAt(w', n), trans, last);
    } else {
      DeliverEffect(c, l.cur, n, l.node, LogIn(w.sys, l.cur), l.pos, l.transit);
      if m.App? {
        AppSame(l.node, from, m);
        HandleKeeps(s, from, m.body);
        SameDown(c, n, l, At(w'.sys, n), s, CpgAt(w', n), trans, last);
      } else {
        MessageDown(c, w, ws, trans, last);
      }
    }
  }

  lemma AppSame(nd: Node, from: NodeId, m: Message)
    requires m.App?
    ensures DeliverMessage(nd, from, m) == nd
  {
  }

  lemma NextRingIs(c: Config, w: World, ws: WorldStep, last: RingId)
    requires WorldEnabled(c, w, ws) && ws.step.Deliver?
    ensures var n := ws.step.n;
            var l, l' := At(w.sys, n), At(WorldApply(c, w, ws).sys, n);
            NextRing(c, w, ws, n, last) == if AtCpg(l.node) && l'.node.idx == l.node.idx + 1 then l.node.ring else last
  {
    SystemApplied(c, w, ws);
    hide Apply, At, AtCpg, WorldApply;
  }

  /** A synchronization message for a node in a ring. */
  lemma MessageDown(c: Config, w: World, ws: WorldStep, trans: seq<NodeId>, last: RingId)
    requires ConfigOk(c) && WorldInv(c, w) && WorldEnabled(c, w, ws) && ws.step.Deliver?
    requires DownInv(c, ws.step.n, At(w.sys, ws.step.n), CpgAt(w, ws.step.n), trans, last)
    requires var l := At(w.sys, ws.step.n);
             l.node.ring != NO_RING && l.pos < |LogIn(w.sys, l.cur)| && !LogIn(w.sys, l.cur)[l.pos].1.App?
    ensures var n, w' := ws.step.n, WorldApply(c, w, ws);
            DownInv(c, n, At(w'.sys, n), CpgAt(w', n), trans, NextRing(c, w, ws, n, last))
  {
    hide WorldInv, Inv, CpgIndex, LocalInv, ActiveInv, WorldApply, Apply, Enabled, WorldEnabled, At, CpgAt, LogIn,
         DownInv, NextRing, SyncActivate, DeliverMessage, ReactAll;
    var n := ws.step.n;
    var l, s, w' := At(w.sys, n), CpgAt(w, n), WorldApply(c, w, ws);
    var nd' := At(w'.sys, n).node;
    WorldParts(c, w, n);
    DeliverApplied(c, w, ws);
    NextRingIs(c, w, ws, last);
    CurActive(c, n, l, LogIn(w.sys, l.cur));
    HeadTagOk(c, w, l.cur, l.pos);
    DeliverEffect(c, l.cur, n, l.node, LogIn(w.sys, l.cur), l.pos, l.transit);
    if nd'.idx == l.node.idx + 1 {
      CommitReaction(s, l.node.services[l.node.idx], nd');
    } else {
      CommitReaction(s, Service(0, false, false), nd');
    }
    if AtCpg(l.node) && nd'.idx == l.node.idx + 1 {
      ActiveIndex(c, l.cur, n, l.node, LogIn(w.sys, l.cur), l.pos, l.transit);
      ActivateList(s);
      CommitDown(c, n, l, At(w'.sys, n), s, SyncActivate(s), trans, last);
    } else {
      SameDown(c, n, l, At(w'.sys, n), s, CpgAt(w', n), trans, last);
    }
  }

  lemma CommitDown(c: Config, n: NodeId, l: Local, l': Local, s: CpgState, s': CpgState, trans: seq<NodeId>,
                   last: RingId)
    requires DownInv(c, n, l, s, trans, last) && Ahead(c, n, l.node) && l.node.idx == CpgIndex(c, l.node.ring)
    requires s'.oldMembers == s.members
    requires l'.node.ring == l.node.ring && l'.node.trans == l.node.trans && l'.transit == l.transit
    requires l'.node.idx == l.node.idx + 1
    ensures DownInv(c, n, l', s', trans, l.node.ring)
  {
    hide CpgIndex, Gone;
  }

  lemma ProcessKeeps(s: CpgState, downOk: bool, joinOk: bool)
    ensures var s' := SyncProcess(s, downOk, joinOk).0;
            s'.oldMembers == s.oldMembers && s'.members == s.members && s'.downlist == s.downlist
  {
    hide OwnEntries;
  }

  lemma WorkDown(c: Config, w: World, ws: WorldStep, trans: seq<NodeId>, last: RingId)
    requires ConfigOk(c) && WorldInv(c, w) && WorldEnabled(c, w, ws) && ws.step.DoWork?
    requires DownInv(c, ws.step.n, At(w.sys, ws.step.n), CpgAt(w, ws.step.n), trans, last)
    ensures var n, w' := ws.step.n, WorldApply(c, w, ws);
            DownInv(c, n, At(w'.sys, n), CpgAt(w', n), trans, last)
  {
    hide WorldInv, WorldApply, WorldEnabled, At, CpgAt, DownInv, SyncProcess, Work;
    var n := ws.step.n;
    var l, s, w' := At(w.sys, n), CpgAt(w, n), WorldApply(c, w, ws);
    WorkApplied(c, w, ws);
    ProcessKeeps(s, ws.downOk, ws.joinOk);
    WorkSame(l.node, Bodies(ws.step.sent), ws.step.done);
    SameDown(c, n, l, At(w'.sys, n), s, CpgAt(w', n), trans, last);
  }

  lemma WorkSame(nd: Node, sent: seq<Message>, done: bool)
    ensures var nd' := Work(nd, sent, done); nd'.ring == nd.ring && nd'.trans == nd.trans && nd'.idx == nd.idx
  {
  }

  /** Configuration changes, a restart, and steps that do not concern the service. */
  lemma OtherDown(c: Config, w: World, ws: WorldStep, trans: seq<NodeId>, last: RingId)
    requires ConfigOk(c) && WorldInv(c, w) && WorldEnabled(c, w, ws) && !ws.step.Deliver? && !ws.step.DoWork?
    requires DownInv(c, ws.step.n, At(w.sys, ws.step.n), CpgAt(w, ws.step.n), trans, last)
    ensures var n, w' := ws.step.n, WorldApply(c, w, ws);
            DownInv(c, n, At(w'.sys, n), CpgAt(w', n), NextTrans(ws, n, trans), NextRing(c, w, ws, n, last))
  {
    hide WorldInv, Inv, NodeCpg, BasicCpg, WorldApply, DownInv, ReactAll, NewCalls, Regular, Transitional, LocalInv,
         LogIn, Activates, ConfigOk;
    var n := ws.step.n;
    var l, s := At(w.sys, n), CpgAt(w, n);
    WorldParts(c, w, n);
    CpgApplied(c, w, ws);
    SystemApplied(c, w, ws);
    NotActivating(c, w, ws);
    hide CpgAt;
    var w' := WorldApply(c, w, ws);
    match ws.step
    case RegularConf(_, r, kept) =>
      EntersFromNone(c, n, l, LogIn(w.sys, l.cur));
      RegularDown(c, n, l, s, trans, last, r, kept, At(w'.sys, n));
    case TransitionalConf(_, members) =>
      TransitionalDown(c, w, n, members, trans, last);
    case Restart(_) =>
      FreshDown(c, n, l.joined);
    case _ =>
      SameDown(c, n, l, At(w'.sys, n), s, CpgAt(w', n), trans, last);
  }

  lemma NotActivating(c: Config, w: World, ws: WorldStep)
    requires Enabled(c, w.sys, ws.step) && !ws.step.Deliver?
    ensures !Activates(c, w, ws)
  {
  }

  lemma EntersFromNone(c: Config, n: NodeId, l: Local, log: Log)
    requires LocalInv(c, n, l, log) && (l.cur == NO_RING || l.transit)
    ensures l.node.ring == NO_RING || l.transit
  {
  }

  lemma FreshDown(c: Config, n: NodeId, joined: set<RingId>)
    ensures DownInv(c, n, FRESH.(joined := joined), InitialState(n), [], NO_RING)
  {
  }

  lemma {:induction false} DownReachable(c: Config, steps: seq<WorldStep>, w: World, n: NodeId)
    requires ConfigOk(c) && WorldExec(c, steps) == Some(w)
    ensures DownInv(c, n, At(w.sys, n), CpgAt(w, n), LastTrans(steps, n), LastRing(c, steps, n))
  {
    hide DownInv, WorldInv, WorldEnabled, WorldApply, NextRing;
    if steps == [] {
      FreshDown(c, n, {});
    } else {
      var pre, ws := steps[..|steps| - 1], steps[|steps| - 1];
      var v := WorldExec(c, pre).value;
      DownReachable(c, pre, v, n);
      WorldReachable(c, pre);
      var trans, last := LastTrans(pre, n), LastRing(c, pre, n);
      if ws.step.n != n {
        StepOther(c, v, ws, n);
        NextOther(c, v, ws, n, last);
      } else if ws.step.Deliver? {
        DeliverDown(c, v, ws, trans, last);
      } else if ws.step.DoWork? {
        WorkDown(c, v, ws, trans, last);
        NextOther(c, v, ws, n, last);
      } else {
        OtherDown(c, v, ws, trans, last);
      }
    }
  }

  lemma NextOther(c: Config, w: World, ws: WorldStep, n: NodeId, last: RingId)
    requires ws.step.n != n || ws.step.DoWork?
    ensures NextRing(c, w, ws, n, last) == last
    ensures forall t :: NextTrans(ws, n, t) == t
  {
  }

  /** In every run: from the beginning of a round to its activation of the service, the
      downlist of a node has exactly the members of the ring in which it last activated the
      service, without those that are in both the transitional and the new configuration. */
  lemma DownlistIs(c: Config, steps: seq<WorldStep>, w: World, n: NodeId)
    requires ConfigOk(c) && WorldExec(c, steps) == Some(w) && Ahead(c, n, At(w.sys, n).node)
    ensures forall x :: x in CpgAt(w, n).downlist <==>
              Gone(c, At(w.sys, n).node.ring, LastTrans(steps, n), LastRing(c, steps, n), x)
  {
    DownReachable(c, steps, w, n);
  }

  /** In every run in which names have no zero byte and a zero behind them: when a node
      activates the service, each process in its list of a node that did not come along is
      reported to its group as left because its node is down, before any join of the same
      activation. */
  lemma DeadAreReported(c: Config, who: set<Process>, steps: seq<WorldStep>, w: World, ws: WorldStep, p: Process)
    returns (i: nat)
    requires ConfigOk(c) && WorldExec(c, steps) == Some(w) && WorldEnabled(c, w, ws) && Activates(c, w, ws)
    requires forall k :: 0 <= k < |steps| ==> SendOk(who, steps[k])
    requires p in CpgAt(w, ws.step.n).list
    requires var n := ws.step.n;
             Gone(c, At(w.sys, n).node.ring, LastTrans(steps, n), LastRing(c, steps, n), p.nodeid)
    ensures var n := ws.step.n;
            var ns, k := CpgAt(WorldApply(c, w, ws), n).notices, |CpgAt(w, n).notices|;
            && k <= i < |ns| && ns[..k] == CpgAt(w, n).notices
            && ns[i].group == p.group && ns[i].reason == 3 && MemberOf(p) in ns[i].left
            && forall j :: k <= j <= i ==> ns[j].joined == []
  {
    hide WorldExec, WorldApply, WorldEnabled, Activates, SyncActivate, SendOk, Gone, CpgAt, At, LastTrans, LastRing,
         Ahead, ListOk, NamesOk;
    var n := ws.step.n;
    ActivationIs(c, steps, w, ws);
    DownlistIs(c, steps, w, n);
    NamesInList(c, who, steps, w, n);
    i := Reported(who, CpgAt(w, n), p);
  }

  lemma NamesInList(c: Config, who: set<Process>, steps: seq<WorldStep>, w: World, n: NodeId)
    requires ConfigOk(c) && WorldExec(c, steps) == Some(w)
    requires forall k :: 0 <= k < |steps| ==> SendOk(who, steps[k])
    ensures NamesOk(who, CpgAt(w, n).list, CpgAt(w, n).behind)
  {
    hide WorldExec, SendOk, NamesOk, ChainInv, QueueOk, LogOk, At, CpgAt, Manageable, LogIn;
    ClientsAreTold(c, who, steps);
    assert NodeTold(who, w, n);
  }

  lemma Reported(who: set<Process>, s: CpgState, p: Process) returns (i: nat)
    requires ListOk(s.list) && NamesOk(who, s.list, s.behind)
    requires p in s.list && p.nodeid in s.downlist
    ensures var ns, k := SyncActivate(s).notices, |s.notices|;
            && k <= i < |ns| && ns[..k] == s.notices
            && ns[i].group == p.group && ns[i].reason == 3 && MemberOf(p) in ns[i].left
            && forall j :: k <= j <= i ==> ns[j].joined == []
  {
    hide ListOk, NamesOk, SyncActivate, OfNodes, BatchOf, Faithful, Fits, Manageable;
    DownlistFits(who, s);
    i := DownIsReported(s, p);
    var down, up := ActivateReasons(s);
  }

  lemma ActivationIs(c: Config, steps: seq<WorldStep>, w: World, ws: WorldStep)
    requires ConfigOk(c) && WorldExec(c, steps) == Some(w) && WorldEnabled(c, w, ws) && Activates(c, w, ws)
    ensures Ahead(c, ws.step.n, At(w.sys, ws.step.n).node)
    ensures CpgAt(WorldApply(c, w, ws), ws.step.n) == SyncActivate(CpgAt(w, ws.step.n))
    ensures ListOk(CpgAt(w, ws.step.n).list)
  {
    hide WorldInv, Inv, CpgIndex, LocalInv, ActiveInv, WorldApply, Apply, Enabled, WorldEnabled, At, CpgAt, LogIn,
         SyncActivate, DeliverMessage, ReactAll, WorldExec, Activates, HandleMessage, NodeCpg;
    WorldReachable(c, steps);
    var n := ws.step.n;
    var l, s := At(w.sys, n), CpgAt(w, n);
    WorldParts(c, w, n);
    ActivatesMeans(c, w, ws);
    DeliverApplied(c, w, ws);
    CurActive(c, n, l, LogIn(w.sys, l.cur));
    HeadTagOk(c, w, l.cur, l.pos);
    var (from, m) := LogIn(w.sys, l.cur)[l.pos];
    if l.node.ring == NO_RING {
      IdleCalls(l.node, from, m);
      assert false;
    } else {
      DeliverEffect(c, l.cur, n, l.node, LogIn(w.sys, l.cur), l.pos, l.transit);
      ActiveIndex(c, l.cur, n, l.node, LogIn(w.sys, l.cur), l.pos, l.transit);
      CommitReaction(s, l.node.services[l.node.idx], At(WorldApply(c, w, ws).sys, n).node);
    }
  }

  lemma ActivatesMeans(c: Config, w: World, ws: WorldStep)
    requires WorldEnabled(c, w, ws) && Activates(c, w, ws)
    ensures var l := At(w.sys, ws.step.n);
            ws.step.Deliver? && AtCpg(l.node) && At(WorldApply(c, w, ws).sys, ws.step.n).node.idx == l.node.idx + 1
  {
    SystemApplied(c, w, ws);
    hide Apply, At, AtCpg, WorldApply;
  }

  /** A configuration change that aborts the service makes it forget the joinlists. */
  lemma AbortForgets(c: Config, w: World, ws: WorldStep)
    requires WorldEnabled(c, w, ws) && ws.step.TransitionalConf?
    requires var nd := At(w.sys, ws.step.n).node;
             AtCpg(nd) && nd.inProcess && (nd.state == PROCESS || nd.state == BARRIER)
    ensures CpgAt(WorldApply(c, w, ws), ws.step.n).stored == []
  {
    CpgApplied(c, w, ws);
    hide WorldApply;
    var n := ws.step.n;
    var l := At(w.sys, n);
    var nd := Transitional(l.node, ws.step.members);
    assert NewCalls(l.node, nd) == [Aborted(CPG_SERVICE)];
    assert [Aborted(CPG_SERVICE)][..0] == [];
  }
}
