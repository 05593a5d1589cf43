/** Flow control at work: because clients cannot join while their node synchronizes, no
    process appears between the announcement of a node and its activation. What can
    make members differ is only a client that exits. */
module CpgFlow {
  import opened Wrappers
  import opened Sync
  import opened SyncProtocol
  import opened SyncInvariant
  import opened SyncSafety
  import opened Cpg
  import opened CpgLists
  import opened CpgWorld
  import opened CpgConvergence
  import opened CpgAgreement

  predicate IsJoin(m: Message) {
    m.App? && m.body.ProcJoin?
  }

  /** Every member has sent all its messages of the round. */
  ghost predicate AllSent(c: Config, r: RingId, log: Log) {
    forall m :: m in c.members(r) ==> Count(log, m, r) == |Agenda(c, r)| + 1
  }

  /** A join in the log is before the first synchronization message of its sender or
      after the last one of all members. */
  ghost predicate JoinsOutside(c: Config, r: RingId, log: Log) {
    forall i :: 0 <= i < |log| && IsJoin(log[i].1) ==>
      Count(log[..i], log[i].0, r) == 0 || AllSent(c, r, log[..i])
  }

  /** The same for a join that waits in the queue of a member. */
  ghost predicate QueuedOutside(c: Config, r: RingId, n: NodeId, out: seq<Message>, log: Log) {
    forall a :: 0 <= a < |out| && IsJoin(out[a]) ==>
      Count(log, n, r) + Pending(out[..a], r) == 0 || AllSent(c, r, log)
  }

  /** Until it activates the service, a node has no process that it did not announce. */
  ghost predicate NothingNew(c: Config, r: RingId, n: NodeId, nd: Node, s: CpgState, announced: Announced) {
    nd.idx <= CpgIndex(c, r) < |Agenda(c, r)| && (r, n) in announced ==>
      forall p: Process :: p in s.list && p.nodeid == n ==> p in Ann(announced, r, n)
  }

  ghost predicate NodeFlow(c: Config, w: World, n: NodeId) {
    var nd := At(w.sys, n).node;
    nd.ring != NO_RING ==>
      && QueuedOutside(c, nd.ring, n, nd.out, LogIn(w.sys, nd.ring))
      && (nd.ring !in w.stale ==> NothingNew(c, nd.ring, n, nd, CpgAt(w, n), w.announced))
  }

  /** What a node had when it activated the service it had announced. */
  ghost predicate NoMore(w: World, r: RingId, n: NodeId) {
    (r, n) in w.results && r !in w.stale ==>
      forall p :: p in w.results[(r, n)].local ==> p in Ann(w.announced, r, n)
  }

  ghost predicate FlowInv(c: Config, w: World) {
    && (forall r :: r != NO_RING ==> JoinsOutside(c, r, LogIn(w.sys, r)))
    && (forall n :: NodeFlow(c, w, n))
    && (forall r, n :: r != NO_RING ==> NoMore(w, r, n))
  }

  // ---- one node at a time ----

  lemma AllSentGrows(c: Config, r: RingId, log: Log, e: (NodeId, Message))
    requires AllSent(c, r, log) && RingInv(c, r, log + [e])
    ensures AllSent(c, r, log + [e])
  {
    hide Agenda;
    forall m | m in c.members(r)
      ensures Count(log + [e], m, r) == |Agenda(c, r)| + 1
    {
      CountSnoc(log, e, m, r);
    }
  }

  /** A member that has completed the ring has seen all messages of the round. */
  lemma CompletedAllSent(c: Config, r: RingId, n: NodeId, nd: Node, log: Log, pos: nat, transit: bool)
    requires ActiveInv(c, r, n, nd, log, pos, transit) && RingInv(c, r, log) && Completed(nd)
    ensures AllSent(c, r, log)
  {
    hide Agenda, Count;
    forall m | m in c.members(r)
      ensures Count(log, m, r) == |Agenda(c, r)| + 1
    {
      CompletedCounts(c, r, n, nd, log[..pos], m);
      CountGrows(log, pos, m, r);
    }
  }

  /** More unsent messages, none of them a join. */
  lemma QueuedMore(c: Config, r: RingId, n: NodeId, out: seq<Message>, more: seq<Message>, log: Log)
    requires QueuedOutside(c, r, n, out, log)
    requires forall i :: 0 <= i < |more| ==> !IsJoin(more[i])
    ensures QueuedOutside(c, r, n, out + more, log)
  {
    hide Count, Pending, AllSent;
    forall a | 0 <= a < |out + more| && IsJoin((out + more)[a])
      ensures Count(log, n, r) + Pending((out + more)[..a], r) == 0 || AllSent(c, r, log)
    {
      assert a < |out| && (out + more)[..a] == out[..a];
    }
  }

  lemma QueuedFree(c: Config, r: RingId, n: NodeId, out: seq<Message>, log: Log)
    requires || AllSent(c, r, log)
             || (Count(log, n, r) == 0 && forall i :: 0 <= i < |out| - 1 ==> !Tagged(out[i], r))
    ensures QueuedOutside(c, r, n, out, log)
  {
    forall a | 0 <= a < |out| && IsJoin(out[a])
      ensures Count(log, n, r) + Pending(out[..a], r) == 0 || AllSent(c, r, log)
    {
      if !AllSent(c, r, log) {
        PendingNone(out[..a], r);
      }
    }
  }

  /** An own join is not delivered between announcing and activating. */
  lemma NoLateJoin(c: Config, r: RingId, n: NodeId, nd: Node, log: Log, pos: nat, transit: bool, announced: Announced)
    requires ActiveInv(c, r, n, nd, log, pos, transit) && pos < |log| && JoinsOutside(c, r, log)
    requires QueueCpg(c, r, n, nd, log, announced) && (r, n) in announced
    requires nd.idx <= CpgIndex(c, r) < |Agenda(c, r)|
    ensures !(log[pos].0 == n && IsJoin(log[pos].1))
  {
    hide Agenda, CpgIndex, Count;
    if log[pos].0 == n && IsJoin(log[pos].1) {
      AnnouncedHeard(c, r, n, nd, log, pos, transit);
      assert AllSent(c, r, log[..pos]);
      NotAllHeard(c, r, n, nd, log, pos, transit);
      assert false;
    }
  }

  lemma AnnouncedHeard(c: Config, r: RingId, n: NodeId, nd: Node, log: Log, pos: nat, transit: bool)
    requires ActiveInv(c, r, n, nd, log, pos, transit) && FinishedCount(nd) > nd.idx
    ensures Count(log[..pos], n, r) > 0
  {
    hide Count;
    var i := MemberIndex(c, r, n);
  }

  lemma NotAllHeard(c: Config, r: RingId, n: NodeId, nd: Node, log: Log, pos: nat, transit: bool)
    requires ActiveInv(c, r, n, nd, log, pos, transit) && nd.idx < |Agenda(c, r)| && FinishedCount(nd) > nd.idx
    ensures !AllSent(c, r, log[..pos])
  {
    hide Agenda, Count;
    var i :| 0 <= i < |nd.processors| && !nd.processors[i].received;
    var m := c.members(r)[i];
    assert m in c.members(r) && Count(log[..pos], m, r) == nd.idx + 1;
  }

  // ---- steps of the world ----

  /** A step of one node that changes no log. */
  lemma FlowFrame(c: Config, w: World, w': World, n: NodeId)
    requires FlowInv(c, w)
    requires forall m :: m != n ==> At(w'.sys, m) == At(w.sys, m) && CpgAt(w', m) == CpgAt(w, m)
    requires forall r :: LogIn(w'.sys, r) == LogIn(w.sys, r)
    requires w.stale <= w'.stale
    requires forall r, m :: m != n ==> SameRecord(w, w', r, m)
    requires NodeFlow(c, w', n) && forall r :: r != NO_RING ==> NoMore(w', r, n)
    ensures FlowInv(c, w')
  {
    hide JoinsOutside, QueuedOutside, CpgIndex;
    forall m
      ensures NodeFlow(c, w', m)
    {
      assert NodeFlow(c, w, m);
      assert m != n ==> SameRecord(w, w', At(w.sys, m).node.ring, m);
    }
    forall r, m | r != NO_RING
      ensures NoMore(w', r, m)
    {
      assert NoMore(w, r, m);
      assert m != n ==> SameRecord(w, w', r, m);
    }
  }

  /** The record of a node in a ring has not changed. */
  ghost predicate SameRecord(w: World, w': World, r: RingId, n: NodeId) {
    && ((r, n) in w'.announced <==> (r, n) in w.announced)
    && Ann(w'.announced, r, n) == Ann(w.announced, r, n)
    && ((r, n) in w'.results <==> (r, n) in w.results)
    && ((r, n) in w.results ==> w'.results[(r, n)] == w.results[(r, n)])
  }

  lemma FlowParts(c: Config, w: World, n: NodeId)
    requires FlowInv(c, w)
    ensures NodeFlow(c, w, n)
    ensures forall r :: r != NO_RING ==> NoMore(w, r, n)
    ensures forall r :: r != NO_RING ==> JoinsOutside(c, r, LogIn(w.sys, r))
  {
    hide NodeFlow, NoMore, JoinsOutside;
  }

  lemma SendApplied(c: Config, w: World, ws: WorldStep)
    requires WorldEnabled(c, w, ws) && ws.step.Send?
    ensures var n := ws.step.n;
            var l, w' := At(w.sys, n), WorldApply(c, w, ws);
            && MaySend(l.node, ws.step.body)
            && At(w'.sys, n) == l.(node := l.node.(out := l.node.out + [App(ws.step.body)]))
            && CpgAt(w', n) == CpgAt(w, n)
            && w'.announced == w.announced && w'.stale == w.stale && w'.results == w.results
  {
    hide AtCpg, OwnProcesses, LogIn;
  }

  lemma SendFlow(c: Config, w: World, ws: WorldStep)
    requires ConfigOk(c) && WorldInv(c, w) && FlowInv(c, w) && WorldEnabled(c, w, ws) && ws.step.Send?
    ensures FlowInv(c, WorldApply(c, w, ws))
  {
    hide WorldInv, FlowInv, NoMore, JoinsOutside, QueuedOutside, CpgIndex, LocalInv, ActiveInv, WorldApply, Apply,
         Enabled, WorldEnabled, At, CpgAt, LogIn, Inv, RingInv;
    var n := ws.step.n;
    var w' := WorldApply(c, w, ws);
    WorldParts(c, w, n);
    WorldSystem(c, w, ws);
    FlowParts(c, w, n);
    SendApplied(c, w, ws);
    var l := At(w.sys, n);
    var log := LogIn(w.sys, l.cur);
    CurActive(c, n, l, log);
    if l.node.ring != NO_RING {
      if IsJoin(App(ws.step.body)) {
        RingPart(c, w, l.cur);
        JoinAfterRound(c, l.cur, n, l.node, log, l.pos, l.transit);
        QueuedFree(c, l.cur, n, At(w'.sys, n).node.out, log);
      } else {
        QueuedMore(c, l.cur, n, l.node.out, [App(ws.step.body)], log);
      }
    }
    SameNoMore(w, w', n);
    FlowFrame(c, w, w', n);
  }

  lemma RingPart(c: Config, w: World, r: RingId)
    requires WorldInv(c, w) && r != NO_RING
    ensures RingInv(c, r, LogIn(w.sys, r)) && SendersJoined(w.sys, r)
  {
    hide RingInv, SendersJoined;
  }

  lemma JoinAfterRound(c: Config, r: RingId, n: NodeId, nd: Node, log: Log, pos: nat, transit: bool)
    requires ActiveInv(c, r, n, nd, log, pos, transit) && RingInv(c, r, log) && !nd.inProcess
    ensures AllSent(c, r, log)
  {
    hide RingInv, AllSent;
    CompletedAllSent(c, r, n, nd, log, pos, transit);
  }

  lemma SameNoMore(w: World, w': World, n: NodeId)
    requires forall r :: r != NO_RING ==> NoMore(w, r, n)
    requires w.stale <= w'.stale && w'.announced == w.announced && w'.results == w.results
    ensures forall r :: r != NO_RING ==> NoMore(w', r, n)
  {
    forall r | r != NO_RING
      ensures NoMore(w', r, n)
    {
      assert NoMore(w, r, n);
    }
  }

  lemma SkipFlow(c: Config, w: World, ws: WorldStep)
    requires ConfigOk(c) && WorldInv(c, w) && FlowInv(c, w) && WorldEnabled(c, w, ws) && ws.step.Skip?
    ensures FlowInv(c, WorldApply(c, w, ws))
  {
    hide WorldInv, FlowInv, NoMore, JoinsOutside, QueuedOutside, NothingNew, CpgIndex, WorldApply, Apply, Enabled,
         WorldEnabled, At, CpgAt, LogIn, Inv;
    var n := ws.step.n;
    WorldSystem(c, w, ws);
    FlowParts(c, w, n);
    SkipApplied(c, w, ws);
    SameNewness(c, w, WorldApply(c, w, ws), n);
    SameNoMore(w, WorldApply(c, w, ws), n);
    FlowFrame(c, w, WorldApply(c, w, ws), n);
  }

  lemma ExchangeApplied(c: Config, w: World, ws: WorldStep)
    requires WorldEnabled(c, w, ws) && (ws.step.Exchange? || ws.step.Restart?)
    ensures var n := ws.step.n;
            var l, w' := At(w.sys, n), WorldApply(c, w, ws);
            && w'.announced == w.announced && w'.stale == w.stale && w'.results == w.results
            && match ws.step
               case Exchange(_, out, held) =>
                 && !l.node.inProcess
                 && (forall i :: 0 <= i < |out| ==> out[i] in l.node.out || out[i] in l.held)
                 && At(w'.sys, n) == l.(node := l.node.(out := out), held := held) && CpgAt(w', n) == CpgAt(w, n)
               case _ => At(w'.sys, n).node == INITIAL
  {
    hide AtCpg, OwnProcesses, LogIn;
  }

  lemma ExchangeFlow(c: Config, w: World, ws: WorldStep)
    requires ConfigOk(c) && WorldInv(c, w) && FlowInv(c, w) && WorldEnabled(c, w, ws) && ws.step.Exchange?
    ensures FlowInv(c, WorldApply(c, w, ws))
  {
    hide WorldInv, FlowInv, NoMore, JoinsOutside, QueuedOutside, CpgIndex, LocalInv, ActiveInv, WorldApply, Apply,
         Enabled, WorldEnabled, At, CpgAt, LogIn, Inv, RingInv;
    var Exchange(n, out, held) := ws.step;
    var w' := WorldApply(c, w, ws);
    WorldParts(c, w, n);
    WorldSystem(c, w, ws);
    FlowParts(c, w, n);
    ExchangeApplied(c, w, ws);
    var l := At(w.sys, n);
    var log := LogIn(w.sys, l.cur);
    BothClear(c, n, l, log, out);
    RingPart(c, w, l.cur);
    JoinAfterRound(c, l.cur, n, l.node, log, l.pos, l.transit);
    QueuedFree(c, l.cur, n, out, log);
    SameNoMore(w, w', n);
    FlowFrame(c, w, w', n);
  }

  lemma RestartFlow(c: Config, w: World, ws: WorldStep)
    requires ConfigOk(c) && WorldInv(c, w) && FlowInv(c, w) && WorldEnabled(c, w, ws) && ws.step.Restart?
    ensures FlowInv(c, WorldApply(c, w, ws))
  {
    hide WorldInv, FlowInv, NoMore, JoinsOutside, QueuedOutside, CpgIndex, WorldApply, Apply, Enabled, WorldEnabled,
         At, CpgAt, LogIn, Inv;
    var n := ws.step.n;
    WorldSystem(c, w, ws);
    FlowParts(c, w, n);
    ExchangeApplied(c, w, ws);
    SameNoMore(w, WorldApply(c, w, ws), n);
    FlowFrame(c, w, WorldApply(c, w, ws), n);
  }

  lemma SameNewness(c: Config, w: World, w': World, n: NodeId)
    requires NodeFlow(c, w, n) && At(w'.sys, n).node == At(w.sys, n).node && CpgAt(w', n) == CpgAt(w, n)
    requires w'.announced == w.announced && w.stale <= w'.stale
    requires forall r :: LogIn(w'.sys, r) == LogIn(w.sys, r)
    ensures NodeFlow(c, w', n)
  {
    hide QueuedOutside, NothingNew;
  }

  // Configuration changes.

  lemma NewnessKept(c: Config, r: RingId, n: NodeId, nd: Node, nd': Node, s: CpgState, s': CpgState,
                    announced: Announced)
    requires NothingNew(c, r, n, nd, s, announced) && nd.idx <= nd'.idx
    requires forall p: Process :: p.nodeid == n && p in s'.list ==> p in s.list
    ensures NothingNew(c, r, n, nd', s', announced)
  {
    hide CpgIndex;
  }

  lemma TransitionalApplied(c: Config, w: World, ws: WorldStep)
    requires WorldEnabled(c, w, ws) && ws.step.TransitionalConf?
    ensures var n := ws.step.n;
            var l, w' := At(w.sys, n), WorldApply(c, w, ws);
            var nd := Transitional(l.node, ws.step.members);
            && n in ws.step.members
            && At(w'.sys, n).node == nd && CpgAt(w', n) == ReactAll(CpgAt(w, n), NewCalls(l.node, nd), nd)
            && w'.announced == w.announced && w'.stale == w.stale && w'.results == w.results
  {
    hide AtCpg, OwnProcesses, LogIn, Transitional, ReactAll, NewCalls;
  }

  lemma TransitionalFlow(c: Config, w: World, ws: WorldStep)
    requires ConfigOk(c) && WorldInv(c, w) && FlowInv(c, w) && WorldEnabled(c, w, ws) && ws.step.TransitionalConf?
    ensures FlowInv(c, WorldApply(c, w, ws))
  {
    hide WorldInv, FlowInv, NoMore, JoinsOutside, QueuedOutside, CpgIndex, WorldApply, Apply, Enabled, WorldEnabled,
         At, CpgAt, LogIn, Inv, Transitional, ReactAll, NewCalls;
    var n := ws.step.n;
    var w' := WorldApply(c, w, ws);
    WorldSystem(c, w, ws);
    FlowParts(c, w, n);
    TransitionalApplied(c, w, ws);
    TransitionalNode(c, w, n, ws.step.members);
    SameNoMore(w, w', n);
    FlowFrame(c, w, w', n);
  }

  lemma RegularStepped(c: Config, w: World, ws: WorldStep)
    requires WorldEnabled(c, w, ws) && ws.step.RegularConf?
    ensures var RegularConf(n, r, kept) := ws.step;
            var l, w' := At(w.sys, n), WorldApply(c, w, ws);
            var nd := At(w'.sys, n).node;
            && r != NO_RING && r !in l.joined
            && (forall i :: 0 <= i < |kept| ==> kept[i] in l.node.out)
            && nd.ring == r && nd.out == kept + [ServiceBuild(r, c.loaded(r, n))]
            && w'.announced == w.announced && w.stale <= w'.stale && w'.results == w.results
  {
    hide AtCpg, OwnProcesses, LogIn, ReactAll, NewCalls;
  }

  lemma RegularFlow(c: Config, w: World, ws: WorldStep)
    requires ConfigOk(c) && WorldInv(c, w) && FlowInv(c, w) && WorldEnabled(c, w, ws) && ws.step.RegularConf?
    ensures FlowInv(c, WorldApply(c, w, ws))
  {
    hide WorldInv, FlowInv, NoMore, JoinsOutside, QueuedOutside, CpgIndex, WorldApply, Apply, Enabled, WorldEnabled,
         At, CpgAt, LogIn, Inv, RingInv, SendersJoined, Count;
    var RegularConf(n, r, kept) := ws.step;
    var w' := WorldApply(c, w, ws);
    var l := At(w.sys, n);
    WorldParts(c, w, n);
    WorldSystem(c, w, ws);
    FlowParts(c, w, n);
    RegularStepped(c, w, ws);
    RingPart(c, w, r);
    NotJoinedNotCounted(w.sys, n, r);
    NotAnnounced(c, w, r, n);
    KeptUntagged(c, n, l, LogIn(w.sys, l.cur), r, kept);
    QueuedFree(c, r, n, At(w'.sys, n).node.out, LogIn(w.sys, r));
    SameNoMore(w, w', n);
    FlowFrame(c, w, w', n);
  }

  lemma KeptUntagged(c: Config, n: NodeId, l: Local, log: Log, r: RingId, kept: seq<Message>)
    requires LocalInv(c, n, l, log) && r !in l.joined && forall i :: 0 <= i < |kept| ==> kept[i] in l.node.out
    ensures forall i :: 0 <= i < |kept| ==> !Tagged(kept[i], r)
  {
    hide ActiveInv, IdleInv;
    forall i | 0 <= i < |kept|
      ensures !Tagged(kept[i], r)
    {
      assert kept[i] in l.node.out;
    }
  }

  lemma NotAnnounced(c: Config, w: World, r: RingId, n: NodeId)
    requires WorldInv(c, w) && r != NO_RING && r !in At(w.sys, n).joined
    ensures (r, n) !in w.announced
  {
    hide Inv, NodeCpg, LogCpg, BasicCpg;
    assert RecordOk(c, w, r, n);
  }

  // Working.

  lemma WorkFlow(c: Config, w: World, ws: WorldStep)
    requires ConfigOk(c) && WorldInv(c, w) && FlowInv(c, w) && WorldEnabled(c, w, ws) && ws.step.DoWork?
    ensures FlowInv(c, WorldApply(c, w, ws))
  {
    hide WorldInv, FlowInv, NoMore, JoinsOutside, QueuedOutside, CpgIndex, WorldApply, Apply, Enabled, WorldEnabled,
         At, CpgAt, LogIn, Inv, Work, SyncProcess, OwnProcesses, LocalInv, ActiveInv, ActiveCpg, Count;
    var DoWork(n, sent, done) := ws.step;
    var w' := WorldApply(c, w, ws);
    WorldParts(c, w, n);
    WorldSystem(c, w, ws);
    FlowParts(c, w, n);
    WorkApplied(c, w, ws);
    var l, s := At(w.sys, n), CpgAt(w, n);
    var r := l.cur;
    var log := LogIn(w.sys, r);
    ScheduledActive(c, n, l, log);
    WorkFacts(c, r, n, l.node, log, l.pos, l.transit);
    WorkResult(l.node, Bodies(sent), done);
    ProcessSends(s, ws.downOk, ws.joinOk);
    WorkQueued(c, r, n, l.node, At(w'.sys, n).node, log, sent);
    WorkNewness(c, w, w', r, n);
    WorkNoMore(w, w', r, n, OwnProcesses(s));
    FlowFrame(c, w, w', n);
  }

  /** A call of the service sends no join. */
  lemma WorkQueued(c: Config, r: RingId, n: NodeId, nd: Node, nd': Node, log: Log, sent: seq<CpgMessage>)
    requires QueuedOutside(c, r, n, nd.out, log)
    requires forall i :: 0 <= i < |sent| ==> sent[i].Downlist? || sent[i].Joinlist?
    requires || nd'.out == nd.out + Bodies(sent)
             || nd'.out == nd.out + Bodies(sent) + [BarrierReached(nd.ring, nd.idx)]
    ensures QueuedOutside(c, r, n, nd'.out, log)
  {
    hide QueuedOutside;
    QueuedMore(c, r, n, nd.out, Bodies(sent), log);
    QueuedMore(c, r, n, nd.out + Bodies(sent), [BarrierReached(nd.ring, nd.idx)], log);
  }

  lemma WorkNewness(c: Config, w: World, w': World, r: RingId, n: NodeId)
    requires r !in w.stale ==> NothingNew(c, r, n, At(w.sys, n).node, CpgAt(w, n), w.announced)
    requires At(w'.sys, n).node.idx == At(w.sys, n).node.idx && CpgAt(w', n).list == CpgAt(w, n).list
             && w'.stale == w.stale
    requires || w'.announced == w.announced
             || (w'.announced == w.announced[(r, n) := OwnProcesses(CpgAt(w, n))] && CpgAt(w, n).me == n)
    ensures r !in w'.stale ==> NothingNew(c, r, n, At(w'.sys, n).node, CpgAt(w', n), w'.announced)
  {
    hide CpgIndex, At, CpgAt, OwnProcesses;
    OwnAreOwn(CpgAt(w, n));
  }

  lemma WorkNoMore(w: World, w': World, r: RingId, n: NodeId, own: seq<Process>)
    requires forall q :: q != NO_RING ==> NoMore(w, q, n)
    requires w'.stale == w.stale && w'.results == w.results
    requires || w'.announced == w.announced
             || ((r, n) !in w.results && w'.announced == w.announced[(r, n) := own])
    ensures forall q :: q != NO_RING ==> NoMore(w', q, n)
  {
    forall q | q != NO_RING
      ensures NoMore(w', q, n)
    {
      assert NoMore(w, q, n);
    }
  }

  // Delivering.

  /** A message of the service does not bring an own process that is not announced. */
  lemma HandleNewness(c: Config, r: RingId, n: NodeId, nd: Node, s: CpgState, log: Log, pos: nat, announced: Announced)
    requires pos < |log| && log[pos].1.App? && NothingNew(c, r, n, nd, s, announced)
    requires (r, n) in announced && nd.idx <= CpgIndex(c, r) < |Agenda(c, r)| ==>
               !(log[pos].0 == n && IsJoin(log[pos].1))
    ensures NothingNew(c, r, n, nd, HandleMessage(s, log[pos].0, log[pos].1.body), announced)
  {
    hide CpgIndex, Agenda;
    var (from, m) := log[pos];
    var s' := HandleMessage(s, from, m.body);
    forall p: Process | p.nodeid == n && p in s'.list && !(from == n && IsJoin(m))
      ensures p in s.list
    {
      OwnNotAdded(s, from, m.body, p);
    }
  }

  lemma OwnNotAdded(s: CpgState, from: NodeId, m: CpgMessage, p: Process)
    requires p in HandleMessage(s, from, m).list && !(from == p.nodeid && m.ProcJoin?)
    ensures p in s.list
  {
    if m.ProcJoin? {
      CpgLists.InsertElements(s.list, Process(from, m.pid, m.group));
    }
  }

  lemma DeliverAppFlow(c: Config, w: World, ws: WorldStep)
    requires ConfigOk(c) && WorldInv(c, w) && FlowInv(c, w) && WorldEnabled(c, w, ws) && ws.step.Deliver?
    requires DeliversApp(w, ws.step.n)
    ensures FlowInv(c, WorldApply(c, w, ws))
  {
    hide WorldInv, FlowInv, NoMore, JoinsOutside, QueuedOutside, NothingNew, CpgIndex, Agenda, QueueCpg, StoredCpg,
         LocalInv, ActiveInv, WorldApply, Apply, Enabled, WorldEnabled, At, CpgAt, LogIn, OwnProcesses,
         HandleMessage, AtCpg, Inv;
    var n := ws.step.n;
    var w' := WorldApply(c, w, ws);
    WorldParts(c, w, n);
    WorldSystem(c, w, ws);
    FlowParts(c, w, n);
    DeliverApplied(c, w, ws);
    var l, s := At(w.sys, n), CpgAt(w, n);
    var log := LogIn(w.sys, l.cur);
    CurActive(c, n, l, log);
    var r := l.node.ring;
    if r != NO_RING && r !in w.stale {
      if (r, n) in w.announced && l.node.idx <= CpgIndex(c, r) < |Agenda(c, r)| {
        NoLateJoin(c, r, n, l.node, log, l.pos, l.transit, w.announced);
      }
      HandleNewness(c, r, n, l.node, s, log, l.pos, w.announced);
    }
    SameNoMore(w, w', n);
    FlowFrame(c, w, w', n);
  }

  lemma DeliverQuietFlow(c: Config, w: World, ws: WorldStep)
    requires ConfigOk(c) && WorldInv(c, w) && FlowInv(c, w) && WorldEnabled(c, w, ws) && ws.step.Deliver?
    requires !DeliversApp(w, ws.step.n)
    requires var l := At(w.sys, ws.step.n);
             !(AtCpg(l.node) && At(WorldApply(c, w, ws).sys, ws.step.n).node.idx == l.node.idx + 1)
    ensures FlowInv(c, WorldApply(c, w, ws))
  {
    hide WorldInv, FlowInv, NoMore, JoinsOutside, QueuedOutside, NothingNew, CpgIndex, LocalInv, ActiveInv,
         WorldApply, Apply, Enabled, WorldEnabled, At, CpgAt, LogIn, OwnProcesses, DeliverMessage, ReactAll,
         NewCalls, RingInv, Count, SyncActivate, FinishedCount, Inv;
    var n := ws.step.n;
    var w' := WorldApply(c, w, ws);
    WorldParts(c, w, n);
    WorldSystem(c, w, ws);
    FlowParts(c, w, n);
    DeliverApplied(c, w, ws);
    var l, s := At(w.sys, n), CpgAt(w, n);
    var log := LogIn(w.sys, l.cur);
    var (from, m) := log[l.pos];
    HeadTagOk(c, w, l.cur, l.pos);
    CurActive(c, n, l, log);
    var r := l.node.ring;
    var nd' := At(w'.sys, n).node;
    CommitReaction(s, Service(0, false, false), nd');
    if r == NO_RING {
      IdleCalls(l.node, from, m);
    } else {
      DeliverEffect(c, r, n, l.node, log, l.pos, l.transit);
      if nd'.idx == l.node.idx + 1 {
        CommitReaction(s, l.node.services[l.node.idx], nd');
      }
      if r !in w.stale {
        NewnessKept(c, r, n, l.node, nd', s, s, w.announced);
      }
    }
    SameNoMore(w, w', n);
    FlowFrame(c, w, w', n);
  }

  lemma DeliverCommitFlow(c: Config, w: World, ws: WorldStep)
    requires ConfigOk(c) && WorldInv(c, w) && FlowInv(c, w) && WorldEnabled(c, w, ws) && ws.step.Deliver?
    requires !DeliversApp(w, ws.step.n)
    requires var l := At(w.sys, ws.step.n);
             AtCpg(l.node) && At(WorldApply(c, w, ws).sys, ws.step.n).node.idx == l.node.idx + 1
    ensures FlowInv(c, WorldApply(c, w, ws))
  {
    hide WorldInv, FlowInv, NoMore, JoinsOutside, QueuedOutside, CpgIndex, Agenda, StoredCpg, LocalInv, ActiveInv,
         WorldApply, Apply, Enabled, WorldEnabled, At, CpgAt, LogIn, OwnProcesses, DeliverMessage, ReactAll,
         NewCalls, RingInv, Count, SyncActivate, HasCpg, Inv, InLog, InOut;
    var n := ws.step.n;
    var w' := WorldApply(c, w, ws);
    WorldParts(c, w, n);
    WorldSystem(c, w, ws);
    FlowParts(c, w, n);
    DeliverApplied(c, w, ws);
    var l, s := At(w.sys, n), CpgAt(w, n);
    var log := LogIn(w.sys, l.cur);
    var (from, m) := log[l.pos];
    HeadTagOk(c, w, l.cur, l.pos);
    CurActive(c, n, l, log);
    var r := l.node.ring;
    if r == NO_RING {
      IdleCalls(l.node, from, m);
      assert false;
    } else {
      DeliverEffect(c, r, n, l.node, log, l.pos, l.transit);
      ActiveIndex(c, r, n, l.node, log, l.pos, l.transit);
      OwnAreOwn(s);
      CommitNoMore(w, w', r, n, s);
      FlowFrame(c, w, w', n);
    }
  }

  lemma CommitNoMore(w: World, w': World, r: RingId, n: NodeId, s: CpgState)
    requires forall q :: q != NO_RING ==> NoMore(w, q, n)
    requires w'.stale == w.stale && w'.announced == w.announced
    requires exists res :: w'.results == w.results[(r, n) := res] && res.local == OwnProcesses(s)
    requires r !in w.stale ==> forall p :: p in OwnProcesses(s) ==> p in Ann(w.announced, r, n)
    ensures forall q :: q != NO_RING ==> NoMore(w', q, n)
  {
    hide OwnProcesses;
    forall q | q != NO_RING
      ensures NoMore(w', q, n)
    {
      assert NoMore(w, q, n);
    }
  }

  lemma DeliverFlow(c: Config, w: World, ws: WorldStep)
    requires ConfigOk(c) && WorldInv(c, w) && FlowInv(c, w) && WorldEnabled(c, w, ws) && ws.step.Deliver?
    ensures FlowInv(c, WorldApply(c, w, ws))
  {
    hide WorldInv, FlowInv, WorldEnabled, WorldApply, AtCpg;
    var l := At(w.sys, ws.step.n);
    if DeliversApp(w, ws.step.n) {
      DeliverAppFlow(c, w, ws);
    } else if AtCpg(l.node) && At(WorldApply(c, w, ws).sys, ws.step.n).node.idx == l.node.idx + 1 {
      DeliverCommitFlow(c, w, ws);
    } else {
      DeliverQuietFlow(c, w, ws);
    }
  }

  // Sending the head of a queue.

  lemma OriginateJoins(c: Config, r: RingId, n: NodeId, out: seq<Message>, log: Log)
    requires out != [] && QueuedOutside(c, r, n, out, log) && JoinsOutside(c, r, log)
    ensures JoinsOutside(c, r, log + [(n, out[0])])
  {
    hide Count, AllSent;
    var log' := log + [(n, out[0])];
    forall i | 0 <= i < |log'| && IsJoin(log'[i].1)
      ensures Count(log'[..i], log'[i].0, r) == 0 || AllSent(c, r, log'[..i])
    {
      if i < |log| {
        assert log'[i] == log[i] && log'[..i] == log[..i];
      } else {
        assert log'[..i] == log && out[..0] == [];
      }
    }
  }

  lemma OriginateQueued(c: Config, r: RingId, n: NodeId, out: seq<Message>, log: Log)
    requires out != [] && QueuedOutside(c, r, n, out, log) && RingInv(c, r, log + [(n, out[0])])
    ensures QueuedOutside(c, r, n, out[1..], log + [(n, out[0])])
  {
    hide Count, AllSent, RingInv;
    var rest, log' := out[1..], log + [(n, out[0])];
    CountSnoc(log, (n, out[0]), n, r);
    forall a | 0 <= a < |rest| && IsJoin(rest[a])
      ensures Count(log', n, r) + Pending(rest[..a], r) == 0 || AllSent(c, r, log')
    {
      assert rest[a] == out[a + 1] && out[..a + 1][1..] == rest[..a];
      if AllSent(c, r, log) {
        AllSentGrows(c, r, log, (n, out[0]));
      }
    }
  }

  lemma OthersQueued(c: Config, r: RingId, m: NodeId, out: seq<Message>, log: Log, e: (NodeId, Message))
    requires QueuedOutside(c, r, m, out, log) && RingInv(c, r, log + [e]) && e.0 != m
    ensures QueuedOutside(c, r, m, out, log + [e])
  {
    hide Count, AllSent, RingInv, Pending;
    CountSnoc(log, e, m, r);
    if AllSent(c, r, log) {
      AllSentGrows(c, r, log, e);
    }
  }

  lemma OriginateFlow(c: Config, w: World, ws: WorldStep)
    requires ConfigOk(c) && WorldInv(c, w) && FlowInv(c, w) && WorldEnabled(c, w, ws) && ws.step.Originate?
    ensures FlowInv(c, WorldApply(c, w, ws))
  {
    hide WorldInv, NoMore, JoinsOutside, QueuedOutside, NothingNew, LocalInv, ActiveInv, WorldApply, Apply, Enabled,
         WorldEnabled, At, CpgAt, LogIn, Inv, RingInv;
    var n := ws.step.n;
    var w' := WorldApply(c, w, ws);
    WorldParts(c, w, n);
    WorldSystem(c, w, ws);
    OriginateApplied(c, w, ws);
    var l := At(w.sys, n);
    var r, e := l.cur, (n, l.node.out[0]);
    OriginateLocal(c, n, l, LogIn(w.sys, r));
    NewRing(c, w'.sys, r);
    assert NodeFlow(c, w, n);
    forall m
      ensures NodeFlow(c, w', m)
    {
      assert NodeFlow(c, w, m);
      if At(w.sys, m).node.ring == r {
        if m == n {
          OriginateQueued(c, r, n, l.node.out, LogIn(w.sys, r));
          OutIrrelevant(c, r, n, l.node, At(w'.sys, n).node, CpgAt(w, n), w.announced);
        } else {
          OthersQueued(c, r, m, At(w.sys, m).node.out, LogIn(w.sys, r), e);
        }
      }
    }
    forall q | q != NO_RING
      ensures JoinsOutside(c, q, LogIn(w'.sys, q))
    {
      assert JoinsOutside(c, q, LogIn(w.sys, q));
      if q == r {
        OriginateJoins(c, r, n, l.node.out, LogIn(w.sys, r));
      }
    }
    forall q, m | q != NO_RING
      ensures NoMore(w', q, m)
    {
      assert NoMore(w, q, m);
      SameNoMoreAt(w, w', q, m);
    }
  }

  lemma NewRing(c: Config, s: System, r: RingId)
    requires Inv(c, s) && r != NO_RING
    ensures RingInv(c, r, LogIn(s, r))
  {
    hide RingInv, LocalInv;
  }

  lemma OutIrrelevant(c: Config, r: RingId, n: NodeId, nd: Node, nd': Node, s: CpgState, announced: Announced)
    requires nd'.idx == nd.idx
    ensures NothingNew(c, r, n, nd, s, announced) <==> NothingNew(c, r, n, nd', s, announced)
  {
  }

  lemma SameNoMoreAt(w: World, w': World, r: RingId, n: NodeId)
    requires w'.stale == w.stale && w'.announced == w.announced && w'.results == w.results && NoMore(w, r, n)
    ensures NoMore(w', r, n)
  {
  }

  // ---- every run ----

  lemma FlowStep(c: Config, w: World, ws: WorldStep)
    requires ConfigOk(c) && WorldInv(c, w) && FlowInv(c, w) && WorldEnabled(c, w, ws)
    ensures FlowInv(c, WorldApply(c, w, ws))
  {
    hide WorldInv, FlowInv, WorldEnabled, WorldApply;
    match ws.step
    case RegularConf(_, _, _) => RegularFlow(c, w, ws);
    case TransitionalConf(_, _) => TransitionalFlow(c, w, ws);
    case Originate(_) => OriginateFlow(c, w, ws);
    case Deliver(_) => DeliverFlow(c, w, ws);
    case Skip(_) => SkipFlow(c, w, ws);
    case DoWork(_, _, _) => WorkFlow(c, w, ws);
    case Send(_, _) => SendFlow(c, w, ws);
    case Exchange(_, _, _) => ExchangeFlow(c, w, ws);
    case Restart(_) => RestartFlow(c, w, ws);
  }

  lemma {:induction false} FlowReachable(c: Config, steps: seq<WorldStep>)
    requires ConfigOk(c) && WorldExec(c, steps).Some?
    ensures FlowInv(c, WorldExec(c, steps).value)
  {
    hide FlowInv, WorldInv, WorldEnabled, WorldApply;
    if steps == [] {
      FirstFlow(c);
    } else {
      var k := |steps| - 1;
      FlowReachable(c, steps[..k]);
      WorldReachable(c, steps[..k]);
      FlowStep(c, WorldExec(c, steps[..k]).value, steps[k]);
    }
  }

  lemma FirstFlow(c: Config)
    ensures FlowInv(c, FIRST)
  {
  }

  /** In every run: what a node has when it activates is part of what it announced. So
      two members agree if and only if no announced process of theirs has gone since. */
  lemma OnlyExits(c: Config, steps: seq<WorldStep>, w: World, r: RingId, a: NodeId, b: NodeId)
    requires ConfigOk(c) && WorldExec(c, steps) == Some(w) && r !in w.stale
    requires a != b && Done(w, r, a) && Done(w, r, b)
    ensures forall p :: p in w.results[(r, a)].local ==> p in Ann(w.announced, r, a)
    ensures SameProcesses(w.results[(r, a)].list, w.results[(r, b)].list) <==>
            && (forall p :: p in Ann(w.announced, r, a) ==> p in w.results[(r, a)].local)
            && (forall p :: p in Ann(w.announced, r, b) ==> p in w.results[(r, b)].local)
  {
    FlowReachable(c, steps);
    Agreement(c, steps, w, r, a, b);
    hide NodeFlow, JoinsOutside, Ann;
    assert NoMore(w, r, a) && NoMore(w, r, b);
  }
}
