/** After an uninterrupted round every member of a ring has the same processes: the
    own processes of all members. The proof rests on the barrier: a node activates
    the service only after it has delivered every member's joinlist. */
module CpgConvergence {
  import opened Wrappers
  import opened Sync
  import opened SyncLists
  import opened SyncProtocol
  import opened SyncInvariant
  import opened SyncSafety
  import opened Cpg
  import opened CpgLists
  import opened CpgWorld

  type Announced = map<(RingId, NodeId), seq<Process>>

  // ---- joinlists in the log and in the queues ----

  /** A joinlist message of a sender mentions a process of the sender. */
  ghost predicate Carries(from: NodeId, m: Message, p: Process) {
    IsJoinlist(m) && p.nodeid == from && Mentions(m.body.entries, p)
  }

  ghost predicate InLog(log: Log, p: Process) {
    exists i :: 0 <= i < |log| && Carries(log[i].0, log[i].1, p)
  }

  ghost predicate InOut(out: seq<Message>, n: NodeId, p: Process) {
    exists i :: 0 <= i < |out| && Carries(n, out[i], p)
  }

  function Ann(announced: Announced, r: RingId, n: NodeId): seq<Process> {
    if (r, n) in announced then announced[(r, n)] else []
  }

  function IndexOf(ids: seq<ServiceId>, x: ServiceId): (k: nat)
    ensures k <= |ids|
    ensures k < |ids| ==> ids[k] == x
    ensures forall i :: 0 <= i < k ==> ids[i] != x
  {
    if ids == [] || ids[0] == x then 0 else 1 + IndexOf(ids[1..], x)
  }

  /** The place of the process group service in the agenda of a ring. */
  ghost function CpgIndex(c: Config, r: RingId): nat {
    IndexOf(Agenda(c, r), CPG_SERVICE)
  }

  ghost predicate HasCpg(c: Config, r: RingId, n: NodeId) {
    CPG_SERVICE in c.loaded(r, n)
  }

  lemma InLogSnoc(log: Log, e: (NodeId, Message), p: Process)
    ensures InLog(log + [e], p) <==> InLog(log, p) || Carries(e.0, e.1, p)
  {
    var all := log + [e];
    if InLog(log, p) {
      var i :| 0 <= i < |log| && Carries(log[i].0, log[i].1, p);
      assert all[i] == log[i];
    }
    if Carries(e.0, e.1, p) {
      assert all[|log|] == e;
    }
    if InLog(all, p) {
      var i :| 0 <= i < |all| && Carries(all[i].0, all[i].1, p);
      if i < |log| {
        assert log[i] == all[i];
      }
    }
  }

  lemma InOutAppend(out: seq<Message>, more: seq<Message>, n: NodeId, p: Process)
    ensures InOut(out + more, n, p) <==> InOut(out, n, p) || InOut(more, n, p)
  {
    var all := out + more;
    if InOut(out, n, p) {
      var i :| 0 <= i < |out| && Carries(n, out[i], p);
      assert all[i] == out[i];
    }
    if InOut(more, n, p) {
      var i :| 0 <= i < |more| && Carries(n, more[i], p);
      assert all[|out| + i] == more[i];
    }
    if InOut(all, n, p) {
      var i :| 0 <= i < |all| && Carries(n, all[i], p);
      if i < |out| {
        assert out[i] == all[i];
      } else {
        assert more[i - |out|] == all[i];
      }
    }
  }

  lemma InOutHead(out: seq<Message>, n: NodeId, p: Process)
    requires out != []
    ensures InOut(out, n, p) <==> Carries(n, out[0], p) || InOut(out[1..], n, p)
  {
    assert out == [out[0]] + out[1..];
    InOutAppend([out[0]], out[1..], n, p);
    if Carries(n, out[0], p) {
      assert Carries(n, [out[0]][0], p);
    }
  }

  // ---- the invariant ----

  /** The joinlists in the log of a ring: only announced processes, sent by members;
      and wherever a member's barrier message for the service is in the log, its
      joinlist is before it. */
  ghost predicate LogCpg(c: Config, r: RingId, log: Log, announced: Announced) {
    && (forall i :: 0 <= i < |log| ==> log[i].0 in c.members(r))
    && (forall i, p :: 0 <= i < |log| && Carries(log[i].0, log[i].1, p) ==> p in Ann(announced, r, p.nodeid))
    && (forall m, p :: p in Ann(announced, r, m) ==> p.nodeid == m)
    && (forall m :: m in c.members(r) && Count(log, m, r) > CpgIndex(c, r) + 1 && HasCpg(c, r, m) ==>
          (r, m) in announced)
    && (forall i, m, p :: 0 <= i <= |log| && m in c.members(r)
          && Count(log[..i], m, r) > CpgIndex(c, r) + 1 && p in Ann(announced, r, m)
          ==> InLog(log[..i], p))
  }

  /** What an active node has announced is in the log or ahead of its barrier message
      in its queue. */
  ghost predicate QueueCpg(c: Config, r: RingId, n: NodeId, nd: Node, log: Log, announced: Announced) {
    var k := CpgIndex(c, r);
    && ((r, n) in announced <==> HasCpg(c, r, n) && FinishedCount(nd) > k)
    && (forall p :: p in Ann(announced, r, n) ==> InLog(log, p) || InOut(nd.out, n, p))
    && (forall p :: InOut(nd.out, n, p) ==> p in Ann(announced, r, n) && Count(log, n, r) <= k + 1)
    && (forall a, b, p :: 0 <= a < |nd.out| && 0 <= b < |nd.out|
          && Carries(n, nd.out[a], p) && nd.out[b] == BarrierReached(r, k)
          ==> a < b)
  }

  /** Until it activates the service a node has stored what was delivered, and its own
      processes are those it announced, unless one came or went meanwhile. */
  ghost predicate StoredCpg(c: Config, r: RingId, n: NodeId, nd: Node, s: CpgState, heard: Log,
                            announced: Announced, moved: bool) {
    nd.idx <= CpgIndex(c, r) < |Agenda(c, r)| ==>
      && (forall p :: p in s.stored <==> InLog(heard, p))
      && ((r, n) in announced && !moved ==>
            forall p: Process :: p.nodeid == n ==> (p in s.list <==> p in Ann(announced, r, n)))
  }

  ghost predicate ActiveCpg(c: Config, r: RingId, n: NodeId, l: Local, s: CpgState, log: Log,
                            announced: Announced, moved: bool) {
    && QueueCpg(c, r, n, l.node, log, announced)
    && (forall p :: !InOut(l.held, n, p))
    && l.pos <= |log|
    && StoredCpg(c, r, n, l.node, s, log[..l.pos], announced, moved)
  }

  /** What a node ended with: its own processes and those announced by the others. */
  ghost predicate ResultOk(c: Config, r: RingId, n: NodeId, res: Result, announced: Announced, moved: bool) {
    && n in c.members(r)
    && ListOk(res.list)
    && (forall m :: m in c.members(r) && HasCpg(c, r, m) ==> (r, m) in announced)
    && (forall p :: p in res.list <==>
          if p.nodeid == n then p in res.local
          else p.nodeid in c.members(r) && p in Ann(announced, r, p.nodeid))
    && (forall p :: p in res.local ==> p.nodeid == n)
    && (!moved ==> forall p :: p in res.local <==> p in Ann(announced, r, n))
  }

  ghost predicate BasicCpg(n: NodeId, l: Local, s: CpgState) {
    && s.me == n
    && ListOk(s.list)
    && n !in s.downlist
    && (l.cur == NO_RING ==> s.oldMembers == [])
    && (l.transit && l.cur != NO_RING ==> n in l.node.trans)
  }

  ghost predicate NodeCpg(c: Config, w: World, n: NodeId) {
    var l := At(w.sys, n);
    var r := l.node.ring;
    r != NO_RING ==>
      && (r !in w.stale ==>
            ActiveCpg(c, r, n, l, CpgAt(w, n), LogIn(w.sys, r), w.announced, (r, n) in w.moved))
      && ((r, n) in w.results ==> l.node.idx > CpgIndex(c, r))
  }

  /** The record of a round. */
  ghost predicate RecordOk(c: Config, w: World, r: RingId, n: NodeId) {
    && ((r, n) in w.results ==>
          && r in At(w.sys, n).joined
          && (r !in w.stale ==> ResultOk(c, r, n, w.results[(r, n)], w.announced, (r, n) in w.moved)))
    && ((r, n) in w.announced ==> r in At(w.sys, n).joined)
  }

  ghost predicate WorldInv(c: Config, w: World) {
    && Inv(c, w.sys)
    && (forall n :: BasicCpg(n, At(w.sys, n), CpgAt(w, n)))
    && (forall n :: NodeCpg(c, w, n))
    && (forall r :: r != NO_RING && r !in w.stale ==> LogCpg(c, r, LogIn(w.sys, r), w.announced))
    && (forall r, n :: r != NO_RING ==> RecordOk(c, w, r, n))
  }

  // ---- one node at a time ----

  lemma AgendaIndex(c: Config, r: RingId, i: nat)
    requires i < |Agenda(c, r)|
    ensures Agenda(c, r)[i] == CPG_SERVICE <==> i == CpgIndex(c, r)
  {
    var a := Agenda(c, r);
    var k := IndexOf(a, CPG_SERVICE);
    assert IncreasingIds(a);
    if a[i] == CPG_SERVICE {
      assert k <= i;
    }
  }

  /** An active node past the service list knows where the service is. */
  lemma ActiveIndex(c: Config, r: RingId, n: NodeId, nd: Node, log: Log, pos: nat, transit: bool)
    requires ActiveInv(c, r, n, nd, log, pos, transit)
    ensures Round(nd) > 0 && nd.idx < |nd.services| ==>
              && nd.idx < |Agenda(c, r)| && |nd.services| == |Agenda(c, r)|
              && (nd.services[nd.idx].id == CPG_SERVICE <==> nd.idx == CpgIndex(c, r))
              && (AtCpg(nd) <==> nd.idx == CpgIndex(c, r) && HasCpg(c, r, n))
    ensures Completed(nd) ==> nd.idx == |Agenda(c, r)|
  {
    if Round(nd) > 0 {
      PastBuild(c, r, n, nd, log, pos, transit);
      assert |Ids(nd.services)| == |nd.services|;
      if nd.idx < |nd.services| {
        AgendaIndex(c, r, nd.idx);
        assert Ids(nd.services)[nd.idx] == nd.services[nd.idx].id;
        NotActivated(nd.services, Known(c, r, n, log[..pos]), ToSet(c.loaded(r, n)), nd.idx);
      }
    }
  }

  /** What a delivered message does to the node, as far as the service is concerned. */
  lemma DeliverEffect(c: Config, r: RingId, n: NodeId, nd: Node, log: Log, pos: nat, transit: bool)
    requires ConfigOk(c) && r != NO_RING
    requires RingInv(c, r, log) && ActiveInv(c, r, n, nd, log, pos, transit) && pos < |log|
    ensures var nd' := DeliverMessage(nd, log[pos].0, log[pos].1);
            && nd'.out == nd.out && nd'.ring == nd.ring && nd'.trans == nd.trans
            && FinishedCount(nd') == FinishedCount(nd)
            && (nd'.idx == nd.idx || (nd'.idx == nd.idx + 1 && nd.idx < |nd.services|))
            && NewCalls(nd, nd') ==
               (if nd'.idx == nd.idx + 1
                then Call(nd.services[nd.idx], Activated(nd.services[nd.idx].id)) else [])
            && (nd'.idx == nd.idx + 1 ==>
                  && log[pos].1.BarrierReached? && Round(nd) > 0
                  && forall m :: m in c.members(r) ==> Count(log[..pos + 1], m, r) == nd.idx + 2)
  {
    var (from, m) := log[pos];
    var nd' := DeliverMessage(nd, from, m);
    SameOut(nd, from, m);
    if !Tagged(m, r) {
      DeliverForeign(c, r, n, nd, log, pos, transit);
    } else if m.ServiceBuild? {
      AcceptedBuildIsCurrent(c, r, n, nd, log, pos, transit);
      BuildEffect(nd, from, r, m.services);
    } else {
      AcceptedBarrierIsCurrent(c, r, n, nd, log, pos, transit);
      BarrierEffect(nd, from, r);
      if nd'.idx == nd.idx + 1 {
        DeliverActive(c, r, n, nd, log, pos, transit);
        CommitCounts(c, r, n, nd', log, pos + 1, transit);
      }
    }
  }

  /** A node that has just committed has heard the same number from everyone. */
  lemma CommitCounts(c: Config, r: RingId, n: NodeId, nd: Node, log: Log, pos: nat, transit: bool)
    requires ActiveInv(c, r, n, nd, log, pos, transit)
    requires nd.idx > 0 && (Completed(nd) || forall i :: 0 <= i < |nd.processors| ==> !nd.processors[i].received)
    ensures forall m :: m in c.members(r) ==> Count(log[..pos], m, r) == nd.idx + 1
  {
    forall m | m in c.members(r)
      ensures Count(log[..pos], m, r) == nd.idx + 1
    {
      var i := MemberIndex(c, r, m);
    }
  }

  lemma BuildEffect(nd: Node, from: NodeId, r: RingId, ids: seq<ServiceId>)
    requires nd.ring == r && nd.state == SERVICELIST_BUILD && nd.idx == 0
    ensures var nd' := BuildHandler(nd, from, r, ids);
            nd'.idx == 0 && nd'.calls == nd.calls && nd'.trans == nd.trans && FinishedCount(nd') == FinishedCount(nd)
  {
    hide AddUnknown, SortServices;
  }

  lemma BarrierEffect(nd: Node, from: NodeId, r: RingId)
    requires nd.ring == r && nd.idx < |nd.services| && (nd.state == PROCESS || nd.state == BARRIER)
    ensures var nd' := BarrierHandler(nd, from, r);
            && nd'.trans == nd.trans
            && (nd'.idx == nd.idx ==> nd'.calls == nd.calls && nd'.state == nd.state && nd'.services == nd.services)
            && (nd'.idx != nd.idx ==>
                  && nd'.idx == nd.idx + 1
                  && nd'.calls == nd.calls + Call(nd.services[nd.idx], Activated(nd.services[nd.idx].id))
                  && FinishedCount(nd') == nd.idx + 1
                  && (nd'.idx == |nd'.services|
                      || forall i :: 0 <= i < |nd'.processors| ==> !nd'.processors[i].received))
  {
  }

  // ---- delivering ----

  /** The queue condition depends on the queue and on what is finished only. */
  lemma QueueSame(c: Config, r: RingId, n: NodeId, nd: Node, nd': Node, log: Log, announced: Announced)
    requires QueueCpg(c, r, n, nd, log, announced)
    requires nd'.out == nd.out && FinishedCount(nd') == FinishedCount(nd)
    ensures QueueCpg(c, r, n, nd', log, announced)
  {
  }

  /** A message of the service: stored or applied to the list. */
  lemma HandleStored(c: Config, r: RingId, n: NodeId, nd: Node, s: CpgState, log: Log, pos: nat,
                     announced: Announced, moved: bool, moved': bool)
    requires pos < |log| && log[pos].1.App? && s.me == n
    requires StoredCpg(c, r, n, nd, s, log[..pos], announced, moved)
    requires moved ==> moved'
    requires (&& log[pos].0 == n && (log[pos].1.body.ProcJoin? || log[pos].1.body.ProcLeave?)
              && (r, n) in announced && nd.idx <= CpgIndex(c, r)) ==> moved'
    ensures StoredCpg(c, r, n, nd, HandleMessage(s, log[pos].0, log[pos].1.body), log[..pos + 1], announced, moved')
  {
    var (from, m) := log[pos];
    var s' := HandleMessage(s, from, m.body);
    assert log[..pos + 1] == log[..pos] + [log[pos]];
    if nd.idx <= CpgIndex(c, r) < |Agenda(c, r)| {
      forall p
        ensures p in s'.stored <==> InLog(log[..pos + 1], p)
      {
        InLogSnoc(log[..pos], log[pos], p);
        if m.body.Joinlist? {
          StoreElements(s.stored, from, m.body.entries, p);
        }
      }
      forall p: Process | p.nodeid == n && (from != n || m.body.Joinlist? || m.body.Downlist?)
        ensures p in s'.list <==> p in s.list
      {
        OthersKeepOwn(s, from, m.body, p);
      }
    }
  }

  /** Messages of other nodes do not touch a node's own processes. */
  lemma OthersKeepOwn(s: CpgState, from: NodeId, m: CpgMessage, p: Process)
    requires p.nodeid != from || m.Joinlist? || m.Downlist?
    ensures p in HandleMessage(s, from, m).list <==> p in s.list
  {
    if m.ProcJoin? {
      CpgLists.InsertElements(s.list, Process(from, m.pid, m.group));
    }
  }

  /** A synchronization message that does not activate the service. */
  lemma SyncStored(c: Config, r: RingId, n: NodeId, nd: Node, nd': Node, s: CpgState, log: Log, pos: nat,
                   announced: Announced, moved: bool)
    requires pos < |log| && !log[pos].1.App?
    requires nd.idx <= nd'.idx
    requires StoredCpg(c, r, n, nd, s, log[..pos], announced, moved)
    ensures StoredCpg(c, r, n, nd', s, log[..pos + 1], announced, moved)
  {
    assert log[..pos + 1] == log[..pos] + [log[pos]];
    forall p
      ensures InLog(log[..pos + 1], p) <==> InLog(log[..pos], p)
    {
      InLogSnoc(log[..pos], log[pos], p);
    }
  }

  /** The reaction to the calls of a commit. */
  lemma CommitReaction(s: CpgState, sv: Service, nd: Node)
    ensures ReactAll(s, Call(sv, Activated(sv.id)), nd) ==
            if sv.loaded && sv.id == CPG_SERVICE then SyncActivate(s) else s
    ensures ReactAll(s, [], nd) == s
  {
    assert [Activated(sv.id)][..0] == [];
  }

  /** All that activation needs: a member's joinlist is stored when its barrier
      message has been delivered. */
  lemma StoredAtCommit(c: Config, r: RingId, n: NodeId, s: CpgState, log: Log, pos: nat, announced: Announced,
                       p: Process)
    requires pos < |log| && !log[pos].1.App?
    requires LogCpg(c, r, log, announced)
    requires forall m :: m in c.members(r) ==> Count(log[..pos + 1], m, r) == CpgIndex(c, r) + 2
    requires forall q :: q in s.stored <==> InLog(log[..pos], q)
    ensures p in s.stored <==> p.nodeid in c.members(r) && p in Ann(announced, r, p.nodeid)
  {
    assert log[..pos + 1] == log[..pos] + [log[pos]];
    InLogSnoc(log[..pos], log[pos], p);
    if InLog(log[..pos], p) {
      var i :| 0 <= i < |log[..pos]| && Carries(log[..pos][i].0, log[..pos][i].1, p);
      assert Carries(log[i].0, log[i].1, p);
    }
    if p.nodeid in c.members(r) && p in Ann(announced, r, p.nodeid) {
      assert InLog(log[..pos + 1], p);
    }
  }

  /** The result of activating the service. */
  lemma CommitResult(c: Config, r: RingId, n: NodeId, nd: Node, s: CpgState, log: Log, pos: nat,
                     announced: Announced, moved: bool)
    requires n in c.members(r) && pos < |log| && !log[pos].1.App?
    requires LogCpg(c, r, log, announced)
    requires QueueCpg(c, r, n, nd, log, announced) && HasCpg(c, r, n) && FinishedCount(nd) > CpgIndex(c, r)
    requires nd.idx == CpgIndex(c, r) < |Agenda(c, r)|
    requires StoredCpg(c, r, n, nd, s, log[..pos], announced, moved)
    requires forall m :: m in c.members(r) ==> Count(log[..pos + 1], m, r) == CpgIndex(c, r) + 2
    requires s.me == n && ListOk(s.list) && n !in s.downlist
    ensures ResultOk(c, r, n, Result(OwnProcesses(s), SyncActivate(s).list), announced, moved)
  {
    var res := Result(OwnProcesses(s), SyncActivate(s).list);
    ActivateList(s);
    forall p
      ensures p in res.list <==>
              if p.nodeid == n then p in res.local
              else p.nodeid in c.members(r) && p in Ann(announced, r, p.nodeid)
    {
      StoredAtCommit(c, r, n, s, log, pos, announced, p);
    }
    forall m | m in c.members(r) && HasCpg(c, r, m)
      ensures (r, m) in announced
    {
      CountGrows(log, pos + 1, m, r);
    }
    if !moved {
      forall p
        ensures p in res.local <==> p in Ann(announced, r, n)
      {
        assert p in res.local <==> p in s.list && p.nodeid == n;
      }
    }
  }

  // ---- steps of the world ----

  /** A step of one node that changes no log and announces nothing. */
  lemma WorldFrame(c: Config, w: World, w': World, n: NodeId)
    requires WorldInv(c, w) && Inv(c, w'.sys)
    requires forall m :: m != n ==> At(w'.sys, m) == At(w.sys, m) && CpgAt(w', m) == CpgAt(w, m)
    requires forall r :: LogIn(w'.sys, r) == LogIn(w.sys, r)
    requires At(w.sys, n).joined <= At(w'.sys, n).joined
    requires w'.announced == w.announced && w'.results == w.results && w.stale <= w'.stale
    requires forall r, m :: m != n || (r, m) in w.results ==> ((r, m) in w'.moved <==> (r, m) in w.moved)
    requires BasicCpg(n, At(w'.sys, n), CpgAt(w', n)) && NodeCpg(c, w', n)
    ensures WorldInv(c, w')
  {
    hide Inv, BasicCpg, LogCpg, ActiveCpg, ResultOk, CpgIndex;
    forall m
      ensures BasicCpg(m, At(w'.sys, m), CpgAt(w', m)) && NodeCpg(c, w', m)
    {
      assert BasicCpg(m, At(w.sys, m), CpgAt(w, m)) && NodeCpg(c, w, m);
    }
    forall r, m | r != NO_RING
      ensures RecordOk(c, w', r, m)
    {
      assert RecordOk(c, w, r, m);
    }
  }

  lemma StepOther(c: Config, w: World, ws: WorldStep, m: NodeId)
    requires WorldEnabled(c, w, ws) && m != ws.step.n
    ensures At(WorldApply(c, w, ws).sys, m) == At(w.sys, m)
    ensures CpgAt(WorldApply(c, w, ws), m) == CpgAt(w, m)
  {
    hide AtCpg, OwnProcesses, CpgAfter, DeliverMessage, Regular, Transitional, Work, LogIn, Milestones, Bodies,
         WorldEnabled;
  }

  lemma SameLogs(c: Config, w: World, ws: WorldStep)
    requires WorldEnabled(c, w, ws) && !ws.step.Originate?
    ensures forall r :: LogIn(WorldApply(c, w, ws).sys, r) == LogIn(w.sys, r)
  {
    hide AtCpg, OwnProcesses, CpgAfter, DeliverMessage, Regular, Transitional, Work, At, Milestones, Bodies,
         WorldEnabled;
  }

  // Sending, skipping.

  lemma SendWorld(c: Config, w: World, ws: WorldStep)
    requires ConfigOk(c) && WorldInv(c, w) && WorldEnabled(c, w, ws) && ws.step.Send?
    ensures WorldInv(c, WorldApply(c, w, ws))
  {
    hide WorldInv, Inv, CpgIndex, Count, LocalInv;
    var n := ws.step.n;
    var w' := WorldApply(c, w, ws);
    WorldParts(c, w, n);
    InvStep(c, w.sys, ws.step);
    SameLogs(c, w, ws);
    var l := At(w.sys, n);
    if l.node.ring != NO_RING && l.node.ring !in w.stale {
      QueueApp(c, l.node.ring, n, l.node, At(w'.sys, n).node, LogIn(w.sys, l.node.ring), w.announced,
               [App(ws.step.body)]);
    }
    WorldFrame(c, w, w', n);
  }

  /** More unsent messages that are no joinlists. */
  lemma QueueApp(c: Config, r: RingId, n: NodeId, nd: Node, nd': Node, log: Log, announced: Announced,
                 more: seq<Message>)
    requires QueueCpg(c, r, n, nd, log, announced)
    requires forall i :: 0 <= i < |more| ==> !IsJoinlist(more[i])
    requires forall i :: 0 <= i < |more| ==> more[i] != BarrierReached(r, CpgIndex(c, r))
    requires nd'.out == nd.out + more && FinishedCount(nd') == FinishedCount(nd)
    ensures QueueCpg(c, r, n, nd', log, announced)
  {
    hide CpgIndex, Count;
    forall p
      ensures InOut(nd.out + more, n, p) <==> InOut(nd.out, n, p)
    {
      InOutAppend(nd.out, more, n, p);
    }
    var out := nd.out + more;
    forall a, b, p | && 0 <= a < |out| && 0 <= b < |out|
                     && Carries(n, out[a], p) && out[b] == BarrierReached(r, CpgIndex(c, r))
      ensures a < b
    {
      assert a < |nd.out| && b < |nd.out|;
    }
  }

  /** A node that is through has sent its joinlist. */
  lemma JoinlistSent(c: Config, r: RingId, n: NodeId, nd: Node, log: Log, pos: nat, transit: bool, announced: Announced)
    requires ActiveInv(c, r, n, nd, log, pos, transit) && Completed(nd)
    requires QueueCpg(c, r, n, nd, log, announced)
    ensures forall p :: !InOut(nd.out, n, p)
  {
    ActiveIndex(c, r, n, nd, log, pos, transit);
    NothingLeft(c, r, n, nd, log, pos, transit);
    hide ActiveInv, Count, InOut, Agenda, CpgIndex;
    assert Round(nd) == |Agenda(c, r)| + 1 && FinishedCount(nd) <= |Agenda(c, r)|;
  }

  /** Another queue instead, with messages of the two. */
  lemma ExchangeActive(c: Config, r: RingId, n: NodeId, l: Local, s: CpgState, log: Log, announced: Announced,
                       moved: bool, out: seq<Message>, held: seq<Message>)
    requires ActiveInv(c, r, n, l.node, log, l.pos, l.transit) && Completed(l.node)
    requires ActiveCpg(c, r, n, l, s, log, announced, moved)
    requires forall i :: 0 <= i < |out| ==> out[i] in l.node.out || out[i] in l.held
    requires forall i :: 0 <= i < |held| ==> held[i] in l.node.out || held[i] in l.held
    ensures ActiveCpg(c, r, n, l.(node := l.node.(out := out), held := held), s, log, announced, moved)
  {
    JoinlistSent(c, r, n, l.node, log, l.pos, l.transit, announced);
    hide ActiveInv, CpgIndex, Count, Carries, Completed;
    forall p
      ensures !InOut(out, n, p) && !InOut(held, n, p)
    {
      NotCarried(l.node.out, l.held, n, p, out);
      NotCarried(l.node.out, l.held, n, p, held);
    }
    QueueEmpty(c, r, n, l.node, l.node.(out := out), log, announced);
  }

  lemma NoneCarried(out: seq<Message>, n: NodeId)
    requires forall p :: !InOut(out, n, p)
    ensures forall a, p :: 0 <= a < |out| ==> !Carries(n, out[a], p)
  {
    forall a, p | 0 <= a < |out|
      ensures !Carries(n, out[a], p)
    {
      assert !InOut(out, n, p);
    }
  }

  /** Queues without joinlists are all the same. */
  lemma QueueEmpty(c: Config, r: RingId, n: NodeId, nd: Node, nd': Node, log: Log, announced: Announced)
    requires QueueCpg(c, r, n, nd, log, announced) && FinishedCount(nd') == FinishedCount(nd)
    requires forall p :: !InOut(nd.out, n, p) && !InOut(nd'.out, n, p)
    ensures QueueCpg(c, r, n, nd', log, announced)
  {
    hide CpgIndex, Count, Carries, InLog;
    NoneCarried(nd'.out, n);
  }

  lemma NotCarried(a: seq<Message>, b: seq<Message>, n: NodeId, p: Process, out: seq<Message>)
    requires !InOut(a, n, p) && !InOut(b, n, p)
    requires forall i :: 0 <= i < |out| ==> out[i] in a || out[i] in b
    ensures !InOut(out, n, p)
  {
  }

  lemma ExchangeWorld(c: Config, w: World, ws: WorldStep)
    requires ConfigOk(c) && WorldInv(c, w) && WorldEnabled(c, w, ws) && ws.step.Exchange?
    ensures WorldInv(c, WorldApply(c, w, ws))
  {
    hide WorldInv, Inv, CpgIndex, Count, LocalInv, ActiveInv, ActiveCpg, Completed;
    var Exchange(n, out, held) := ws.step;
    var w' := WorldApply(c, w, ws);
    WorldParts(c, w, n);
    InvStep(c, w.sys, ws.step);
    SameLogs(c, w, ws);
    var l := At(w.sys, n);
    BothClear(c, n, l, LogIn(w.sys, l.cur), out);
    if l.cur !in w.stale {
      ExchangeActive(c, l.cur, n, l, CpgAt(w, n), LogIn(w.sys, l.cur), w.announced, (l.cur, n) in w.moved, out, held);
    }
    WorldFrame(c, w, w', n);
  }

  lemma RestartWorld(c: Config, w: World, ws: WorldStep)
    requires ConfigOk(c) && WorldInv(c, w) && WorldEnabled(c, w, ws) && ws.step.Restart?
    ensures WorldInv(c, WorldApply(c, w, ws))
  {
    hide WorldInv, Inv, CpgIndex, ActiveCpg;
    var w' := WorldApply(c, w, ws);
    WorldParts(c, w, ws.step.n);
    InvStep(c, w.sys, ws.step);
    SameLogs(c, w, ws);
    WorldFrame(c, w, w', ws.step.n);
  }

  lemma SkipWorld(c: Config, w: World, ws: WorldStep)
    requires ConfigOk(c) && WorldInv(c, w) && WorldEnabled(c, w, ws) && ws.step.Skip?
    ensures WorldInv(c, WorldApply(c, w, ws))
  {
    hide WorldInv, Inv, CpgIndex, QueueCpg, LocalInv, ActiveInv, WorldApply, Apply, Enabled, WorldEnabled, At, CpgAt,
         LogIn;
    var n := ws.step.n;
    var w' := WorldApply(c, w, ws);
    WorldParts(c, w, n);
    WorldSystem(c, w, ws);
    SkipApplied(c, w, ws);
    var l := At(w.sys, n);
    CurActive(c, n, l, LogIn(w.sys, l.cur));
    if l.node.ring != NO_RING {
      SkippingCompleted(c, l.cur, n, l.node, LogIn(w.sys, l.cur), l.pos);
    }
    WorldFrame(c, w, w', n);
  }

  lemma SkipApplied(c: Config, w: World, ws: WorldStep)
    requires WorldEnabled(c, w, ws) && ws.step.Skip?
    ensures var n := ws.step.n;
            var l, w' := At(w.sys, n), WorldApply(c, w, ws);
            && l.transit && l.cur != NO_RING && l.pos < |LogIn(w.sys, l.cur)|
            && At(w'.sys, n) == l.(pos := l.pos + 1) && CpgAt(w', n) == CpgAt(w, n)
            && w'.announced == w.announced && w'.stale == w.stale && w'.moved == w.moved && w'.results == w.results
  {
    hide AtCpg, OwnProcesses, LogIn;
  }

  /** A node that skips messages has completed its ring. */
  lemma SkippingCompleted(c: Config, r: RingId, n: NodeId, nd: Node, log: Log, pos: nat)
    requires ActiveInv(c, r, n, nd, log, pos, true)
    ensures nd.idx == |Agenda(c, r)|
  {
    hide Agenda;
    ActiveIndex(c, r, n, nd, log, pos, true);
  }

  // Configuration changes.

  /** Calls that activate nothing leave the list alone. */
  lemma {:induction false} ReactQuiet(s: CpgState, calls: seq<Callback>, nd: Node)
    requires forall i :: 0 <= i < |calls| ==> !calls[i].Activated?
    ensures var r := ReactAll(s, calls, nd);
            && r.list == s.list && r.me == s.me && r.oldMembers == s.oldMembers
            && (r.downlist == s.downlist || r.downlist == NotIn(s.oldMembers, nd.trans))
  {
    if calls != [] {
      ReactQuiet(s, calls[..|calls| - 1], nd);
    }
  }

  lemma AbortCalls(nd: Node)
    ensures Abort(nd).calls == nd.calls || exists id :: Abort(nd).calls == nd.calls + [Aborted(id)]
  {
    if (nd.state == PROCESS || nd.state == BARRIER) && nd.idx < |nd.services| && nd.services[nd.idx].loaded {
      assert Abort(nd).calls == nd.calls + [Aborted(nd.services[nd.idx].id)];
    } else {
      assert nd.calls + [] == nd.calls;
    }
  }

  lemma TransitionalQuiet(nd: Node, members: seq<NodeId>)
    ensures var nd' := Transitional(nd, members);
            forall i :: 0 <= i < |NewCalls(nd, nd')| ==> !NewCalls(nd, nd')[i].Activated?
  {
    AbortCalls(nd.(inProcess := true));
  }

  lemma RegularQuiet(nd: Node, kept: seq<Message>, members: seq<NodeId>, r: RingId, loaded: seq<ServiceId>)
    ensures var nd' := Regular(nd.(out := kept), members, r, loaded);
            forall i :: 0 <= i < |NewCalls(nd, nd')| ==> !NewCalls(nd, nd')[i].Activated?
  {
    AbortCalls(nd.(out := kept, inProcess := true));
  }

  lemma ActiveSame(c: Config, r: RingId, n: NodeId, l: Local, l': Local, s: CpgState, log: Log,
                   announced: Announced, moved: bool)
    requires ActiveCpg(c, r, n, l, s, log, announced, moved)
    requires l'.node.out == l.node.out && l'.node.idx == l.node.idx && l'.pos == l.pos && l'.held == l.held
    requires FinishedCount(l'.node) == FinishedCount(l.node)
    ensures ActiveCpg(c, r, n, l', s, log, announced, moved)
  {
    hide CpgIndex, Count;
  }

  lemma TransitionalBasic(c: Config, w: World, n: NodeId, members: seq<NodeId>)
    requires WorldInv(c, w) && n in members
    ensures var l := At(w.sys, n);
            var nd := Transitional(l.node, members);
            BasicCpg(n, l.(node := nd, transit := true), ReactAll(CpgAt(w, n), NewCalls(l.node, nd), nd))
  {
    var l := At(w.sys, n);
    var nd := Transitional(l.node, members);
    assert BasicCpg(n, l, CpgAt(w, n));
    TransitionalQuiet(l.node, members);
    ReactQuiet(CpgAt(w, n), NewCalls(l.node, nd), nd);
  }

  lemma TransitionalWorld(c: Config, w: World, ws: WorldStep)
    requires ConfigOk(c) && WorldInv(c, w) && WorldEnabled(c, w, ws) && ws.step.TransitionalConf?
    ensures WorldInv(c, WorldApply(c, w, ws))
  {
    hide WorldInv, BasicCpg, ActiveCpg, Inv, Transitional, CpgIndex, NewCalls;
    var n := ws.step.n;
    var w' := WorldApply(c, w, ws);
    var l := At(w.sys, n);
    WorldParts(c, w, n);
    InvStep(c, w.sys, ws.step);
    SameLogs(c, w, ws);
    TransitionalBasic(c, w, n, ws.step.members);
    TransitionalNode(c, w, n, ws.step.members);
    var l' := At(w'.sys, n);
    if l'.node.ring != NO_RING && l'.node.ring !in w.stale {
      ActiveSame(c, l.node.ring, n, l, l', CpgAt(w, n), LogIn(w.sys, l.node.ring), w.announced,
                 (l.node.ring, n) in w.moved);
    }
    WorldFrame(c, w, w', n);
  }

  lemma WorldParts(c: Config, w: World, n: NodeId)
    requires WorldInv(c, w)
    ensures Inv(c, w.sys) && NodeCpg(c, w, n) && BasicCpg(n, At(w.sys, n), CpgAt(w, n))
    ensures LocalInv(c, n, At(w.sys, n), LogIn(w.sys, At(w.sys, n).cur))
  {
    hide NodeCpg, BasicCpg, LocalInv;
  }

  /** The node is aborted, or it had completed its ring and nothing changes. */
  lemma TransitionalNode(c: Config, w: World, n: NodeId, members: seq<NodeId>)
    requires WorldInv(c, w) && n in members
    ensures var l := At(w.sys, n);
            var nd := Transitional(l.node, members);
            && n !in ReactAll(CpgAt(w, n), NewCalls(l.node, nd), nd).downlist
            && (nd.ring != NO_RING ==>
                  && nd.ring == l.node.ring && nd.out == l.node.out && nd.idx == l.node.idx
                  && FinishedCount(nd) == FinishedCount(l.node)
                  && ReactAll(CpgAt(w, n), NewCalls(l.node, nd), nd) == CpgAt(w, n))
  {
    var l := At(w.sys, n);
    var nd := Transitional(l.node, members);
    assert BasicCpg(n, l, CpgAt(w, n)) && LocalInv(c, n, l, LogIn(w.sys, l.cur));
    if l.node.inProcess {
      assert nd.ring == NO_RING;
      TransitionalQuiet(l.node, members);
      ReactQuiet(CpgAt(w, n), NewCalls(l.node, nd), nd);
    } else {
      assert NewCalls(l.node, nd) == [];
    }
  }

  lemma {:induction false} SurvivingHas(trans: seq<NodeId>, members: seq<NodeId>, n: NodeId)
    requires n in trans && n in members
    ensures n in Surviving(trans, members)
  {
    var k := |trans| - 1;
    if n in trans[..k] {
      SurvivingHas(trans[..k], members, n);
    }
  }

  lemma RegularBasic(c: Config, w: World, ws: WorldStep)
    requires ConfigOk(c) && WorldInv(c, w) && WorldEnabled(c, w, ws) && ws.step.RegularConf?
    ensures BasicCpg(ws.step.n, At(WorldApply(c, w, ws).sys, ws.step.n), CpgAt(WorldApply(c, w, ws), ws.step.n))
  {
    hide WorldInv, NewCalls, ReactAll, ListOk, Surviving;
    var RegularConf(n, r, kept) := ws.step;
    var l := At(w.sys, n);
    var nd := Regular(l.node.(out := kept), c.members(r), r, c.loaded(r, n));
    WorldParts(c, w, n);
    hide LocalInv, NodeCpg, Inv;
    RegularQuiet(l.node, kept, c.members(r), r, c.loaded(r, n));
    ReactQuiet(CpgAt(w, n), NewCalls(l.node, nd), nd);
    if l.cur != NO_RING {
      SurvivingHas(l.node.trans, c.members(r), n);
    }
  }

  lemma RegularWorld(c: Config, w: World, ws: WorldStep)
    requires ConfigOk(c) && WorldInv(c, w) && WorldEnabled(c, w, ws) && ws.step.RegularConf?
    ensures WorldInv(c, WorldApply(c, w, ws))
  {
    hide BasicCpg, ActiveCpg, Inv, CpgIndex, NewCalls, ReactAll, LogCpg;
    var RegularConf(n, r, kept) := ws.step;
    var w' := WorldApply(c, w, ws);
    InvStep(c, w.sys, ws.step);
    SameLogs(c, w, ws);
    RegularBasic(c, w, ws);
    assert RecordOk(c, w, r, n);
    assert (r, n) !in w.announced && (r, n) !in w.results;
    hide WorldInv, RecordOk;
    if r !in w'.stale {
      NoJoinlist(kept, n);
      NoJoinlist(At(w.sys, n).held, n);
      RegularActive(c, r, n, At(w'.sys, n), CpgAt(w', n), LogIn(w.sys, r), w.announced, kept, (r, n) in w.moved);
    }
    WorldFrame(c, w, w', n);
  }

  /** A node that has just entered a ring with no joinlist of an older one. */
  lemma RegularActive(c: Config, r: RingId, n: NodeId, l: Local, s: CpgState, log: Log,
                      announced: Announced, kept: seq<Message>, moved: bool)
    requires (r, n) !in announced && s.stored == []
    requires forall p :: !InOut(kept, n, p) && !InOut(l.held, n, p)
    requires l.pos == 0 && l.node.idx == 0 && l.node.state == SERVICELIST_BUILD
    requires l.node.out == kept + [ServiceBuild(r, c.loaded(r, n))]
    ensures ActiveCpg(c, r, n, l, s, log, announced, moved)
  {
    hide CpgIndex, Count;
    forall p
      ensures !InOut(l.node.out, n, p)
    {
      InOutAppend(kept, [ServiceBuild(r, c.loaded(r, n))], n, p);
    }
    NoneCarried(l.node.out, n);
    assert log[..0] == [];
  }

  lemma NoJoinlist(out: seq<Message>, n: NodeId)
    requires !HasJoinlist(out)
    ensures forall p :: !InOut(out, n, p)
  {
  }

  // ---- announcing ----

  /** Announcements of other rings do not matter for the log of a ring. */
  lemma LogAnnOther(c: Config, r: RingId, log: Log, a: Announced, a': Announced)
    requires LogCpg(c, r, log, a)
    requires forall m :: Ann(a', r, m) == Ann(a, r, m) && ((r, m) in a' <==> (r, m) in a)
    ensures LogCpg(c, r, log, a')
  {
    hide CpgIndex, Count, Ann;
  }

  /** The announcement of a node that has not yet sent its barrier message. */
  lemma LogAnnounce(c: Config, r: RingId, log: Log, a: Announced, n: NodeId, own: seq<Process>)
    requires LogCpg(c, r, log, a)
    requires (r, n) !in a && Count(log, n, r) <= CpgIndex(c, r) + 1
    requires forall p :: p in own ==> p.nodeid == n
    ensures LogCpg(c, r, log, a[(r, n) := own])
  {
    hide CpgIndex, Count;
    var a' := a[(r, n) := own];
    forall m
      ensures m != n ==> Ann(a', r, m) == Ann(a, r, m)
    {
    }
    forall i, m, p | 0 <= i <= |log| && m in c.members(r)
                     && Count(log[..i], m, r) > CpgIndex(c, r) + 1 && p in Ann(a', r, m)
      ensures InLog(log[..i], p)
    {
      CountGrows(log, i, m, r);
      assert m != n;
    }
    forall i, p | 0 <= i < |log| && Carries(log[i].0, log[i].1, p)
      ensures p in Ann(a', r, p.nodeid)
    {
      assert p in Ann(a, r, p.nodeid);
    }
  }

  lemma ActiveAnn(c: Config, r: RingId, n: NodeId, l: Local, s: CpgState, log: Log, a: Announced, a': Announced,
                  moved: bool)
    requires ActiveCpg(c, r, n, l, s, log, a, moved)
    requires Ann(a', r, n) == Ann(a, r, n) && ((r, n) in a' <==> (r, n) in a)
    ensures ActiveCpg(c, r, n, l, s, log, a', moved)
  {
    hide CpgIndex, Count, Ann;
  }

  lemma ResultAnn(c: Config, r: RingId, n: NodeId, res: Result, a: Announced, a': Announced, moved: bool)
    requires ResultOk(c, r, n, res, a, moved)
    requires forall m :: Ann(a', r, m) == Ann(a, r, m) && ((r, m) in a' <==> (r, m) in a)
    ensures ResultOk(c, r, n, res, a', moved)
  {
    hide Ann;
  }

  /** A step of one node that announces its own processes. */
  lemma WorldAnnounce(c: Config, w: World, w': World, n: NodeId, own: seq<Process>)
    requires WorldInv(c, w) && Inv(c, w'.sys)
    requires forall m :: m != n ==> At(w'.sys, m) == At(w.sys, m) && CpgAt(w', m) == CpgAt(w, m)
    requires forall r :: LogIn(w'.sys, r) == LogIn(w.sys, r)
    requires At(w.sys, n).joined == At(w'.sys, n).joined
    requires w'.results == w.results && w.stale == w'.stale && w'.moved == w.moved
    requires var r := At(w.sys, n).node.ring;
             && r != NO_RING && w'.announced == w.announced[(r, n) := own]
             && r in At(w.sys, n).joined && n in c.members(r) && HasCpg(c, r, n)
             && (r !in w.stale ==> (r, n) !in w.announced && Count(LogIn(w.sys, r), n, r) <= CpgIndex(c, r) + 1)
    requires forall p :: p in own ==> p.nodeid == n
    requires BasicCpg(n, At(w'.sys, n), CpgAt(w', n)) && NodeCpg(c, w', n)
    ensures WorldInv(c, w')
  {
    hide Inv, BasicCpg, LogCpg, ActiveCpg, CpgIndex, Count;
    var r := At(w.sys, n).node.ring;
    forall m
      ensures BasicCpg(m, At(w'.sys, m), CpgAt(w', m)) && NodeCpg(c, w', m)
    {
      assert BasicCpg(m, At(w.sys, m), CpgAt(w, m)) && NodeCpg(c, w, m);
      var l := At(w.sys, m);
      if m != n && l.node.ring != NO_RING && l.node.ring !in w.stale {
        ActiveAnn(c, l.node.ring, m, l, CpgAt(w, m), LogIn(w.sys, l.node.ring), w.announced, w'.announced,
                  (l.node.ring, m) in w.moved);
      }
    }
    forall q | q != NO_RING && q !in w'.stale
      ensures LogCpg(c, q, LogIn(w'.sys, q), w'.announced)
    {
      assert LogCpg(c, q, LogIn(w.sys, q), w.announced);
      if q == r {
        LogAnnounce(c, r, LogIn(w.sys, r), w.announced, n, own);
      } else {
        LogAnnOther(c, q, LogIn(w.sys, q), w.announced, w'.announced);
      }
    }
    forall q, m | q != NO_RING
      ensures RecordOk(c, w', q, m)
    {
      assert RecordOk(c, w, q, m);
      if (q, m) in w.results && q !in w.stale && q != r {
        ResultAnn(c, q, m, w.results[(q, m)], w.announced, w'.announced, (q, m) in w.moved);
      }
    }
  }

  /** A successful call of `sync_process` of another service. */
  lemma QueueWork(c: Config, r: RingId, n: NodeId, nd: Node, nd': Node, log: Log, announced: Announced)
    requires QueueCpg(c, r, n, nd, log, announced)
    requires nd.idx < |nd.services| && nd.state == PROCESS && nd'.state == BARRIER && nd'.idx == nd.idx
    requires nd'.services == nd.services && nd'.out == nd.out + [BarrierReached(r, nd.idx)]
    requires nd.idx == CpgIndex(c, r) ==> !HasCpg(c, r, n)
    ensures QueueCpg(c, r, n, nd', log, announced)
  {
    hide CpgIndex, Count;
    var b := BarrierReached(r, nd.idx);
    forall p
      ensures InOut(nd'.out, n, p) <==> InOut(nd.out, n, p)
    {
      InOutAppend(nd.out, [b], n, p);
    }
  }

  /** A successful call of `sync_process` of this service: the joinlist goes into the
      queue ahead of the barrier message. */
  lemma QueueAnnounce(c: Config, r: RingId, n: NodeId, nd: Node, nd': Node, log: Log, announced: Announced,
                      s: CpgState, sent: seq<CpgMessage>)
    requires QueueCpg(c, r, n, nd, log, announced) && (r, n) !in announced
    requires HasCpg(c, r, n) && nd.idx == CpgIndex(c, r) < |nd.services|
    requires nd'.state == BARRIER && nd'.idx == nd.idx && nd'.services == nd.services
    requires nd'.out == nd.out + Bodies(sent) + [BarrierReached(r, nd.idx)]
    requires Count(log, n, r) <= CpgIndex(c, r) + 1
    requires forall i :: 0 <= i < |nd.out| ==> nd.out[i] != BarrierReached(r, nd.idx)
    requires s.me == n
    requires sent == [] || sent == [Downlist(s.downlist)]
             || sent == [Joinlist(OwnEntries(s.list, s.behind, n))]
             || sent == [Downlist(s.downlist), Joinlist(OwnEntries(s.list, s.behind, n))]
    requires OwnEntries(s.list, s.behind, n) != [] ==>
               sent != [] && sent[|sent| - 1] == Joinlist(OwnEntries(s.list, s.behind, n))
    ensures QueueCpg(c, r, n, nd', log, announced[(r, n) := OwnProcesses(s)])
  {
    hide CpgIndex, Count;
    var a' := announced[(r, n) := OwnProcesses(s)];
    var b := BarrierReached(r, nd.idx);
    forall p
      ensures InOut(nd'.out, n, p) <==> p in Ann(a', r, n)
    {
      InOutAppend(nd.out + Bodies(sent), [b], n, p);
      InOutAppend(nd.out, Bodies(sent), n, p);
      AnnouncedEntries(s, sent, n, p);
    }
    forall x, y, p | 0 <= x < |nd'.out| && 0 <= y < |nd'.out| && Carries(n, nd'.out[x], p) && nd'.out[y] == b
      ensures x < y
    {
      assert y == |nd'.out| - 1;
      assert nd'.out[y] != nd'.out[x];
    }
  }

  lemma AnnouncedEntries(s: CpgState, sent: seq<CpgMessage>, n: NodeId, p: Process)
    requires s.me == n
    requires sent == [] || sent == [Downlist(s.downlist)]
             || sent == [Joinlist(OwnEntries(s.list, s.behind, n))]
             || sent == [Downlist(s.downlist), Joinlist(OwnEntries(s.list, s.behind, n))]
    requires OwnEntries(s.list, s.behind, n) != [] ==>
               sent != [] && sent[|sent| - 1] == Joinlist(OwnEntries(s.list, s.behind, n))
    ensures InOut(Bodies(sent), n, p) <==> p in OwnProcesses(s)
  {
    if p.nodeid == n {
      OwnEntriesElements(s.list, s.behind, n, p);
    }
    if p in OwnProcesses(s) {
      var i := |sent| - 1;
      assert Carries(n, Bodies(sent)[i], p);
    }
  }

  /** What a scheduled call finds. */
  lemma WorkFacts(c: Config, r: RingId, n: NodeId, nd: Node, log: Log, pos: nat, transit: bool)
    requires ActiveInv(c, r, n, nd, log, pos, transit) && nd.scheduled
    ensures nd.state == PROCESS && nd.idx < |nd.services| && !nd.services[nd.idx].activated && n in c.members(r)
    ensures Count(log, n, r) == nd.idx + 1
    ensures forall i :: 0 <= i < |nd.out| ==> !Tagged(nd.out[i], r)
    ensures AtCpg(nd) <==> nd.idx == CpgIndex(c, r) && HasCpg(c, r, n)
    ensures nd.services[nd.idx].loaded <==> nd.services[nd.idx].id in c.loaded(r, n)
  {
    PendingBound(c, r, n, nd, log, pos, transit);
    PendingZero(nd.out, r);
    ActiveIndex(c, r, n, nd, log, pos, transit);
    NotActivated(nd.services, Known(c, r, n, log[..pos]), ToSet(c.loaded(r, n)), nd.idx);
  }

  lemma WorkResult(nd: Node, sent: seq<Message>, done: bool)
    requires nd.idx < |nd.services| && !nd.services[nd.idx].activated && nd.state == PROCESS
    ensures var nd' := Work(nd, sent, done);
            && nd'.ring == nd.ring && nd'.idx == nd.idx && nd'.services == nd.services && nd'.trans == nd.trans
            && if done || !nd.services[nd.idx].loaded
               then nd'.state == BARRIER && nd'.out == nd.out + sent + [BarrierReached(nd.ring, nd.idx)]
               else nd'.state == PROCESS && nd'.out == nd.out + sent
  {
  }

  lemma StoredWork(c: Config, r: RingId, n: NodeId, nd: Node, nd': Node, s: CpgState, s': CpgState, heard: Log,
                   announced: Announced, moved: bool)
    requires StoredCpg(c, r, n, nd, s, heard, announced, moved)
    requires nd'.idx == nd.idx && s'.stored == s.stored && s'.list == s.list
    ensures StoredCpg(c, r, n, nd', s', heard, announced, moved)
    ensures (r, n) !in announced && s.me == n && !moved ==>
              StoredCpg(c, r, n, nd', s', heard, announced[(r, n) := OwnProcesses(s)], moved)
    ensures moved ==> StoredCpg(c, r, n, nd', s', heard, announced[(r, n) := OwnProcesses(s)], moved)
  {
    hide CpgIndex;
  }

  /** The node after its scheduled call, in a ring without stale joinlists. */
  lemma WorkActive(c: Config, r: RingId, n: NodeId, l: Local, s: CpgState, log: Log, announced: Announced,
                   moved: bool, sent: seq<CpgMessage>, done: bool, downOk: bool, joinOk: bool)
    requires ActiveInv(c, r, n, l.node, log, l.pos, l.transit) && l.node.scheduled && s.me == n
    requires ActiveCpg(c, r, n, l, s, log, announced, moved)
    requires if AtCpg(l.node) then SyncProcess(s, downOk, joinOk).1 == sent && SyncProcess(s, downOk, joinOk).2 == done
             else sent == []
    ensures AtCpg(l.node) ==> (r, n) !in announced
    ensures var l' := l.(node := Work(l.node, Bodies(sent), done));
            var s' := if AtCpg(l.node) then SyncProcess(s, downOk, joinOk).0 else s;
            var a' := if AtCpg(l.node) && done then announced[(r, n) := OwnProcesses(s)] else announced;
            ActiveCpg(c, r, n, l', s', log, a', moved)
  {
    WorkFacts(c, r, n, l.node, log, l.pos, l.transit);
    hide ActiveInv, CpgIndex, Count, Work;
    WorkResult(l.node, Bodies(sent), done);
    var nd, nd' := l.node, Work(l.node, Bodies(sent), done);
    var s' := if AtCpg(nd) then SyncProcess(s, downOk, joinOk).0 else s;
    StoredWork(c, r, n, nd, nd', s, s', log[..l.pos], announced, moved);
    assert FinishedCount(nd) == nd.idx;
    if !AtCpg(nd) {
      if nd'.state == BARRIER {
        assert nd.out + Bodies(sent) == nd.out;
        QueueWork(c, r, n, nd, nd', log, announced);
      } else {
        QueueApp(c, r, n, nd, nd', log, announced, Bodies(sent));
      }
    } else if done {
      ProcessSends(s, downOk, joinOk);
      assert forall i :: 0 <= i < |nd.out| ==> nd.out[i] != BarrierReached(r, nd.idx);
      QueueAnnounce(c, r, n, nd, nd', log, announced, s, sent);
    } else {
      ProcessSends(s, downOk, joinOk);
      QueueApp(c, r, n, nd, nd', log, announced, Bodies(sent));
    }
  }

  lemma ProcessSends(s: CpgState, downOk: bool, joinOk: bool)
    ensures var (s', sent, done) := SyncProcess(s, downOk, joinOk);
            var entries := OwnEntries(s.list, s.behind, s.me);
            && s'.stored == s.stored && s'.list == s.list && s'.me == s.me && s'.downlist == s.downlist
            && s'.oldMembers == s.oldMembers
            && (sent == [] || sent == [Downlist(s.downlist)] || sent == [Joinlist(entries)]
                || sent == [Downlist(s.downlist), Joinlist(entries)])
            && (done && entries != [] ==> sent != [] && sent[|sent| - 1] == Joinlist(entries))
            && (!done ==> sent == [] || sent == [Downlist(s.downlist)])
  {
    var down := if s.syncState == DOWNLIST then [Downlist(s.downlist)] else [];
    var entries := OwnEntries(s.list, s.behind, s.me);
    assert [] + [Joinlist(entries)] == [Joinlist(entries)];
  }

  lemma WorkApplied(c: Config, w: World, ws: WorldStep)
    requires WorldEnabled(c, w, ws) && ws.step.DoWork?
    ensures var n := ws.step.n;
            var l, s, w' := At(w.sys, n), CpgAt(w, n), WorldApply(c, w, ws);
            && At(w'.sys, n) == l.(node := Work(l.node, Bodies(ws.step.sent), ws.step.done))
            && CpgAt(w', n) == (if AtCpg(l.node) then SyncProcess(s, ws.downOk, ws.joinOk).0 else s)
            && w'.results == w.results && w'.stale == w.stale && w'.moved == w.moved
            && w'.announced == (if AtCpg(l.node) && ws.step.done
                                then w.announced[(l.node.ring, n) := OwnProcesses(s)] else w.announced)
            && (AtCpg(l.node) ==>
                  && ws.step.sent == SyncProcess(s, ws.downOk, ws.joinOk).1
                  && ws.step.done == SyncProcess(s, ws.downOk, ws.joinOk).2)
            && (!AtCpg(l.node) ==> ws.step.sent == [])
            && l.node.scheduled
  {
    hide Work, SyncProcess;
  }

  lemma WorkWorld(c: Config, w: World, ws: WorldStep)
    requires ConfigOk(c) && WorldInv(c, w) && WorldEnabled(c, w, ws) && ws.step.DoWork?
    ensures WorldInv(c, WorldApply(c, w, ws))
  {
    hide WorldInv, Inv, CpgIndex, ActiveCpg, Work, LocalInv, ActiveInv, SyncProcess, Count, WorldApply, Apply, Enabled,
         WorldEnabled, At, CpgAt, LogIn, OwnProcesses;
    var DoWork(n, sent, done) := ws.step;
    var w' := WorldApply(c, w, ws);
    WorldParts(c, w, n);
    WorldSystem(c, w, ws);
    WorkApplied(c, w, ws);
    var l, s := At(w.sys, n), CpgAt(w, n);
    var r := l.cur;
    var log := LogIn(w.sys, r);
    ScheduledActive(c, n, l, log);
    CurJoined(c, n, l, log);
    WorkFacts(c, r, n, l.node, log, l.pos, l.transit);
    WorkResult(l.node, Bodies(sent), done);
    ProcessSends(s, ws.downOk, ws.joinOk);
    if r !in w.stale {
      WorkActive(c, r, n, l, s, log, w.announced, (r, n) in w.moved, sent, done, ws.downOk, ws.joinOk);
    }
    if AtCpg(l.node) && done {
      OwnAreOwn(s);
      WorldAnnounce(c, w, w', n, OwnProcesses(s));
    } else {
      WorldFrame(c, w, w', n);
    }
  }

  lemma OwnAreOwn(s: CpgState)
    ensures forall p :: p in OwnProcesses(s) <==> p in s.list && p.nodeid == s.me
  {
  }

  /** What a step other than sending the head of a queue leaves alone. */
  lemma WorldSystem(c: Config, w: World, ws: WorldStep)
    requires ConfigOk(c) && WorldInv(c, w) && WorldEnabled(c, w, ws)
    ensures Inv(c, WorldApply(c, w, ws).sys)
    ensures forall m :: m != ws.step.n ==>
              && At(WorldApply(c, w, ws).sys, m) == At(w.sys, m)
              && CpgAt(WorldApply(c, w, ws), m) == CpgAt(w, m)
    ensures !ws.step.Originate? ==> forall r :: LogIn(WorldApply(c, w, ws).sys, r) == LogIn(w.sys, r)
  {
    SystemApplied(c, w, ws);
    hide Inv, WorldApply, Apply, At, CpgAt;
    InvStep(c, w.sys, ws.step);
    forall m | m != ws.step.n
      ensures At(WorldApply(c, w, ws).sys, m) == At(w.sys, m)
      ensures CpgAt(WorldApply(c, w, ws), m) == CpgAt(w, m)
    {
      StepOther(c, w, ws, m);
    }
    if !ws.step.Originate? {
      SameLogs(c, w, ws);
    }
  }

  lemma SystemApplied(c: Config, w: World, ws: WorldStep)
    requires WorldEnabled(c, w, ws)
    ensures WorldApply(c, w, ws).sys == Apply(c, w.sys, ws.step)
  {
    hide Apply, At, CpgAfter, AtCpg, OwnProcesses;
  }

  lemma CurJoined(c: Config, n: NodeId, l: Local, log: Log)
    requires LocalInv(c, n, l, log) && l.cur != NO_RING
    ensures l.cur in l.joined
  {
  }

  // ---- delivering and activating ----

  lemma HandleOk(s: CpgState, from: NodeId, m: CpgMessage)
    requires ListOk(s.list)
    ensures var s' := HandleMessage(s, from, m);
            ListOk(s'.list) && s'.me == s.me && s'.downlist == s.downlist && s'.oldMembers == s.oldMembers
  {
    match m
    case ProcJoin(pid, group, _) =>
      if Process(from, pid, group) !in s.list {
        InsertOk(s.list, Process(from, pid, group));
      }
    case ProcLeave(pid, group, _) => RemoveOk(s.list, Process(from, pid, group));
    case _ =>
  }

  /** The message is one of the process groups. */
  ghost predicate DeliversApp(w: World, n: NodeId) {
    var l := At(w.sys, n);
    l.cur != NO_RING && l.pos < |LogIn(w.sys, l.cur)| && LogIn(w.sys, l.cur)[l.pos].1.App?
  }

  /** An own process of the node comes or goes between announcing and activating. */
  ghost predicate Moves(w: World, n: NodeId) {
    var l := At(w.sys, n);
    && DeliversApp(w, n)
    && var (from, m) := LogIn(w.sys, l.cur)[l.pos];
       from == n && (m.body.ProcJoin? || m.body.ProcLeave?)
       && (l.node.ring, n) in w.announced && (l.node.ring, n) !in w.results
  }

  lemma DeliverApplied(c: Config, w: World, ws: WorldStep)
    requires WorldEnabled(c, w, ws) && ws.step.Deliver?
    ensures var n := ws.step.n;
            var l, s, w' := At(w.sys, n), CpgAt(w, n), WorldApply(c, w, ws);
            && l.cur != NO_RING && l.pos < |LogIn(w.sys, l.cur)|
            && var (from, m) := LogIn(w.sys, l.cur)[l.pos];
               var nd' := DeliverMessage(l.node, from, m);
               var key := (l.node.ring, n);
               && At(w'.sys, n) == l.(node := nd', pos := l.pos + 1)
               && CpgAt(w', n) == (if m.App? then HandleMessage(s, from, m.body)
                                   else ReactAll(s, NewCalls(l.node, nd'), nd'))
               && w'.announced == w.announced && w'.stale == w.stale
               && w'.moved == (if Moves(w, n) then w.moved + {key} else w.moved)
               && w'.results == (if AtCpg(l.node) && nd'.idx == l.node.idx + 1
                                 then w.results[key := Result(OwnProcesses(s), CpgAt(w', n).list)] else w.results)
  {
    hide HandleMessage, ReactAll, DeliverMessage, OwnProcesses, AtCpg, NewCalls, LogIn;
  }

  /** A message of the process groups. */
  lemma DeliverApp(c: Config, w: World, ws: WorldStep)
    requires ConfigOk(c) && WorldInv(c, w) && WorldEnabled(c, w, ws) && ws.step.Deliver?
    requires DeliversApp(w, ws.step.n)
    ensures WorldInv(c, WorldApply(c, w, ws))
  {
    hide WorldInv, Inv, CpgIndex, QueueCpg, StoredCpg, LocalInv, ActiveInv, WorldApply, Apply, Enabled,
         WorldEnabled, At, CpgAt, LogIn, OwnProcesses, HandleMessage, AtCpg;
    var n := ws.step.n;
    var w' := WorldApply(c, w, ws);
    WorldParts(c, w, n);
    WorldSystem(c, w, ws);
    DeliverApplied(c, w, ws);
    var l, s := At(w.sys, n), CpgAt(w, n);
    var log := LogIn(w.sys, l.cur);
    var (from, m) := log[l.pos];
    HandleOk(s, from, m.body);
    CurActive(c, n, l, log);
    var r := l.node.ring;
    if r != NO_RING && r !in w.stale {
      HandleStored(c, r, n, l.node, s, log, l.pos, w.announced, (r, n) in w.moved, (r, n) in w'.moved);
    }
    WorldFrame(c, w, w', n);
  }

  /** A node that takes part in a ring takes part in the one it is in. */
  lemma CurActive(c: Config, n: NodeId, l: Local, log: Log)
    requires LocalInv(c, n, l, log)
    ensures l.cur != NO_RING ==> l.cur in l.joined
    ensures l.node.ring != NO_RING ==> l.node.ring == l.cur && ActiveInv(c, l.cur, n, l.node, log, l.pos, l.transit)
  {
  }

  lemma IdleCalls(nd: Node, from: NodeId, m: Message)
    requires nd.ring == NO_RING && (m.App? || m.ring != NO_RING)
    ensures DeliverMessage(nd, from, m) == nd && NewCalls(nd, nd) == []
  {
    IdleIgnores(nd, from, m);
  }

  lemma HeadTagOk(c: Config, w: World, r: RingId, pos: nat)
    requires WorldInv(c, w) && r != NO_RING && pos < |LogIn(w.sys, r)|
    ensures LogIn(w.sys, r)[pos].1.App? || LogIn(w.sys, r)[pos].1.ring != NO_RING
    ensures RingInv(c, r, LogIn(w.sys, r))
  {
    assert TagsOk(LogIn(w.sys, r));
  }

  /** A synchronization message that does not activate the service. */
  lemma DeliverQuiet(c: Config, w: World, ws: WorldStep)
    requires ConfigOk(c) && WorldInv(c, w) && WorldEnabled(c, w, ws) && ws.step.Deliver?
    requires !DeliversApp(w, ws.step.n)
    requires var l := At(w.sys, ws.step.n);
             !(AtCpg(l.node) && At(WorldApply(c, w, ws).sys, ws.step.n).node.idx == l.node.idx + 1)
    ensures WorldInv(c, WorldApply(c, w, ws))
  {
    hide WorldInv, Inv, CpgIndex, QueueCpg, StoredCpg, LocalInv, ActiveInv, WorldApply, Apply, Enabled, FinishedCount,
         WorldEnabled, At, CpgAt, LogIn, OwnProcesses, DeliverMessage, ReactAll, NewCalls, RingInv, Count, SyncActivate;
    var n := ws.step.n;
    var w' := WorldApply(c, w, ws);
    WorldParts(c, w, n);
    WorldSystem(c, w, ws);
    DeliverApplied(c, w, ws);
    var l, s := At(w.sys, n), CpgAt(w, n);
    var log := LogIn(w.sys, l.cur);
    var (from, m) := log[l.pos];
    HeadTagOk(c, w, l.cur, l.pos);
    CurActive(c, n, l, log);
    var r := l.node.ring;
    var nd' := At(w'.sys, n).node;
    if r == NO_RING {
      IdleCalls(l.node, from, m);
    } else {
      DeliverEffect(c, r, n, l.node, log, l.pos, l.transit);
      if nd'.idx == l.node.idx + 1 {
        CommitReaction(s, l.node.services[l.node.idx], nd');
      } else {
        CommitReaction(s, Service(0, false, false), nd');
      }
      if r !in w.stale {
        QueueSame(c, r, n, l.node, nd', log, w.announced);
        SyncStored(c, r, n, l.node, nd', s, log, l.pos, w.announced, (r, n) in w.moved);
      }
    }
    CommitReaction(s, Service(0, false, false), nd');
    WorldFrame(c, w, w', n);
  }

  /** A step of one node that records a result. */
  lemma WorldCommit(c: Config, w: World, w': World, n: NodeId, res: Result)
    requires WorldInv(c, w) && Inv(c, w'.sys)
    requires forall m :: m != n ==> At(w'.sys, m) == At(w.sys, m) && CpgAt(w', m) == CpgAt(w, m)
    requires forall r :: LogIn(w'.sys, r) == LogIn(w.sys, r)
    requires At(w.sys, n).joined == At(w'.sys, n).joined
    requires w'.announced == w.announced && w.stale == w'.stale && w'.moved == w.moved
    requires var r := At(w.sys, n).node.ring;
             && w'.results == w.results[(r, n) := res]
             && r in At(w.sys, n).joined
             && (r !in w.stale ==> ResultOk(c, r, n, res, w.announced, (r, n) in w.moved))
    requires BasicCpg(n, At(w'.sys, n), CpgAt(w', n)) && NodeCpg(c, w', n)
    ensures WorldInv(c, w')
  {
    hide Inv, BasicCpg, LogCpg, ActiveCpg, ResultOk, CpgIndex;
    forall m
      ensures BasicCpg(m, At(w'.sys, m), CpgAt(w', m)) && NodeCpg(c, w', m)
    {
      assert BasicCpg(m, At(w.sys, m), CpgAt(w, m)) && NodeCpg(c, w, m);
    }
    forall r, m | r != NO_RING
      ensures RecordOk(c, w', r, m)
    {
      assert RecordOk(c, w, r, m);
    }
  }

  /** The barrier message that lets the node activate the service. */
  lemma DeliverCommit(c: Config, w: World, ws: WorldStep)
    requires ConfigOk(c) && WorldInv(c, w) && WorldEnabled(c, w, ws) && ws.step.Deliver?
    requires !DeliversApp(w, ws.step.n)
    requires var l := At(w.sys, ws.step.n);
             AtCpg(l.node) && At(WorldApply(c, w, ws).sys, ws.step.n).node.idx == l.node.idx + 1
    ensures WorldInv(c, WorldApply(c, w, ws))
  {
    hide WorldInv, Inv, CpgIndex, QueueCpg, StoredCpg, LocalInv, ActiveInv, WorldApply, Apply, Enabled, LogCpg,
         WorldEnabled, At, CpgAt, LogIn, OwnProcesses, DeliverMessage, ReactAll, NewCalls, RingInv, Count, ResultOk,
         SyncActivate, HasCpg;
    var n := ws.step.n;
    var w' := WorldApply(c, w, ws);
    WorldParts(c, w, n);
    WorldSystem(c, w, ws);
    DeliverApplied(c, w, ws);
    var l, s := At(w.sys, n), CpgAt(w, n);
    var log := LogIn(w.sys, l.cur);
    var (from, m) := log[l.pos];
    HeadTagOk(c, w, l.cur, l.pos);
    CurActive(c, n, l, log);
    var r := l.node.ring;
    var nd' := At(w'.sys, n).node;
    if r == NO_RING {
      IdleCalls(l.node, from, m);
      assert false;
    } else {
      DeliverEffect(c, r, n, l.node, log, l.pos, l.transit);
      ActiveIndex(c, r, n, l.node, log, l.pos, l.transit);
      CommitReaction(s, l.node.services[l.node.idx], nd');
      ActivateList(s);
      if r !in w.stale {
        LogPart(c, w, r);
        QueueSame(c, r, n, l.node, nd', log, w.announced);
        PastCpg(c, r, n, nd', CpgAt(w', n), log[..l.pos + 1], w.announced, (r, n) in w.moved);
        ActiveIsMember(c, r, n, l.node, log, l.pos, l.transit);
        CommitResult(c, r, n, l.node, s, log, l.pos, w.announced, (r, n) in w.moved);
      }
      WorldCommit(c, w, w', n, Result(OwnProcesses(s), CpgAt(w', n).list));
    }
  }

  lemma LogPart(c: Config, w: World, r: RingId)
    requires WorldInv(c, w) && r != NO_RING && r !in w.stale
    ensures LogCpg(c, r, LogIn(w.sys, r), w.announced)
  {
    hide LogCpg, NodeCpg, Inv;
  }

  lemma PastCpg(c: Config, r: RingId, n: NodeId, nd: Node, s: CpgState, heard: Log, announced: Announced, moved: bool)
    requires nd.idx > CpgIndex(c, r)
    ensures StoredCpg(c, r, n, nd, s, heard, announced, moved)
  {
  }

  lemma DeliverWorld(c: Config, w: World, ws: WorldStep)
    requires ConfigOk(c) && WorldInv(c, w) && WorldEnabled(c, w, ws) && ws.step.Deliver?
    ensures WorldInv(c, WorldApply(c, w, ws))
  {
    hide WorldInv, WorldEnabled, WorldApply, AtCpg;
    var l := At(w.sys, ws.step.n);
    if DeliversApp(w, ws.step.n) {
      DeliverApp(c, w, ws);
    } else if AtCpg(l.node) && At(WorldApply(c, w, ws).sys, ws.step.n).node.idx == l.node.idx + 1 {
      DeliverCommit(c, w, ws);
    } else {
      DeliverQuiet(c, w, ws);
    }
  }

  // ---- sending the head of a queue ----

  /** When the head of the queue is a synchronization message past the barrier of the
      service, the service is finished here, and the head is the barrier message. */
  lemma HeadFacts(c: Config, r: RingId, n: NodeId, nd: Node, log: Log, pos: nat)
    requires ActiveInv(c, r, n, nd, log, pos, false) && nd.out != []
    ensures n in c.members(r) && pos <= |log|
    ensures Count(log + [(n, nd.out[0])], n, r) == Count(log, n, r) + Bit(Tagged(nd.out[0], r))
    ensures Tagged(nd.out[0], r) ==> nd.out[0] == Expected(c, r, n, Count(log, n, r))
    ensures Tagged(nd.out[0], r) ==> Count(log, n, r) <= FinishedCount(nd)
  {
    CountSnoc(log, (n, nd.out[0]), n, r);
    if Tagged(nd.out[0], r) {
      assert Pending(nd.out, r) >= 1;
    }
  }

  /** Nothing that a node announced is still behind its barrier message. */
  lemma HeadBarrier(c: Config, r: RingId, n: NodeId, nd: Node, log: Log, announced: Announced, p: Process)
    requires QueueCpg(c, r, n, nd, log, announced) && nd.out != []
    requires nd.out[0] == BarrierReached(r, CpgIndex(c, r))
    ensures !InOut(nd.out, n, p)
  {
    hide CpgIndex, Count, InLog;
    assert forall a :: 0 <= a < |nd.out| && Carries(n, nd.out[a], p) ==> a < 0;
  }

  lemma OriginateQueue(c: Config, r: RingId, n: NodeId, nd: Node, log: Log, pos: nat, announced: Announced)
    requires ActiveInv(c, r, n, nd, log, pos, false) && nd.out != []
    requires QueueCpg(c, r, n, nd, log, announced)
    ensures QueueCpg(c, r, n, nd.(out := nd.out[1..]), log + [(n, nd.out[0])], announced)
  {
    HeadFacts(c, r, n, nd, log, pos);
    hide CpgIndex, Count, InLog, InOut, ActiveInv;
    var k := CpgIndex(c, r);
    var out, rest, log' := nd.out, nd.out[1..], log + [(n, nd.out[0])];
    forall p
      ensures InLog(log', p) <==> InLog(log, p) || Carries(n, out[0], p)
      ensures InOut(out, n, p) <==> Carries(n, out[0], p) || InOut(rest, n, p)
      ensures InOut(rest, n, p) ==> Count(log', n, r) <= k + 1
    {
      InLogSnoc(log, (n, out[0]), p);
      InOutHead(out, n, p);
      if InOut(rest, n, p) && Count(log', n, r) > k + 1 {
        HeadBarrier(c, r, n, nd, log, announced, p);
        assert false;
      }
    }
    forall a, b, p | 0 <= a < |rest| && 0 <= b < |rest| && Carries(n, rest[a], p) && rest[b] == BarrierReached(r, k)
      ensures a < b
    {
      assert rest[a] == out[a + 1] && rest[b] == out[b + 1];
    }
  }

  lemma OriginateLog(c: Config, r: RingId, n: NodeId, nd: Node, log: Log, pos: nat, announced: Announced)
    requires ActiveInv(c, r, n, nd, log, pos, false) && nd.out != []
    requires QueueCpg(c, r, n, nd, log, announced) && LogCpg(c, r, log, announced)
    ensures LogCpg(c, r, log + [(n, nd.out[0])], announced)
  {
    HeadFacts(c, r, n, nd, log, pos);
    hide CpgIndex, Count, InLog, InOut, ActiveInv, Ann;
    var log' := log + [(n, nd.out[0])];
    forall m
      ensures m != n ==> Count(log', m, r) == Count(log, m, r)
    {
      CountSnoc(log, (n, nd.out[0]), m, r);
    }
    forall i, p | 0 <= i < |log'| && Carries(log'[i].0, log'[i].1, p)
      ensures p in Ann(announced, r, p.nodeid)
    {
      if i == |log| {
        InOutHead(nd.out, n, p);
      } else {
        assert log'[i] == log[i];
      }
    }
    forall i, m, p | 0 <= i <= |log'| && m in c.members(r)
                     && Count(log'[..i], m, r) > CpgIndex(c, r) + 1 && p in Ann(announced, r, m)
      ensures InLog(log'[..i], p)
    {
      OriginatePrefix(c, r, n, nd, log, announced, i, m, p);
    }
  }

  /** The joinlist of a member is before its barrier message in every prefix. */
  lemma OriginatePrefix(c: Config, r: RingId, n: NodeId, nd: Node, log: Log, announced: Announced, i: nat, m: NodeId,
                        p: Process)
    requires nd.out != [] && n in c.members(r)
    requires QueueCpg(c, r, n, nd, log, announced) && LogCpg(c, r, log, announced)
    requires Tagged(nd.out[0], r) ==> nd.out[0] == Expected(c, r, n, Count(log, n, r))
    requires i <= |log| + 1 && m in c.members(r)
    requires Count((log + [(n, nd.out[0])])[..i], m, r) > CpgIndex(c, r) + 1 && p in Ann(announced, r, m)
    ensures InLog((log + [(n, nd.out[0])])[..i], p)
  {
    hide CpgIndex, Count, InLog, InOut, Ann;
    var log' := log + [(n, nd.out[0])];
    if i <= |log| {
      assert log'[..i] == log[..i];
    } else {
      assert log'[..i] == log' && log[..|log|] == log;
      CountSnoc(log, (n, nd.out[0]), m, r);
      InLogSnoc(log, (n, nd.out[0]), p);
      if Count(log, m, r) <= CpgIndex(c, r) + 1 {
        HeadBarrier(c, r, n, nd, log, announced, p);
      }
    }
  }

  /** Another member sees the log grow. */
  lemma OriginateOther(c: Config, r: RingId, m: NodeId, l: Local, s: CpgState, log: Log, announced: Announced,
                       moved: bool, e: (NodeId, Message))
    requires ActiveCpg(c, r, m, l, s, log, announced, moved) && e.0 != m
    ensures ActiveCpg(c, r, m, l, s, log + [e], announced, moved)
  {
    hide CpgIndex, Count, InLog, InOut, Ann;
    CountSnoc(log, e, m, r);
    forall p
      ensures InLog(log, p) ==> InLog(log + [e], p)
    {
      InLogSnoc(log, e, p);
    }
    assert (log + [e])[..l.pos] == log[..l.pos];
  }

  lemma OriginateSelf(c: Config, r: RingId, n: NodeId, l: Local, s: CpgState, log: Log, announced: Announced,
                      moved: bool)
    requires ActiveInv(c, r, n, l.node, log, l.pos, false) && l.node.out != []
    requires ActiveCpg(c, r, n, l, s, log, announced, moved)
    ensures ActiveCpg(c, r, n, l.(node := l.node.(out := l.node.out[1..])), s, log + [(n, l.node.out[0])],
                      announced, moved)
  {
    OriginateQueue(c, r, n, l.node, log, l.pos, announced);
    hide CpgIndex, Count, InLog, InOut, Ann, ActiveInv, QueueCpg;
    assert (log + [(n, l.node.out[0])])[..l.pos] == log[..l.pos];
  }

  lemma OriginateApplied(c: Config, w: World, ws: WorldStep)
    requires WorldEnabled(c, w, ws) && ws.step.Originate?
    ensures var n := ws.step.n;
            var l, w' := At(w.sys, n), WorldApply(c, w, ws);
            && l.cur != NO_RING && l.node.out != [] && !l.transit
            && At(w'.sys, n) == l.(node := l.node.(out := l.node.out[1..]))
            && CpgAt(w', n) == CpgAt(w, n)
            && w'.announced == w.announced && w'.stale == w.stale && w'.moved == w.moved && w'.results == w.results
            && forall r :: LogIn(w'.sys, r) ==
                 if r == l.cur then LogIn(w.sys, r) + [(n, l.node.out[0])] else LogIn(w.sys, r)
  {
    hide AtCpg, OwnProcesses;
  }

  lemma OriginateWorld(c: Config, w: World, ws: WorldStep)
    requires ConfigOk(c) && WorldInv(c, w) && WorldEnabled(c, w, ws) && ws.step.Originate?
    ensures WorldInv(c, WorldApply(c, w, ws))
  {
    hide Inv, ActiveCpg, LocalInv, ActiveInv, WorldApply, Apply, Enabled, LogCpg, CpgIndex, Count,
         WorldEnabled, At, CpgAt, LogIn, ResultOk;
    var n := ws.step.n;
    var w' := WorldApply(c, w, ws);
    WorldParts(c, w, n);
    WorldSystem(c, w, ws);
    OriginateApplied(c, w, ws);
    var l := At(w.sys, n);
    OriginateLocal(c, n, l, LogIn(w.sys, l.cur));
    forall m
      ensures BasicCpg(m, At(w'.sys, m), CpgAt(w', m)) && NodeCpg(c, w', m)
    {
      OriginateNodes(c, w, w', n, m);
    }
    forall r | r != NO_RING && r !in w'.stale
      ensures LogCpg(c, r, LogIn(w'.sys, r), w'.announced)
    {
      LogPart(c, w, r);
      if r == l.cur {
        ActiveQueue(c, r, n, l, CpgAt(w, n), LogIn(w.sys, r), w.announced, (r, n) in w.moved);
        OriginateLog(c, r, n, l.node, LogIn(w.sys, r), l.pos, w.announced);
      }
    }
    forall r, m | r != NO_RING
      ensures RecordOk(c, w', r, m)
    {
      assert RecordOk(c, w, r, m);
    }
  }

  lemma ActiveQueue(c: Config, r: RingId, n: NodeId, l: Local, s: CpgState, log: Log, announced: Announced, moved: bool)
    requires ActiveCpg(c, r, n, l, s, log, announced, moved)
    ensures QueueCpg(c, r, n, l.node, log, announced)
  {
    hide QueueCpg, StoredCpg;
  }

  lemma OriginateNodes(c: Config, w: World, w': World, n: NodeId, m: NodeId)
    requires WorldInv(c, w)
    requires forall k :: k != n ==> At(w'.sys, k) == At(w.sys, k)
    requires forall k :: CpgAt(w', k) == CpgAt(w, k)
    requires w'.announced == w.announced && w'.stale == w.stale && w'.moved == w.moved && w'.results == w.results
    requires var l := At(w.sys, n);
             && l.cur == l.node.ring != NO_RING && l.node.out != [] && !l.transit
             && ActiveInv(c, l.cur, n, l.node, LogIn(w.sys, l.cur), l.pos, false)
             && At(w'.sys, n) == l.(node := l.node.(out := l.node.out[1..]))
             && forall r :: LogIn(w'.sys, r) ==
                  if r == l.cur then LogIn(w.sys, r) + [(n, l.node.out[0])] else LogIn(w.sys, r)
    ensures BasicCpg(m, At(w'.sys, m), CpgAt(w', m)) && NodeCpg(c, w', m)
  {
    WorldParts(c, w, m);
    WorldParts(c, w, n);
    hide WorldInv, Inv, ActiveCpg, ActiveInv, At, CpgAt, LogIn, CpgIndex;
    var l, lm := At(w.sys, n), At(w.sys, m);
    var r := lm.node.ring;
    if r != NO_RING && r !in w.stale && r == l.cur {
      if m == n {
        OriginateSelf(c, r, n, l, CpgAt(w, n), LogIn(w.sys, r), w.announced, (r, n) in w.moved);
      } else {
        OriginateOther(c, r, m, lm, CpgAt(w, m), LogIn(w.sys, r), w.announced, (r, m) in w.moved, (n, l.node.out[0]));
      }
    }
  }

  // ---- every run ----

  lemma WorldInvStep(c: Config, w: World, ws: WorldStep)
    requires ConfigOk(c) && WorldInv(c, w) && WorldEnabled(c, w, ws)
    ensures WorldInv(c, WorldApply(c, w, ws))
  {
    hide WorldInv, WorldEnabled, WorldApply;
    match ws.step
    case RegularConf(_, _, _) => RegularWorld(c, w, ws);
    case TransitionalConf(_, _) => TransitionalWorld(c, w, ws);
    case Originate(_) => OriginateWorld(c, w, ws);
    case Deliver(_) => DeliverWorld(c, w, ws);
    case Skip(_) => SkipWorld(c, w, ws);
    case DoWork(_, _, _) => WorkWorld(c, w, ws);
    case Send(_, _) => SendWorld(c, w, ws);
    case Exchange(_, _, _) => ExchangeWorld(c, w, ws);
    case Restart(_) => RestartWorld(c, w, ws);
  }

  lemma FirstInv(c: Config)
    ensures WorldInv(c, FIRST)
  {
    InitInv(c);
    hide Inv;
    forall r: RingId
      ensures LogCpg(c, r, [], map[])
    {
      hide CpgIndex;
    }
  }

  lemma {:induction false} WorldReachable(c: Config, steps: seq<WorldStep>)
    requires ConfigOk(c) && WorldExec(c, steps).Some?
    ensures WorldInv(c, WorldExec(c, steps).value)
  {
    hide WorldInv, WorldEnabled, WorldApply;
    if steps == [] {
      FirstInv(c);
    } else {
      var k := |steps| - 1;
      WorldReachable(c, steps[..k]);
      WorldInvStep(c, WorldExec(c, steps[..k]).value, steps[k]);
    }
  }
}
