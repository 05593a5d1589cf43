/** What the barrier guarantees over whole runs: nothing is accepted for the wrong
    service, all members step through the same list, and no service is activated
    anywhere before it is finished everywhere. */
module SyncSafety {
  import opened Wrappers
  import opened Sync
  import opened SyncLists
  import opened SyncProtocol
  import opened SyncInvariant

  // ---- no message too early or too late ----

  /** In every reachable state: the code has never indexed the service list beyond
      its end; a barrier message about to be delivered that passes the ring check
      was transmitted for the index its receiver is at; and a node that has
      completed its ring is given no further synchronization message of it. */
  lemma BarrierIsCurrent(c: Config, steps: seq<Step>, n: NodeId)
    requires ConfigOk(c) && Exec(c, steps).Some?
    ensures var s := Exec(c, steps).value;
            var l := At(s, n);
            var log := LogIn(s, l.cur);
            && !l.node.broken
            && (l.cur != NO_RING && l.pos < |log| && Tagged(log[l.pos].1, l.node.ring) ==>
                  && !Completed(l.node)
                  && (log[l.pos].1.BarrierReached? ==>
                        && log[l.pos].1.about == l.node.idx < |l.node.services|
                        && (l.node.state == PROCESS || l.node.state == BARRIER))
                  && (log[l.pos].1.ServiceBuild? ==> l.node.state == SERVICELIST_BUILD))
  {
    Reachable(c, steps);
    var s := Exec(c, steps).value;
    var l := At(s, n);
    var log := LogIn(s, l.cur);
    assert LocalInv(c, n, l, log);
    hide ActiveInv;
    if l.cur != NO_RING && l.pos < |log| && Tagged(log[l.pos].1, l.node.ring) {
      assert TagsOk(log) && RingInv(c, l.cur, log);
      if log[l.pos].1.BarrierReached? {
        AcceptedBarrierIsCurrent(c, l.cur, n, l.node, log, l.pos, l.transit);
      } else {
        AcceptedBuildIsCurrent(c, l.cur, n, l.node, log, l.pos, l.transit);
      }
    }
    ReadyToStart(c, n, l, log);
  }

  // ---- agreement on the service list ----

  lemma PastBuild(c: Config, r: RingId, n: NodeId, nd: Node, log: Log, pos: nat, transit: bool)
    requires ActiveInv(c, r, n, nd, log, pos, transit)
    requires Round(nd) > 0
    ensures Ids(nd.services) == Agenda(c, r)
    ensures forall t :: t in c.members(r) ==> Count(log[..pos], t, r) > 0
  {
    forall t | t in c.members(r)
      ensures Count(log[..pos], t, r) > 0
    {
      var i := MemberIndex(c, r, t);
    }
    ServicesAreAgenda(c, r, n, nd, log[..pos]);
  }

  /** Once a node is past the exchange of service lists, its list is the agenda of
      the ring: strictly increasing, and exactly the services loaded on any member.
      The agenda does not depend on the node, so all members agree on it. */
  lemma ServiceListAgreement(c: Config, steps: seq<Step>, n: NodeId)
    requires ConfigOk(c) && Exec(c, steps).Some?
    ensures var nd := At(Exec(c, steps).value, n).node;
            nd.ring != NO_RING && nd.state != SERVICELIST_BUILD ==>
              && Ids(nd.services) == Agenda(c, nd.ring)
              && IncreasingIds(Ids(nd.services))
              && forall x :: x in Ids(nd.services) <==>
                   exists i :: 0 <= i < |c.members(nd.ring)| && x in c.loaded(nd.ring, c.members(nd.ring)[i])
  {
    Reachable(c, steps);
    var s := Exec(c, steps).value;
    var l := At(s, n);
    assert LocalInv(c, n, l, LogIn(s, l.cur));
    if l.node.ring != NO_RING && l.node.state != SERVICELIST_BUILD {
      PastBuild(c, l.cur, n, l.node, LogIn(s, l.cur), l.pos, l.transit);
    }
  }

  // ---- no service is activated before all members have finished it ----

  /** Before every activation in a ring, each member of the ring has finished
      `sync_process` of that service in that ring. */
  ghost predicate BarrierHeld(c: Config, events: seq<Event>) {
    forall i, t :: 0 <= i < |events| && events[i].Committed? && t in c.members(events[i].ring) ==>
      Finished(t, events[i].ring, events[i].service) in events[..i]
  }

  /** How many services of the agenda the node has finished processing. */
  function FinishedCount(nd: Node): nat {
    nd.idx + Bit(nd.state == BARRIER && nd.idx < |nd.services|)
  }

  ghost predicate LogFinished(c: Config, r: RingId, log: Log, events: seq<Event>) {
    forall t, k :: 0 <= k < |Agenda(c, r)| && t in c.members(r) && k + 1 < Count(log, t, r) ==>
      Finished(t, r, Agenda(c, r)[k]) in events
  }

  ghost predicate NodeFinished(c: Config, n: NodeId, nd: Node, events: seq<Event>) {
    nd.ring != NO_RING ==>
      forall k :: 0 <= k < |Agenda(c, nd.ring)| && k < FinishedCount(nd) ==>
        Finished(n, nd.ring, Agenda(c, nd.ring)[k]) in events
  }

  ghost predicate FinishInv(c: Config, s: System) {
    && (forall r :: r != NO_RING ==> LogFinished(c, r, LogIn(s, r), s.events))
    && (forall n :: NodeFinished(c, n, At(s, n).node, s.events))
    && BarrierHeld(c, s.events)
  }

  lemma BarrierHeldSnoc(c: Config, events: seq<Event>, e: Event)
    requires BarrierHeld(c, events)
    requires e.Committed? ==> forall t :: t in c.members(e.ring) ==> Finished(t, e.ring, e.service) in events
    ensures BarrierHeld(c, events + [e])
  {
    var ev := events + [e];
    forall i, t | 0 <= i < |ev| && ev[i].Committed? && t in c.members(ev[i].ring)
      ensures Finished(t, ev[i].ring, ev[i].service) in ev[..i]
    {
      if i < |events| {
        assert ev[..i] == events[..i] && ev[i] == events[i];
      } else {
        assert ev[..i] == events;
      }
    }
  }

  /** One node steps, no log changes, milestones are added. */
  lemma FinishOneNode(c: Config, s: System, n: NodeId, l: Local, more: seq<Event>)
    requires FinishInv(c, s)
    requires NodeFinished(c, n, l.node, s.events + more)
    requires BarrierHeld(c, s.events + more)
    ensures FinishInv(c, SetLocal(s, n, l).(events := s.events + more))
  {
    var s' := SetLocal(s, n, l).(events := s.events + more);
    hide Agenda, Count;
    forall r | r != NO_RING
      ensures LogFinished(c, r, LogIn(s', r), s'.events)
    {
      assert LogFinished(c, r, LogIn(s, r), s.events);
      assert LogIn(s', r) == LogIn(s, r);
    }
    forall m
      ensures NodeFinished(c, m, At(s', m).node, s'.events)
    {
      if m != n {
        assert At(s', m) == At(s, m);
        assert NodeFinished(c, m, At(s, m).node, s.events);
      }
    }
  }

  /** Delivering: either no milestone, or a commit that every member has finished. */
  lemma DeliverFinish(c: Config, s: System, n: NodeId)
    requires ConfigOk(c) && Inv(c, s) && FinishInv(c, s) && Enabled(c, s, Deliver(n))
    ensures FinishInv(c, Apply(c, s, Deliver(n)))
  {
    hide DeliverMessage, ActiveInv, RingInv, NodeFinished, LogFinished, BarrierHeld, Milestones;
    var l := At(s, n);
    var log := LogIn(s, l.cur);
    var (from, m) := log[l.pos];
    var nd := DeliverMessage(l.node, from, m);
    var more := Milestones(n, l.node, nd);
    assert LocalInv(c, n, l, log) && RingInv(c, l.cur, log) && TagsOk(log);
    assert NodeFinished(c, n, l.node, s.events);
    assert LogFinished(c, l.cur, log, s.events);
    if l.node.ring == NO_RING {
      IdleIgnores(l.node, from, m);
      NoMilestone(n, l.node);
      assert s.events + more == s.events;
    } else {
      DeliverFinishActive(c, l.cur, n, l.node, log, l.pos, l.transit, s.events);
    }
    FinishOneNode(c, s, n, l.(node := nd, pos := l.pos + 1), more);
  }

  lemma NoMilestone(n: NodeId, nd: Node)
    ensures Milestones(n, nd, nd) == []
  {
  }

  lemma DeliverFinishActive(c: Config, r: RingId, n: NodeId, nd: Node, log: Log, pos: nat, transit: bool,
                            events: seq<Event>)
    requires ConfigOk(c) && r != NO_RING
    requires RingInv(c, r, log) && ActiveInv(c, r, n, nd, log, pos, transit) && pos < |log|
    requires NodeFinished(c, n, nd, events) && LogFinished(c, r, log, events) && BarrierHeld(c, events)
    ensures var nd' := DeliverMessage(nd, log[pos].0, log[pos].1);
            var all := events + Milestones(n, nd, nd');
            NodeFinished(c, n, nd', all) && BarrierHeld(c, all)
  {
    hide ActiveInv, RingInv, NodeFinished, LogFinished, BarrierHeld, AddUnknown, SortServices;
    var nd' := DeliverMessage(nd, log[pos].0, log[pos].1);
    var more := Milestones(n, nd, nd');
    if !Tagged(log[pos].1, r) {
      DeliverForeign(c, r, n, nd, log, pos, transit);
      assert events + more == events;
    } else if log[pos].1.ServiceBuild? {
      AcceptedBuildIsCurrent(c, r, n, nd, log, pos, transit);
      BuildFinish(c, r, n, nd, log, pos, transit, events);
    } else {
      AcceptedBarrierIsCurrent(c, r, n, nd, log, pos, transit);
      if nd'.idx == nd.idx + 1 {
        CommitFinish(c, r, n, nd, log, pos, transit, events);
      } else {
        assert nd'.state == nd.state && nd'.services == nd.services && nd'.ring == nd.ring && more == [];
        assert events + more == events;
        SameFinished(c, n, nd, nd', events);
      }
    }
  }

  lemma SameFinished(c: Config, n: NodeId, nd: Node, nd': Node, events: seq<Event>)
    requires NodeFinished(c, n, nd, events)
    requires nd'.state == nd.state && nd'.services == nd.services && nd'.ring == nd.ring && nd'.idx == nd.idx
    ensures NodeFinished(c, n, nd', events)
  {
  }

  /** The exchange of service lists finishes no service. */
  lemma BuildFinish(c: Config, r: RingId, n: NodeId, nd: Node, log: Log, pos: nat, transit: bool,
                    events: seq<Event>)
    requires ActiveInv(c, r, n, nd, log, pos, transit) && pos < |log|
    requires log[pos].1.ServiceBuild? && log[pos].1.ring == r && nd.state == SERVICELIST_BUILD
    requires NodeFinished(c, n, nd, events) && BarrierHeld(c, events)
    ensures var nd' := DeliverMessage(nd, log[pos].0, log[pos].1);
            var all := events + Milestones(n, nd, nd');
            NodeFinished(c, n, nd', all) && BarrierHeld(c, all)
  {
    hide AddUnknown, SortServices, MarkReceived, BarrierHeld;
    var nd' := DeliverMessage(nd, log[pos].0, log[pos].1);
    assert nd.idx == 0 && nd'.idx == 0 && nd'.state != BARRIER;
    assert events + Milestones(n, nd, nd') == events;
  }

  lemma CommitFinish(c: Config, r: RingId, n: NodeId, nd: Node, log: Log, pos: nat, transit: bool,
                     events: seq<Event>)
    requires ConfigOk(c) && r != NO_RING
    requires RingInv(c, r, log) && ActiveInv(c, r, n, nd, log, pos, transit) && pos < |log|
    requires log[pos].1.BarrierReached? && log[pos].1.ring == r
    requires DeliverMessage(nd, log[pos].0, log[pos].1).idx == nd.idx + 1
    requires nd.idx < |nd.services| && (nd.state == PROCESS || nd.state == BARRIER)
    requires NodeFinished(c, n, nd, events) && LogFinished(c, r, log, events) && BarrierHeld(c, events)
    ensures var nd' := DeliverMessage(nd, log[pos].0, log[pos].1);
            var all := events + Milestones(n, nd, nd');
            NodeFinished(c, n, nd', all) && BarrierHeld(c, all)
  {
    hide RingInv, ActiveInv, Agenda, Count, MarkReceived, BarrierHeld, ClearReceived;
    var nd' := DeliverMessage(nd, log[pos].0, log[pos].1);
    DeliverActive(c, r, n, nd, log, pos, transit);
    PastBuild(c, r, n, nd, log, pos, transit);
    SameOut(nd, log[pos].0, log[pos].1);
    var id := nd.services[nd.idx].id;
    assert id == Ids(nd.services)[nd.idx] == Agenda(c, r)[nd.idx];
    forall t | t in c.members(r)
      ensures Finished(t, r, id) in events
    {
      HeardFromAll(c, r, n, nd', log, pos + 1, transit, t);
      CountGrows(log, pos + 1, t, r);
    }
    BarrierHeldSnoc(c, events, Committed(n, r, id));
    ActiveIsMember(c, r, n, nd, log, pos, transit);
  }

  lemma ActiveIsMember(c: Config, r: RingId, n: NodeId, nd: Node, log: Log, pos: nat, transit: bool)
    requires ActiveInv(c, r, n, nd, log, pos, transit)
    ensures n in c.members(r) && nd.ring == r && pos <= |log|
  {
  }

  /** A node past a barrier has heard from every member. */
  lemma HeardFromAll(c: Config, r: RingId, n: NodeId, nd: Node, log: Log, pos: nat, transit: bool, t: NodeId)
    requires ActiveInv(c, r, n, nd, log, pos, transit) && t in c.members(r)
    requires nd.state != SERVICELIST_BUILD
    ensures pos <= |log| && Count(log[..pos], t, r) >= nd.idx + 1
  {
    hide Count, ServicesInv, SentInv;
    var i := MemberIndex(c, r, t);
  }

  lemma WorkFinishActive(c: Config, r: RingId, n: NodeId, nd: Node, log: Log, pos: nat, transit: bool,
                         sent: seq<Message>, done: bool, events: seq<Event>)
    requires r != NO_RING && ActiveInv(c, r, n, nd, log, pos, transit) && nd.scheduled
    requires NodeFinished(c, n, nd, events) && BarrierHeld(c, events)
    ensures var nd' := Work(nd, sent, done);
            var all := events + Milestones(n, nd, nd');
            NodeFinished(c, n, nd', all) && BarrierHeld(c, all)
  {
    hide ActiveInv, Agenda, BarrierHeld;
    ScheduledFacts(c, r, n, nd, log, pos, transit);
    PastBuild(c, r, n, nd, log, pos, transit);
    var nd' := Work(nd, sent, done);
    var more := Milestones(n, nd, nd');
    if nd'.state == BARRIER {
      assert nd.services[nd.idx].id == Ids(nd.services)[nd.idx];
      assert more == [Finished(n, r, Agenda(c, r)[nd.idx])];
      BarrierHeldSnoc(c, events, more[0]);
    } else {
      assert events + more == events;
    }
  }

  lemma ScheduledFacts(c: Config, r: RingId, n: NodeId, nd: Node, log: Log, pos: nat, transit: bool)
    requires ActiveInv(c, r, n, nd, log, pos, transit) && nd.scheduled
    ensures nd.state == PROCESS && nd.idx < |nd.services| && !nd.services[nd.idx].activated && nd.ring == r
  {
    NotActivated(nd.services, Known(c, r, n, log[..pos]), ToSet(c.loaded(r, n)), nd.idx);
  }

  lemma WorkFinish(c: Config, s: System, n: NodeId, sent: seq<CpgMessage>, done: bool)
    requires ConfigOk(c) && Inv(c, s) && FinishInv(c, s) && Enabled(c, s, DoWork(n, sent, done))
    ensures FinishInv(c, Apply(c, s, DoWork(n, sent, done)))
  {
    hide LocalInv, NodeFinished, BarrierHeld, Work, Milestones;
    var l := At(s, n);
    var log := LogIn(s, l.cur);
    var nd := Work(l.node, Bodies(sent), done);
    assert LocalInv(c, n, l, log);
    assert NodeFinished(c, n, l.node, s.events);
    ScheduledActive(c, n, l, log);
    WorkFinishActive(c, l.cur, n, l.node, log, l.pos, l.transit, Bodies(sent), done, s.events);
    FinishOneNode(c, s, n, l.(node := nd), Milestones(n, l.node, nd));
  }

  lemma OriginateFinish(c: Config, s: System, n: NodeId)
    requires ConfigOk(c) && Inv(c, s) && FinishInv(c, s) && Enabled(c, s, Originate(n))
    ensures FinishInv(c, Apply(c, s, Originate(n)))
  {
    var l := At(s, n);
    var r := l.cur;
    var log := LogIn(s, r);
    var e := (n, l.node.out[0]);
    var s' := Apply(c, s, Originate(n));
    assert LocalInv(c, n, l, log);
    assert NodeFinished(c, n, l.node, s.events) && LogFinished(c, r, log, s.events);
    OriginateFinishLog(c, r, n, l.node, log, l.pos, s.events);
    hide Agenda, Count, LocalInv, RingInv, ActiveInv;
    forall q | q != NO_RING
      ensures LogFinished(c, q, LogIn(s', q), s'.events)
    {
      assert LogFinished(c, q, LogIn(s, q), s.events);
      assert LogIn(s', q) == if q == r then log + [e] else LogIn(s, q);
    }
    forall m
      ensures NodeFinished(c, m, At(s', m).node, s'.events)
    {
      assert NodeFinished(c, m, At(s, m).node, s.events);
    }
  }

  lemma OriginateFinishLog(c: Config, r: RingId, n: NodeId, nd: Node, log: Log, pos: nat, events: seq<Event>)
    requires ConfigOk(c) && r != NO_RING && ActiveInv(c, r, n, nd, log, pos, false) && nd.out != []
    requires NodeFinished(c, n, nd, events) && LogFinished(c, r, log, events)
    ensures LogFinished(c, r, log + [(n, nd.out[0])], events)
  {
    var e := (n, nd.out[0]);
    PendingBound(c, r, n, nd, log, pos, false);
    forall t, k | 0 <= k < |Agenda(c, r)| && t in c.members(r) && k + 1 < Count(log + [e], t, r)
      ensures Finished(t, r, Agenda(c, r)[k]) in events
    {
      CountSnoc(log, e, t, r);
      if !(k + 1 < Count(log, t, r)) {
        assert t == n && Tagged(e.1, r) && k + 1 == Count(log, n, r);
        assert Pending(nd.out, r) >= 1;
        assert nd.state == BARRIER && nd.idx < |nd.services| && nd.idx == k;
      }
    }
  }

  lemma FinishStep(c: Config, s: System, step: Step)
    requires ConfigOk(c) && Inv(c, s) && FinishInv(c, s) && Enabled(c, s, step)
    ensures FinishInv(c, Apply(c, s, step))
  {
    hide Inv, FinishInv;
    match step {
      case Originate(n) => OriginateFinish(c, s, n);
      case Deliver(n) => DeliverFinish(c, s, n);
      case DoWork(n, sent, done) => WorkFinish(c, s, n, sent, done);
      case RegularConf(_, _, _) => OtherFinish(c, s, step);
      case TransitionalConf(_, _) => OtherFinish(c, s, step);
      case Skip(_) => OtherFinish(c, s, step);
      case Send(_, _) => OtherFinish(c, s, step);
      case Exchange(_, _, _) => OtherFinish(c, s, step);
      case Restart(_) => OtherFinish(c, s, step);
    }
  }

  /** Steps without milestones: the node starts afresh, leaves its ring, or keeps its
      place in it. */
  lemma OtherFinish(c: Config, s: System, step: Step)
    requires FinishInv(c, s) && Enabled(c, s, step)
    requires step.RegularConf? || step.TransitionalConf? || step.Skip? || step.Send? || step.Exchange? || step.Restart?
    ensures FinishInv(c, Apply(c, s, step))
  {
    var s' := Apply(c, s, step);
    var n := step.n;
    assert NodeFinished(c, n, At(s, n).node, s.events);
    assert s.events + [] == s.events;
    assert s' == SetLocal(s, n, At(s', n)).(events := s.events + []);
    FinishOneNode(c, s, n, At(s', n), []);
  }

  lemma {:induction false} FinishReachable(c: Config, steps: seq<Step>)
    requires ConfigOk(c) && Exec(c, steps).Some?
    ensures FinishInv(c, Exec(c, steps).value)
  {
    if steps != [] {
      var pre := steps[..|steps| - 1];
      FinishReachable(c, pre);
      Reachable(c, pre);
      FinishStep(c, Exec(c, pre).value, steps[|steps| - 1]);
    }
  }

  /** Barrier safety. In every run, whatever the configuration changes, no node
      activates a service in a ring before every member of that ring has finished
      `sync_process` of that service in that ring. */
  lemma BarrierSafety(c: Config, steps: seq<Step>)
    requires ConfigOk(c) && Exec(c, steps).Some?
    ensures BarrierHeld(c, Exec(c, steps).value.events)
  {
    FinishReachable(c, steps);
  }
}
