/** What a service sees: `sync_init` at the beginning of a round, and if its `sync_process`
    ran, its `sync_activate` or a `sync_abort` before the next round, never both. */
module SyncDiscipline {
  import opened Wrappers
  import opened Sync
  import opened SyncLists
  import opened SyncProtocol
  import opened SyncInvariant
  import opened SyncSafety
  import opened SyncOpening

  /** The calls since the last start of a round. */
  function CurrentRound(calls: seq<Callback>): seq<Callback> {
    if calls == [] then []
    else
      var last := calls[|calls| - 1];
      if last.RoundStart? then [] else CurrentRound(calls[..|calls| - 1]) + [last]
  }

  /** Whatever was processed has been activated or aborted. */
  ghost predicate Settled(round: seq<Callback>) {
    forall id :: Processed(id) in round ==> Activated(id) in round || Aborted(id) in round
  }

  /** Nothing is both activated and aborted, and only processed services are activated. */
  ghost predicate Exclusive(round: seq<Callback>) {
    forall id :: Activated(id) in round ==> Aborted(id) !in round && Processed(id) in round
  }

  ghost predicate Disciplined(calls: seq<Callback>) {
    && (forall i :: 0 <= i <= |calls| ==> Exclusive(CurrentRound(calls[..i])))
    && (forall i :: 0 <= i < |calls| && calls[i].RoundStart? ==> Settled(CurrentRound(calls[..i])))
  }

  lemma RoundSnoc(calls: seq<Callback>, x: Callback)
    ensures CurrentRound(calls + [x]) == if x.RoundStart? then [] else CurrentRound(calls) + [x]
  {
    assert (calls + [x])[..|calls + [x]| - 1] == calls;
  }

  lemma DisciplinedSnoc(calls: seq<Callback>, x: Callback)
    requires Disciplined(calls)
    requires Exclusive(CurrentRound(calls + [x]))
    requires x.RoundStart? ==> Settled(CurrentRound(calls))
    ensures Disciplined(calls + [x])
  {
    var all := calls + [x];
    forall i | 0 <= i <= |all|
      ensures Exclusive(CurrentRound(all[..i]))
    {
      if i <= |calls| {
        assert all[..i] == calls[..i];
      } else {
        assert all[..i] == all;
      }
    }
    forall i | 0 <= i < |all| && all[i].RoundStart?
      ensures Settled(CurrentRound(all[..i]))
    {
      assert all[..i] == calls[..i];
      if i == |calls| {
        assert calls[..i] == calls;
      }
    }
  }

  // ---- the state of a node and its current round ----

  /** The service at a position of the list, if this node has it loaded. */
  ghost predicate Own(nd: Node, j: nat, id: ServiceId) {
    j < |nd.services| && nd.services[j].loaded && nd.services[j].id == id
  }

  ghost predicate RoundInv(nd: Node) {
    var round := CurrentRound(nd.calls);
    && (forall j, id :: 0 <= j < nd.idx && Own(nd, j, id) ==> Activated(id) in round)
    && (forall id :: Activated(id) in round ==> exists j :: 0 <= j < nd.idx && Own(nd, j, id))
    && (forall id :: Aborted(id) in round ==> Own(nd, nd.idx, id) && nd.ring == NO_RING)
    && (forall id :: Processed(id) in round ==>
          nd.state != SERVICELIST_BUILD && exists j :: 0 <= j <= nd.idx && Own(nd, j, id))
    && (forall id :: nd.state == BARRIER && Own(nd, nd.idx, id) ==> Processed(id) in round)
    && (nd.ring == NO_RING && nd.state != SERVICELIST_BUILD ==>
          forall id :: Own(nd, nd.idx, id) ==> Aborted(id) in round)
  }

  ghost predicate NodeDiscipline(nd: Node) {
    && RoundInv(nd)
    && Disciplined(nd.calls)
    && Increasing(nd.services)
    && nd.idx <= |nd.services|
    && (nd.state == SERVICELIST_BUILD ==> nd.idx == 0)
  }

  /** Changes that neither call a service nor move the index. */
  lemma SameRound(a: Node, b: Node)
    requires NodeDiscipline(a)
    requires b.calls == a.calls && b.services == a.services && b.idx == a.idx && b.state == a.state && b.ring == a.ring
    ensures NodeDiscipline(b)
  {
    assert forall j, id :: Own(b, j, id) <==> Own(a, j, id);
  }

  // ---- aborting ----

  lemma AbortDiscipline(nd: Node)
    requires NodeDiscipline(nd)
    ensures NodeDiscipline(Abort(nd))
    ensures Settled(CurrentRound(Abort(nd).calls))
  {
    var nd' := Abort(nd);
    var round := CurrentRound(nd.calls);
    assert forall j, id :: Own(nd', j, id) <==> Own(nd, j, id);
    if nd.state != SERVICELIST_BUILD && nd.idx < |nd.services| && nd.services[nd.idx].loaded {
      var cur := nd.services[nd.idx].id;
      var x := Aborted(cur);
      assert nd'.calls == nd.calls + [x];
      RoundSnoc(nd.calls, x);
      assert Own(nd, nd.idx, cur);
      forall j: nat | j < nd.idx
        ensures !Own(nd, j, cur)
      {
        assert nd.services[j].id < nd.services[nd.idx].id;
      }
      assert Activated(cur) !in round;
      assert nd.calls[..|nd.calls|] == nd.calls;
      assert Exclusive(round + [x]);
      DisciplinedSnoc(nd.calls, x);
      AbortRound(nd, nd', cur);
    } else {
      assert nd'.calls == nd.calls;
    }
  }

  lemma AbortRound(nd: Node, nd': Node, cur: ServiceId)
    requires NodeDiscipline(nd)
    requires Own(nd, nd.idx, cur) && nd.state != SERVICELIST_BUILD
    requires CurrentRound(nd'.calls) == CurrentRound(nd.calls) + [Aborted(cur)]
    requires nd'.services == nd.services && nd'.idx == nd.idx && nd'.state == nd.state && nd'.ring == NO_RING
    ensures RoundInv(nd')
    ensures Settled(CurrentRound(nd'.calls))
  {
    assert forall j, id :: Own(nd', j, id) <==> Own(nd, j, id);
    assert forall id :: Own(nd, nd.idx, id) ==> id == cur;
  }

  // ---- starting a round ----

  lemma StartDiscipline(nd: Node, members: seq<NodeId>, ring: RingId, loaded: seq<ServiceId>)
    requires NodeDiscipline(nd) && Settled(CurrentRound(nd.calls))
    requires IncreasingIds(loaded) && ring != NO_RING
    ensures NodeDiscipline(Start(nd, members, ring, loaded))
  {
    var nd' := Start(nd, members, ring, loaded);
    RoundSnoc(nd.calls, RoundStart(ring));
    DisciplinedSnoc(nd.calls, RoundStart(ring));
    InitsRound(nd.calls + [RoundStart(ring)], Inits(loaded));
    hide Disciplined, CurrentRound, Settled;
    FreshRound(nd', Inits(loaded));
  }

  lemma FreshRound(nd: Node, inits: seq<Callback>)
    requires CurrentRound(nd.calls) == inits
    requires forall i :: 0 <= i < |inits| ==> inits[i].Init?
    requires nd.idx == 0 && nd.state == SERVICELIST_BUILD
    ensures RoundInv(nd)
  {
    hide CurrentRound;
    assert forall id :: Activated(id) !in inits && Aborted(id) !in inits && Processed(id) !in inits;
  }

  /** Calls of `sync_init` at the beginning of a round. */
  lemma {:induction false} InitsRound(calls: seq<Callback>, inits: seq<Callback>)
    requires Disciplined(calls) && CurrentRound(calls) == []
    requires forall i :: 0 <= i < |inits| ==> inits[i].Init?
    ensures CurrentRound(calls + inits) == inits
    ensures Disciplined(calls + inits)
  {
    if inits == [] {
      assert calls + inits == calls;
    } else {
      var k := |inits| - 1;
      InitsRound(calls, inits[..k]);
      assert calls + inits == (calls + inits[..k]) + [inits[k]];
      RoundSnoc(calls + inits[..k], inits[k]);
      assert inits == inits[..k] + [inits[k]];
      DisciplinedSnoc(calls + inits[..k], inits[k]);
    }
  }

  // ---- working and committing ----

  lemma WorkDiscipline(nd: Node, sent: seq<Message>, done: bool)
    requires NodeDiscipline(nd)
    requires nd.state == PROCESS && nd.ring != NO_RING && nd.idx < |nd.services| && !nd.services[nd.idx].activated
    ensures NodeDiscipline(Work(nd, sent, done))
  {
    var nd' := Work(nd, sent, done);
    var s := nd.services[nd.idx];
    assert forall j, id :: Own(nd', j, id) <==> Own(nd, j, id);
    if s.loaded {
      var x := Processed(s.id);
      assert nd'.calls == nd.calls + [x];
      RoundSnoc(nd.calls, x);
      assert nd.calls[..|nd.calls|] == nd.calls;
      assert Exclusive(CurrentRound(nd.calls));
      DisciplinedSnoc(nd.calls, x);
      WorkRound(nd, nd', s.id);
    } else {
      assert nd'.calls == nd.calls + [] == nd.calls;
      assert forall id :: !Own(nd', nd'.idx, id);
    }
  }

  lemma WorkRound(nd: Node, nd': Node, cur: ServiceId)
    requires RoundInv(nd) && nd.state == PROCESS && nd.ring != NO_RING
    requires Own(nd, nd.idx, cur)
    requires CurrentRound(nd'.calls) == CurrentRound(nd.calls) + [Processed(cur)]
    requires nd'.services == nd.services && nd'.idx == nd.idx && nd'.ring == nd.ring
    requires nd'.state != SERVICELIST_BUILD
    ensures RoundInv(nd')
  {
    assert forall j, id :: Own(nd', j, id) <==> Own(nd, j, id);
    assert forall id :: Own(nd, nd.idx, id) ==> id == cur;
  }

  lemma CommitDiscipline(nd: Node)
    requires NodeDiscipline(nd)
    requires nd.state == BARRIER && nd.ring != NO_RING && nd.idx < |nd.services|
    ensures NodeDiscipline(Commit(nd))
  {
    var nd' := Commit(nd);
    var s := nd.services[nd.idx];
    assert forall j, id :: Own(nd', j, id) <==> Own(nd, j, id);
    if s.loaded {
      var x := Activated(s.id);
      assert nd'.calls == nd.calls + [x];
      RoundSnoc(nd.calls, x);
      assert Own(nd, nd.idx, s.id);
      assert nd.calls[..|nd.calls|] == nd.calls;
      assert Exclusive(CurrentRound(nd.calls));
      DisciplinedSnoc(nd.calls, x);
      CommitRound(nd, nd', s.id);
    } else {
      assert nd'.calls == nd.calls + [] == nd.calls;
      CommitRoundDummy(nd, nd');
    }
  }

  lemma CommitRound(nd: Node, nd': Node, cur: ServiceId)
    requires RoundInv(nd) && nd.state == BARRIER && nd.ring != NO_RING
    requires Own(nd, nd.idx, cur)
    requires CurrentRound(nd'.calls) == CurrentRound(nd.calls) + [Activated(cur)]
    requires forall j, id :: Own(nd', j, id) <==> Own(nd, j, id)
    requires nd'.idx == nd.idx + 1 && nd'.ring == nd.ring
    requires nd'.state == PROCESS || (nd'.state == BARRIER && nd'.idx == |nd'.services|)
    ensures RoundInv(nd')
  {
    var round, round' := CurrentRound(nd.calls), CurrentRound(nd'.calls);
    forall j, id | 0 <= j < nd'.idx && Own(nd', j, id)
      ensures Activated(id) in round'
    {
      if j == nd.idx {
        assert id == cur;
      }
    }
    forall id | Activated(id) in round'
      ensures exists j :: 0 <= j < nd'.idx && Own(nd', j, id)
    {
      if id == cur {
        assert Own(nd', nd.idx, cur);
      } else {
        assert Activated(id) in round;
        var j :| 0 <= j < nd.idx && Own(nd, j, id);
        assert Own(nd', j, id);
      }
    }
    forall id | Processed(id) in round'
      ensures exists j :: 0 <= j <= nd'.idx && Own(nd', j, id)
    {
      assert Processed(id) in round;
      var j :| 0 <= j <= nd.idx && Own(nd, j, id);
      assert Own(nd', j, id);
    }
  }

  lemma CommitRoundDummy(nd: Node, nd': Node)
    requires RoundInv(nd) && nd.state == BARRIER && nd.ring != NO_RING
    requires nd.idx < |nd.services| && !nd.services[nd.idx].loaded
    requires nd'.calls == nd.calls
    requires forall j, id :: Own(nd', j, id) <==> Own(nd, j, id)
    requires nd'.idx == nd.idx + 1 && nd'.ring == nd.ring
    requires nd'.state == PROCESS || (nd'.state == BARRIER && nd'.idx == |nd'.services|)
    ensures RoundInv(nd')
  {
    var round := CurrentRound(nd.calls);
    forall j, id | 0 <= j < nd'.idx && Own(nd', j, id)
      ensures Activated(id) in round
    {
      assert j != nd.idx;
    }
    forall id | Activated(id) in round
      ensures exists j :: 0 <= j < nd'.idx && Own(nd', j, id)
    {
      var j :| 0 <= j < nd.idx && Own(nd, j, id);
      assert Own(nd', j, id);
    }
    forall id | Processed(id) in round
      ensures exists j :: 0 <= j <= nd'.idx && Own(nd', j, id)
    {
      var j :| 0 <= j <= nd.idx && Own(nd, j, id);
      assert Own(nd', j, id);
    }
  }

  // ---- all steps ----

  lemma DeliverDiscipline(c: Config, r: RingId, n: NodeId, nd: Node, log: Log, pos: nat, transit: bool)
    requires ConfigOk(c) && r != NO_RING && NodeDiscipline(nd)
    requires RingInv(c, r, log) && ActiveInv(c, r, n, nd, log, pos, transit) && pos < |log|
    ensures NodeDiscipline(DeliverMessage(nd, log[pos].0, log[pos].1))
  {
    var (s, m) := log[pos];
    var nd' := DeliverMessage(nd, s, m);
    if !Tagged(m, r) {
      DeliverForeign(c, r, n, nd, log, pos, transit);
    } else if m.ServiceBuild? {
      AcceptedBuildIsCurrent(c, r, n, nd, log, pos, transit);
      DeliverActive(c, r, n, nd, log, pos, transit);
      BuildDiscipline(c, r, n, nd, log, pos, transit);
    } else {
      AcceptedBarrierIsCurrent(c, r, n, nd, log, pos, transit);
      var n1 := nd.(processors := MarkReceived(nd.processors, s));
      SameRound(nd, n1);
      if AllReceived(n1.processors) {
        AtBarrier(c, r, n, nd, log, pos, transit);
        CommitDiscipline(n1);
      }
    }
  }

  /** A node whose own barrier message was delivered is waiting at the barrier. */
  lemma AtBarrier(c: Config, r: RingId, n: NodeId, nd: Node, log: Log, pos: nat, transit: bool)
    requires ConfigOk(c) && RingInv(c, r, log) && ActiveInv(c, r, n, nd, log, pos, transit) && pos < |log|
    requires log[pos].1.BarrierReached? && log[pos].1.ring == r
    requires AllReceived(MarkReceived(nd.processors, log[pos].0))
    ensures nd.state == BARRIER
  {
    var i := AcceptedRank(c, r, n, nd, log, pos, transit);
    AcceptedBarrierIsCurrent(c, r, n, nd, log, pos, transit);
    MarkedCounts(c, r, n, nd, log, pos, transit, i);
    var k := MemberIndex(c, r, n);
    CountGrows(log, pos + 1, n, r);
  }

  lemma BuildDiscipline(c: Config, r: RingId, n: NodeId, nd: Node, log: Log, pos: nat, transit: bool)
    requires NodeDiscipline(nd) && r != NO_RING
    requires ActiveInv(c, r, n, nd, log, pos, transit) && pos < |log|
    requires log[pos].1.ServiceBuild? && log[pos].1.ring == r
    requires nd.state == SERVICELIST_BUILD
    requires ActiveInv(c, r, n, DeliverMessage(nd, log[pos].0, log[pos].1), log, pos + 1, transit)
    ensures NodeDiscipline(DeliverMessage(nd, log[pos].0, log[pos].1))
  {
    var nd' := DeliverMessage(nd, log[pos].0, log[pos].1);
    assert Increasing(nd'.services);
    hide ActiveInv, Count, AddUnknown, SortServices, Disciplined;
    assert nd'.calls == nd.calls && nd'.idx == 0 && nd'.state != BARRIER && nd'.ring == r;
  }

  lemma StepDiscipline(c: Config, s: System, step: Step)
    requires ConfigOk(c) && Inv(c, s) && Enabled(c, s, step)
    requires NodeDiscipline(At(s, step.n).node)
    ensures NodeDiscipline(At(Apply(c, s, step), step.n).node)
  {
    hide NodeDiscipline, RingInv, ActiveInv;
    var n := step.n;
    var l := At(s, n);
    var log := LogIn(s, l.cur);
    assert LocalInv(c, n, l, log);
    match step {
      case RegularConf(_, r, kept) =>
        RegularDiscipline(c, n, l, log, r, kept);
      case TransitionalConf(_, members) =>
        TransitionalDiscipline(l.node, members);
      case Originate(_) =>
        SameRound(l.node, l.node.(out := l.node.out[1..]));
      case Deliver(_) =>
        assert RingInv(c, l.cur, log) && TagsOk(log);
        if l.node.ring == NO_RING {
          assert DeliverMessage(l.node, log[l.pos].0, log[l.pos].1) == l.node;
        } else {
          DeliverDiscipline(c, l.cur, n, l.node, log, l.pos, l.transit);
        }
      case Skip(_) =>
      case DoWork(_, sent, done) =>
        ScheduledActive(c, n, l, log);
        ScheduledFacts(c, l.cur, n, l.node, log, l.pos, l.transit);
        WorkDiscipline(l.node, Bodies(sent), done);
      case Send(_, body) =>
        SameRound(l.node, l.node.(out := l.node.out + [App(body)]));
      case Exchange(_, out, _) =>
        SameRound(l.node, l.node.(out := out));
      case Restart(_) =>
        InitialDiscipline();
    }
  }

  lemma TransitionalDiscipline(nd: Node, members: seq<NodeId>)
    requires NodeDiscipline(nd)
    ensures NodeDiscipline(Transitional(nd, members))
  {
    hide NodeDiscipline, Abort;
    var n1 := nd.(inProcess := true);
    SameRound(nd, n1);
    AbortDiscipline(n1);
    var n2 := if nd.inProcess then Abort(n1) else n1;
    SameRound(n2, n2.(trans := members));
  }

  lemma RegularDiscipline(c: Config, n: NodeId, l: Local, log: Log, r: RingId, kept: seq<Message>)
    requires ConfigOk(c) && LocalInv(c, n, l, log) && r != NO_RING
    requires NodeDiscipline(l.node)
    ensures NodeDiscipline(Regular(l.node.(out := kept), c.members(r), r, c.loaded(r, n)))
  {
    var n1 := l.node.(out := kept, inProcess := true);
    SameRound(l.node, n1);
    var n2 := if l.node.inProcess then Abort(n1) else n1;
    AbortDiscipline(n1);
    if !l.node.inProcess {
      CompletedSettled(c, n, l, log);
    }
    assert IncreasingIds(c.loaded(r, n));
    StartDiscipline(n2, c.members(r), r, c.loaded(r, n));
  }

  /** A node that is not in process has completed its round: everything it processed
      was activated. */
  lemma CompletedSettled(c: Config, n: NodeId, l: Local, log: Log)
    requires LocalInv(c, n, l, log) && NodeDiscipline(l.node) && !l.node.inProcess
    ensures Settled(CurrentRound(l.node.calls))
  {
    var nd := l.node;
    assert Completed(nd);
    forall id | Processed(id) in CurrentRound(nd.calls)
      ensures Activated(id) in CurrentRound(nd.calls)
    {
      var j :| 0 <= j <= nd.idx && Own(nd, j, id);
      assert j < nd.idx;
    }
  }

  lemma InitialDiscipline()
    ensures NodeDiscipline(INITIAL)
  {
  }

  lemma {:induction false} DisciplineReachable(c: Config, steps: seq<Step>, n: NodeId)
    requires ConfigOk(c) && Exec(c, steps).Some?
    ensures NodeDiscipline(At(Exec(c, steps).value, n).node)
  {
    hide NodeDiscipline, Inv, Apply;
    if steps == [] {
      InitialDiscipline();
    } else {
      var pre, step := steps[..|steps| - 1], steps[|steps| - 1];
      DisciplineReachable(c, pre, n);
      Reachable(c, pre);
      var s := Exec(c, pre).value;
      if n == step.n {
        StepDiscipline(c, s, step);
      } else {
        OtherNode(c, s, step, n);
      }
    }
  }

  /** Activate/abort discipline. In every run, across any sequence of transitional
      and regular configuration changes: when a round starts on a node, every
      service whose `sync_process` ran in the round before has been activated or
      aborted; within a round no service is both, and only processed services are
      activated. Each round begins with `sync_init` of every service that is loaded on
      the node, in ascending order and of no other, and all other calls of the round
      come after that and go to those services. */
  lemma ActivateOrAbort(c: Config, steps: seq<Step>, n: NodeId)
    requires ConfigOk(c) && Exec(c, steps).Some?
    ensures Disciplined(At(Exec(c, steps).value, n).node.calls)
    ensures InitsFirst(c, n, At(Exec(c, steps).value, n).node.calls)
  {
    hide Disciplined, InitsFirst;
    DisciplineReachable(c, steps, n);
    OpenReachable(c, steps, n);
  }
}
