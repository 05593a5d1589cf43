/** The barrier in terms of the steps of a run: which step finishes a service at a node,
    which one activates it, and that the former comes first on every member. */
module SyncBarrier {
  import opened Wrappers
  import opened Sync
  import opened SyncLists
  import opened SyncProtocol
  import opened SyncInvariant
  import opened SyncSafety

  /** A node before a step of a run. */
  ghost function NodeBefore(c: Config, steps: seq<Step>, k: nat, n: NodeId): Node
    requires k <= |steps| && Exec(c, steps[..k]).Some?
  {
    At(Exec(c, steps[..k]).value, n).node
  }

  /** The service a node is at, in which ring. */
  predicate AtService(nd: Node, r: RingId, id: ServiceId) {
    nd.ring == r && nd.idx < |nd.services| && nd.services[nd.idx].id == id
  }

  /** The step is a call of `schedwrk_processor` in which `sync_process` succeeds. */
  ghost predicate FinishesAt(c: Config, steps: seq<Step>, j: nat, t: NodeId, r: RingId, id: ServiceId) {
    && j < |steps| && steps[j].DoWork? && steps[j].n == t && Exec(c, steps[..j]).Some?
    && var nd := NodeBefore(c, steps, j, t);
       AtService(nd, r, id) && (steps[j].done || !nd.services[nd.idx].loaded)
  }

  /** The step is a delivery with which the node goes on to the next service. */
  ghost predicate ActivatesAt(c: Config, steps: seq<Step>, k: nat, n: NodeId, r: RingId, id: ServiceId) {
    && k < |steps| && steps[k] == Deliver(n) && Exec(c, steps[..k]).Some? && Exec(c, steps[..k + 1]).Some?
    && var nd := NodeBefore(c, steps, k, n);
       AtService(nd, r, id) && NodeBefore(c, steps, k + 1, n).idx == nd.idx + 1
  }

  lemma {:induction false} ExecPrefix(c: Config, steps: seq<Step>, k: nat)
    requires k <= |steps| && Exec(c, steps).Some?
    ensures Exec(c, steps[..k]).Some?
    decreases |steps|
  {
    if k == |steps| {
      assert steps[..k] == steps;
    } else {
      var pre := steps[..|steps| - 1];
      ExecPrefix(c, pre, k);
      assert pre[..k] == steps[..k];
    }
  }

  lemma ExecNext(c: Config, steps: seq<Step>, k: nat)
    requires k < |steps| && Exec(c, steps).Some?
    ensures Exec(c, steps[..k]).Some? && Exec(c, steps[..k + 1]).Some?
    ensures var s := Exec(c, steps[..k]).value;
            Enabled(c, s, steps[k]) && Exec(c, steps[..k + 1]).value == Apply(c, s, steps[k])
  {
    hide Enabled, Apply;
    ExecPrefix(c, steps, k);
    ExecPrefix(c, steps, k + 1);
    assert steps[..k + 1][..k] == steps[..k];
  }

  // ---- every milestone is a step ----

  /** Only a successful `sync_process` finishes a service. */
  lemma FinishedIsWork(c: Config, s: System, step: Step, t: NodeId, r: RingId, id: ServiceId)
    requires Enabled(c, s, step) && Finished(t, r, id) in Apply(c, s, step).events && Finished(t, r, id) !in s.events
    ensures step.DoWork? && step.n == t
    ensures var nd := At(s, t).node;
            AtService(nd, r, id) && (step.done || !nd.services[nd.idx].loaded)
  {
    var nd := At(s, step.n).node;
    match step
    case Deliver(n) =>
      var l := At(s, n);
      var (from, m) := LogIn(s, l.cur)[l.pos];
      DeliverFinishesNone(n, nd, from, m);
    case _ =>
  }

  lemma DeliverFinishesNone(n: NodeId, nd: Node, from: NodeId, m: Message)
    ensures forall e :: e in Milestones(n, nd, DeliverMessage(nd, from, m)) ==> e.Committed?
  {
    hide MarkReceived, AddUnknown, SortServices, ClearReceived;
  }

  lemma {:induction false} FinishedInSteps(c: Config, steps: seq<Step>, t: NodeId, r: RingId, id: ServiceId)
    returns (j: nat)
    requires Exec(c, steps).Some? && Finished(t, r, id) in Exec(c, steps).value.events
    ensures FinishesAt(c, steps, j, t, r, id)
    decreases |steps|
  {
    hide Apply, Enabled, AtService;
    var k := |steps| - 1;
    ExecNext(c, steps, k);
    assert steps[..k + 1] == steps;
    var s := Exec(c, steps[..k]).value;
    if Finished(t, r, id) in s.events {
      j := FinishedInSteps(c, steps[..k], t, r, id);
      SamePrefix(c, steps, k, j, t, r, id);
    } else {
      FinishedIsWork(c, s, steps[k], t, r, id);
      j := k;
    }
  }

  /** Barrier safety, step by step. In every run: when a delivery takes a node past a service,
      then on every member of the ring an earlier step was a successful `sync_process` of that
      service in that ring. */
  lemma FinishedBefore(c: Config, steps: seq<Step>, k: nat, n: NodeId, r: RingId, id: ServiceId, t: NodeId)
    returns (j: nat)
    requires ConfigOk(c) && Exec(c, steps).Some? && ActivatesAt(c, steps, k, n, r, id) && t in c.members(r)
    ensures j < k && FinishesAt(c, steps, j, t, r, id)
  {
    hide Exec, Apply, Enabled, AtService, At, BarrierHeld, FinishesAt;
    ExecNext(c, steps, k);
    var s := Exec(c, steps[..k]).value;
    CommitEvent(c, s, n, r, id);
    BarrierSafety(c, steps[..k + 1]);
    HeldAtEnd(c, s.events, Committed(n, r, id), t);
    j := FinishedInSteps(c, steps[..k], t, r, id);
    SamePrefix(c, steps, k, j, t, r, id);
  }

  lemma CommitEvent(c: Config, s: System, n: NodeId, r: RingId, id: ServiceId)
    requires Enabled(c, s, Deliver(n)) && AtService(At(s, n).node, r, id)
    requires At(Apply(c, s, Deliver(n)), n).node.idx == At(s, n).node.idx + 1
    ensures Apply(c, s, Deliver(n)).events == s.events + [Committed(n, r, id)]
  {
    hide DeliverMessage, LogIn;
  }

  lemma HeldAtEnd(c: Config, events: seq<Event>, e: Event, t: NodeId)
    requires BarrierHeld(c, events + [e]) && e.Committed? && t in c.members(e.ring)
    ensures Finished(t, e.ring, e.service) in events
  {
    var all := events + [e];
    assert all[|events|] == e && all[..|events|] == events;
  }

  lemma SamePrefix(c: Config, steps: seq<Step>, k: nat, j: nat, t: NodeId, r: RingId, id: ServiceId)
    requires k <= |steps| && FinishesAt(c, steps[..k], j, t, r, id)
    ensures j < k && FinishesAt(c, steps, j, t, r, id)
  {
    hide Exec, AtService;
    assert steps[..k][..j] == steps[..j];
  }

  /** A step after which a service has been told to activate is such a delivery. */
  lemma ActivationIsCommit(c: Config, steps: seq<Step>, k: nat, n: NodeId, id: ServiceId)
    requires Exec(c, steps).Some? && k < |steps|
    requires Exec(c, steps[..k]).Some? && Exec(c, steps[..k + 1]).Some?
    requires NodeBefore(c, steps, k + 1, n).calls == NodeBefore(c, steps, k, n).calls + [Activated(id)]
    ensures ActivatesAt(c, steps, k, n, NodeBefore(c, steps, k, n).ring, id)
  {
    ExecNext(c, steps, k);
    var s := Exec(c, steps[..k]).value;
    StepActivates(c, s, steps[k], n, id);
  }

  lemma StepActivates(c: Config, s: System, step: Step, n: NodeId, id: ServiceId)
    requires Enabled(c, s, step)
    requires At(Apply(c, s, step), n).node.calls == At(s, n).node.calls + [Activated(id)]
    ensures step == Deliver(n)
    ensures AtService(At(s, n).node, At(s, n).node.ring, id)
    ensures At(Apply(c, s, step), n).node.idx == At(s, n).node.idx + 1
  {
    hide Regular, Transitional, Work, DeliverMessage, LogIn;
    var l := At(s, n);
    var nd := l.node;
    EndsOtherwise(nd);
    if step.n == n {
      match step
      case Deliver(_) =>
        DeliverActivates(nd, LogIn(s, l.cur)[l.pos].0, LogIn(s, l.cur)[l.pos].1, id);
      case RegularConf(_, r, kept) =>
        RegularEnds(nd.(out := kept), c.members(r), r, c.loaded(r, n));
      case _ =>
    }
  }

  /** Neither a transitional configuration nor a call of `sync_process` activates. */
  lemma EndsOtherwise(nd: Node)
    ensures forall members, id :: Transitional(nd, members).calls != nd.calls + [Activated(id)]
    ensures forall sent, done, id :: Work(nd, sent, done).calls != nd.calls + [Activated(id)]
    ensures forall id :: |nd.calls + [Activated(id)]| == |nd.calls| + 1
  {
    forall members, id
      ensures Transitional(nd, members).calls != nd.calls + [Activated(id)]
    {
      var calls := nd.calls + [Activated(id)];
      assert calls[|nd.calls|] == Activated(id);
    }
    forall sent, done, id
      ensures Work(nd, sent, done).calls != nd.calls + [Activated(id)]
    {
      var calls := nd.calls + [Activated(id)];
      assert calls[|nd.calls|] == Activated(id);
    }
  }

  lemma RegularEnds(nd: Node, members: seq<NodeId>, r: RingId, loaded: seq<ServiceId>)
    ensures var calls := Regular(nd, members, r, loaded).calls;
            |calls| > |nd.calls| && !calls[|calls| - 1].Activated?
  {
    var calls := Regular(nd, members, r, loaded).calls;
    assert calls[|calls| - 1] == if loaded == [] then RoundStart(r) else Init(loaded[|loaded| - 1]);
  }

  lemma DeliverActivates(nd: Node, from: NodeId, m: Message, id: ServiceId)
    requires DeliverMessage(nd, from, m).calls == nd.calls + [Activated(id)]
    ensures AtService(nd, nd.ring, id) && DeliverMessage(nd, from, m).idx == nd.idx + 1
  {
    hide MarkReceived, AddUnknown, SortServices, ClearReceived;
    var nd' := DeliverMessage(nd, from, m);
    assert nd'.calls[|nd.calls|] == Activated(id);
  }
}
