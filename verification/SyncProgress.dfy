/** A stable ring cannot get stuck, and the work it can still do is bounded. */
module SyncProgress {
  import opened Wrappers
  import opened Sync
  import opened SyncLists
  import opened SyncProtocol
  import opened SyncInvariant
  import opened SyncSafety

  /** All members of the ring have entered it and none has seen a configuration
      change since. */
  ghost predicate Stable(c: Config, s: System, r: RingId) {
    && r != NO_RING
    && forall m :: m in c.members(r) ==> At(s, m).node.ring == r && !At(s, m).transit
  }

  /** A member can put a message into the log, deliver one, or run its scheduled work. */
  ghost predicate CanStep(c: Config, s: System, m: NodeId) {
    || Enabled(c, s, Originate(m))
    || Enabled(c, s, Deliver(m))
    || Enabled(c, s, DoWork(m, [], true))
  }

  lemma MemberActive(c: Config, s: System, r: RingId, m: NodeId)
    requires Inv(c, s) && Stable(c, s, r) && m in c.members(r)
    ensures At(s, m).cur == r
    ensures ActiveInv(c, r, m, At(s, m).node, LogIn(s, r), At(s, m).pos, false)
  {
    assert LocalInv(c, m, At(s, m), LogIn(s, At(s, m).cur));
  }

  /** A member that cannot step has delivered everything, sent everything, and waits. */
  lemma Waiting(c: Config, s: System, r: RingId, m: NodeId)
    requires Inv(c, s) && Stable(c, s, r) && m in c.members(r) && !CanStep(c, s, m)
    ensures var l := At(s, m);
            && l.pos == |LogIn(s, r)| && l.node.out == []
            && l.node.state != PROCESS
            && Count(LogIn(s, r), m, r) == Round(l.node) + Bit(!Completed(l.node))
  {
    MemberActive(c, s, r, m);
  }

  /** A node that has not completed is within the agenda. */
  lemma IncompleteRound(c: Config, r: RingId, n: NodeId, nd: Node, log: Log, pos: nat)
    requires ActiveInv(c, r, n, nd, log, pos, false) && !Completed(nd)
    ensures Round(nd) <= |Agenda(c, r)|
  {
    if Round(nd) > 0 {
      PastBuild(c, r, n, nd, log, pos, false);
    }
  }

  /** When no member can step, every member has completed: a member that has not
      would wait for one that is behind it, which would wait for it. */
  lemma StuckMeansCompleted(c: Config, s: System, r: RingId, n: NodeId)
    requires Inv(c, s) && Stable(c, s, r) && n in c.members(r)
    requires forall m :: m in c.members(r) ==> !CanStep(c, s, m)
    ensures Completed(At(s, n).node)
  {
    var log := LogIn(s, r);
    assert log[..|log|] == log;
    MemberActive(c, s, r, n);
    Waiting(c, s, r, n);
    var nd := At(s, n).node;
    if !Completed(nd) {
      IncompleteRound(c, r, n, nd, log, |log|);
      var k :| 0 <= k < |nd.processors| && !nd.processors[k].received;
      var t := c.members(r)[k];
      var j := MemberIndex(c, r, n);
      MemberActive(c, s, r, t);
      Waiting(c, s, r, t);
      BehindIsNotAhead(c, r, t, At(s, t).node, log, n, j, Round(nd));
      assert false;
    }
  }

  /** A waiting member whose own count is `round` has seen at most `round` of others. */
  lemma BehindIsNotAhead(c: Config, r: RingId, t: NodeId, nt: Node, log: Log, n: NodeId, j: nat, round: nat)
    requires ActiveInv(c, r, t, nt, log, |log|, false)
    requires Count(log, t, r) == round == Round(nt) + Bit(!Completed(nt))
    requires j < |c.members(r)| && c.members(r)[j] == n && round <= |Agenda(c, r)|
    ensures Count(log, n, r) <= round
  {
    assert log[..|log|] == log;
    assert n in c.members(r);
    if Completed(nt) {
      CompletedCounts(c, r, t, nt, log, n);
    }
  }

  /** No deadlock: as long as some member has not completed, some member can step. */
  lemma NoDeadlock(c: Config, steps: seq<Step>, r: RingId, n: NodeId)
    requires ConfigOk(c) && Exec(c, steps).Some?
    requires Stable(c, Exec(c, steps).value, r)
    requires n in c.members(r) && !Completed(At(Exec(c, steps).value, n).node)
    ensures exists m :: m in c.members(r) && CanStep(c, Exec(c, steps).value, m)
  {
    Reachable(c, steps);
    hide Inv, Stable, CanStep;
    var s := Exec(c, steps).value;
    if forall m :: m in c.members(r) ==> !CanStep(c, s, m) {
      StuckMeansCompleted(c, s, r, n);
      assert false;
    }
  }

  // ---- bounded work ----

  /** Synchronization messages a member has yet to send in the ring. */
  ghost function Unsent(c: Config, s: System, r: RingId, m: NodeId): int {
    |Agenda(c, r)| + 1 - Count(LogIn(s, r), m, r) - Pending(At(s, m).node.out, r)
  }

  ghost function Weight(unsent: int, out: int, undelivered: int, burst: nat, size: nat): int {
    unsent * ((burst + 1) * (size + 1) + 1) + out * (size + 1) + undelivered
  }

  lemma WeightChange(u: int, o: int, v: int, du: int, dov: int, dv: int, burst: nat, size: nat)
    ensures Weight(u + du, o + dov, v + dv, burst, size) ==
            Weight(u, o, v, burst, size) + du * ((burst + 1) * (size + 1) + 1) + dov * (size + 1) + dv
  {
    var w := (burst + 1) * (size + 1) + 1;
    assert (u + du) * w == u * w + du * w;
    assert (o + dov) * (size + 1) == o * (size + 1) + dov * (size + 1);
  }

  /** What one member can still cause, when a call of `sync_process` sends at most
      `burst` messages: a message to send weighs more than all it can cause. */
  ghost function MemberMeasure(c: Config, s: System, r: RingId, burst: nat, m: NodeId): int {
    Weight(Unsent(c, s, r, m), |At(s, m).node.out|, |LogIn(s, r)| - At(s, m).pos, burst, |c.members(r)|)
  }

  ghost function Total(c: Config, s: System, r: RingId, burst: nat, ms: seq<NodeId>): int {
    if ms == [] then 0
    else Total(c, s, r, burst, ms[..|ms| - 1]) + MemberMeasure(c, s, r, burst, ms[|ms| - 1])
  }

  ghost function Measure(c: Config, s: System, r: RingId, burst: nat): int {
    Total(c, s, r, burst, c.members(r))
  }

  /** Member `n` gains `e`, and the other members gain `Bit(others)`. */
  lemma {:induction false} TotalChange(c: Config, s: System, s': System, r: RingId, burst: nat,
                                       ms: seq<NodeId>, n: NodeId, others: bool, e: int)
    requires DistinctNodes(ms)
    requires forall m :: m in ms ==>
               MemberMeasure(c, s', r, burst, m) == MemberMeasure(c, s, r, burst, m) + if m == n then e else Bit(others)
    ensures Total(c, s', r, burst, ms) ==
            Total(c, s, r, burst, ms) + (if others then |ms| else 0) + if n in ms then e - Bit(others) else 0
  {
    hide MemberMeasure;
    if ms != [] {
      var k := |ms| - 1;
      var pre := ms[..k];
      assert ms == pre + [ms[k]];
      TotalChange(c, s, s', r, burst, pre, n, others, e);
      assert ms[k] in ms;
      assert n in ms <==> n in pre || n == ms[k];
      assert !(n in pre && n == ms[k]);
    }
  }

  /** How a member's weight changes with what it has left to do. */
  lemma MemberChange(c: Config, s: System, s': System, r: RingId, burst: nat, m: NodeId, du: int, dov: int, dv: int)
    requires Unsent(c, s', r, m) == Unsent(c, s, r, m) + du
    requires |At(s', m).node.out| == |At(s, m).node.out| + dov
    requires |LogIn(s', r)| - At(s', m).pos == |LogIn(s, r)| - At(s, m).pos + dv
    ensures MemberMeasure(c, s', r, burst, m) == MemberMeasure(c, s, r, burst, m)
            + du * ((burst + 1) * (|c.members(r)| + 1) + 1) + dov * (|c.members(r)| + 1) + dv
  {
    hide Unsent, Weight;
    WeightChange(Unsent(c, s, r, m), |At(s, m).node.out|, |LogIn(s, r)| - At(s, m).pos, du, dov, dv,
                 burst, |c.members(r)|);
  }

  lemma {:induction false} TotalNonNegative(c: Config, s: System, r: RingId, burst: nat, ms: seq<NodeId>)
    requires forall m :: m in ms ==> MemberMeasure(c, s, r, burst, m) >= 0
    ensures Total(c, s, r, burst, ms) >= 0
  {
    hide MemberMeasure;
    if ms != [] {
      assert ms[|ms| - 1] in ms;
      TotalNonNegative(c, s, r, burst, ms[..|ms| - 1]);
    }
  }

  /** A step of a member that makes progress: not a call that asks to be repeated. */
  ghost predicate Progress(c: Config, r: RingId, burst: nat, step: Step) {
    && step.n in c.members(r)
    && match step
       case Originate(_) => true
       case Deliver(_) => true
       case DoWork(_, sent, done) => done && |sent| <= burst
       case _ => false
  }

  lemma MeasureNonNegative(c: Config, s: System, r: RingId, burst: nat)
    requires ConfigOk(c) && Inv(c, s) && Stable(c, s, r)
    ensures Measure(c, s, r, burst) >= 0
  {
    hide Inv, Stable;
    forall m | m in c.members(r)
      ensures MemberMeasure(c, s, r, burst, m) >= 0
    {
      MemberActive(c, s, r, m);
      MemberNonNegative(c, s, r, burst, m);
    }
    TotalNonNegative(c, s, r, burst, c.members(r));
  }

  lemma MemberNonNegative(c: Config, s: System, r: RingId, burst: nat, m: NodeId)
    requires ActiveInv(c, r, m, At(s, m).node, LogIn(s, r), At(s, m).pos, false)
    ensures MemberMeasure(c, s, r, burst, m) >= 0
  {
    SentBound(c, r, m, At(s, m).node, LogIn(s, r), At(s, m).pos);
    assert At(s, m).pos <= |LogIn(s, r)|;
    WeightNonNegative(Unsent(c, s, r, m), |At(s, m).node.out|, |LogIn(s, r)| - At(s, m).pos, burst, |c.members(r)|);
  }

  lemma WeightNonNegative(u: nat, o: nat, v: nat, burst: nat, size: nat)
    ensures Weight(u, o, v, burst, size) >= 0
  {
    assert u * ((burst + 1) * (size + 1) + 1) >= 0;
    assert o * (size + 1) >= 0;
  }

  lemma StableStep(c: Config, s: System, r: RingId, step: Step, burst: nat)
    requires ConfigOk(c) && Inv(c, s) && Stable(c, s, r) && Enabled(c, s, step) && Progress(c, r, burst, step)
    ensures Stable(c, Apply(c, s, step), r)
  {
    var s' := Apply(c, s, step);
    forall m | m in c.members(r)
      ensures At(s', m).node.ring == r && !At(s', m).transit
    {
      assert At(s, m).node.ring == r && !At(s, m).transit;
      if m == step.n {
        match step {
          case Originate(_) =>
          case Deliver(n) =>
            var l := At(s, n);
            SameOut(l.node, LogIn(s, l.cur)[l.pos].0, LogIn(s, l.cur)[l.pos].1);
          case DoWork(_, sent, done) =>
            WorkOut(At(s, m).node, Bodies(sent), done);
        }
      }
    }
  }

  lemma OriginateMember(c: Config, s: System, r: RingId, burst: nat, n: NodeId, m: NodeId)
    requires Enabled(c, s, Originate(n)) && At(s, n).cur == r
    ensures MemberMeasure(c, Apply(c, s, Originate(n)), r, burst, m) ==
            MemberMeasure(c, s, r, burst, m) + if m == n then -|c.members(r)| else 1
  {
    hide Count, Known, Agenda, MemberMeasure;
    var s' := Apply(c, s, Originate(n));
    var out := At(s, n).node.out;
    assert LogIn(s', r) == LogIn(s, r) + [(n, out[0])];
    CountSnoc(LogIn(s, r), (n, out[0]), m, r);
    if m == n {
      MemberChange(c, s, s', r, burst, n, 0, -1, 1);
    } else {
      assert At(s', m) == At(s, m);
      MemberChange(c, s, s', r, burst, m, 0, 0, 1);
    }
  }

  lemma OriginateFalls(c: Config, s: System, r: RingId, burst: nat, n: NodeId)
    requires ConfigOk(c) && Inv(c, s) && Stable(c, s, r) && n in c.members(r)
    requires Enabled(c, s, Originate(n))
    ensures Measure(c, Apply(c, s, Originate(n)), r, burst) == Measure(c, s, r, burst) - 1
  {
    MemberActive(c, s, r, n);
    hide Inv, Stable, MemberMeasure, ActiveInv, Apply, Total;
    var s' := Apply(c, s, Originate(n));
    forall m | m in c.members(r)
      ensures MemberMeasure(c, s', r, burst, m) ==
              MemberMeasure(c, s, r, burst, m) + if m == n then -|c.members(r)| else 1
    {
      OriginateMember(c, s, r, burst, n, m);
    }
    TotalChange(c, s, s', r, burst, c.members(r), n, true, -|c.members(r)|);
  }

  lemma DeliverMember(c: Config, s: System, r: RingId, burst: nat, n: NodeId, m: NodeId)
    requires Enabled(c, s, Deliver(n)) && At(s, n).cur == r
    ensures MemberMeasure(c, Apply(c, s, Deliver(n)), r, burst, m) ==
            MemberMeasure(c, s, r, burst, m) + if m == n then -1 else 0
  {
    hide DeliverMessage, Milestones;
    var s' := Apply(c, s, Deliver(n));
    var l := At(s, n);
    SameOut(l.node, LogIn(s, r)[l.pos].0, LogIn(s, r)[l.pos].1);
    assert LogIn(s', r) == LogIn(s, r);
    if m == n {
      MemberChange(c, s, s', r, burst, n, 0, 0, -1);
    } else {
      assert At(s', m) == At(s, m);
    }
  }

  lemma DeliverFalls(c: Config, s: System, r: RingId, burst: nat, n: NodeId)
    requires ConfigOk(c) && Inv(c, s) && Stable(c, s, r) && n in c.members(r)
    requires Enabled(c, s, Deliver(n))
    ensures Measure(c, Apply(c, s, Deliver(n)), r, burst) == Measure(c, s, r, burst) - 1
  {
    MemberActive(c, s, r, n);
    hide Inv, Stable, MemberMeasure, ActiveInv, Apply, Total;
    var s' := Apply(c, s, Deliver(n));
    forall m | m in c.members(r)
      ensures MemberMeasure(c, s', r, burst, m) == MemberMeasure(c, s, r, burst, m) + if m == n then -1 else 0
    {
      DeliverMember(c, s, r, burst, n, m);
    }
    TotalChange(c, s, s', r, burst, c.members(r), n, false, -1);
  }

  /** A successful call of `sync_process` appends its messages and the barrier. */
  lemma WorkDone(c: Config, r: RingId, n: NodeId, nd: Node, log: Log, pos: nat, sent: seq<Message>)
    requires ActiveInv(c, r, n, nd, log, pos, false) && nd.scheduled
    requires forall i :: 0 <= i < |sent| ==> sent[i].App?
    ensures Work(nd, sent, true).out == nd.out + sent + [BarrierReached(r, nd.idx)]
    ensures Pending(Work(nd, sent, true).out, r) == Pending(nd.out, r) + 1
  {
    NotActivated(nd.services, Known(c, r, n, log[..pos]), ToSet(c.loaded(r, n)), nd.idx);
    var b := BarrierReached(r, nd.idx);
    PendingAppend(nd.out + sent, [b], r);
    PendingAppend(nd.out, sent, r);
    PendingNone(sent, r);
  }

  ghost function WorkChange(sent: nat, burst: nat, size: nat): int {
    -((burst + 1) * (size + 1) + 1) + (sent + 1) * (size + 1)
  }

  lemma WorkMember(c: Config, s: System, r: RingId, burst: nat, n: NodeId, sent: seq<CpgMessage>, m: NodeId)
    requires Enabled(c, s, DoWork(n, sent, true)) && At(s, n).cur == r
    requires ActiveInv(c, r, n, At(s, n).node, LogIn(s, r), At(s, n).pos, false)
    ensures MemberMeasure(c, Apply(c, s, DoWork(n, sent, true)), r, burst, m) ==
            MemberMeasure(c, s, r, burst, m) + if m == n then WorkChange(|sent|, burst, |c.members(r)|) else 0
  {
    var s' := Apply(c, s, DoWork(n, sent, true));
    var l := At(s, n);
    WorkDone(c, r, n, l.node, LogIn(s, r), l.pos, Bodies(sent));
    hide Work, Milestones, ActiveInv, MemberMeasure;
    assert LogIn(s', r) == LogIn(s, r);
    if m == n {
      assert At(s', n).node == Work(l.node, Bodies(sent), true) && At(s', n).pos == l.pos;
      MemberChange(c, s, s', r, burst, n, -1, |sent| + 1, 0);
    } else {
      assert At(s', m) == At(s, m);
      MemberChange(c, s, s', r, burst, m, 0, 0, 0);
    }
  }

  lemma WorkFalls(c: Config, s: System, r: RingId, burst: nat, n: NodeId, sent: seq<CpgMessage>)
    requires ConfigOk(c) && Inv(c, s) && Stable(c, s, r) && n in c.members(r)
    requires Enabled(c, s, DoWork(n, sent, true)) && |sent| <= burst
    ensures Measure(c, Apply(c, s, DoWork(n, sent, true)), r, burst) < Measure(c, s, r, burst)
  {
    MemberActive(c, s, r, n);
    hide Inv, Stable, MemberMeasure, ActiveInv, Apply, Total, WorkChange;
    BurstFits(|sent|, burst, |c.members(r)|);
    var s' := Apply(c, s, DoWork(n, sent, true));
    var e := WorkChange(|sent|, burst, |c.members(r)|);
    forall m | m in c.members(r)
      ensures MemberMeasure(c, s', r, burst, m) == MemberMeasure(c, s, r, burst, m) + if m == n then e else 0
    {
      WorkMember(c, s, r, burst, n, sent, m);
    }
    TotalChange(c, s, s', r, burst, c.members(r), n, false, e);
  }

  lemma BurstFits(sent: nat, burst: nat, size: nat)
    requires sent <= burst
    ensures WorkChange(sent, burst, size) < 0
  {
    assert (sent + 1) * (size + 1) <= (burst + 1) * (size + 1);
  }

  /** Each successful step of a member makes the measure fall. */
  lemma ProgressFalls(c: Config, s: System, r: RingId, burst: nat, step: Step)
    requires ConfigOk(c) && Inv(c, s) && Stable(c, s, r) && Enabled(c, s, step) && Progress(c, r, burst, step)
    ensures Measure(c, Apply(c, s, step), r, burst) < Measure(c, s, r, burst)
  {
    hide Measure, Inv, Stable;
    match step {
      case Originate(n) => OriginateFalls(c, s, r, burst, n);
      case Deliver(n) => DeliverFalls(c, s, r, burst, n);
      case DoWork(n, sent, done) => WorkFalls(c, s, r, burst, n, sent);
      case _ => assert false;
    }
  }

  /** A run of successful steps of members from a stable state. */
  ghost predicate ProgressRun(c: Config, s: System, r: RingId, burst: nat, steps: seq<Step>)
    decreases |steps|
  {
    steps == [] ||
    (Enabled(c, s, steps[0]) && Progress(c, r, burst, steps[0])
     && ProgressRun(c, Apply(c, s, steps[0]), r, burst, steps[1..]))
  }

  /** Bounded work: a stable ring makes at most `Measure` successful steps. */
  lemma {:induction false} BoundedWork(c: Config, s: System, r: RingId, burst: nat, steps: seq<Step>)
    requires ConfigOk(c) && Inv(c, s) && Stable(c, s, r)
    requires ProgressRun(c, s, r, burst, steps)
    ensures |steps| <= Measure(c, s, r, burst)
    decreases |steps|
  {
    hide Measure, Inv, Stable, Apply;
    MeasureNonNegative(c, s, r, burst);
    if steps != [] {
      ProgressFalls(c, s, r, burst, steps[0]);
      InvStep(c, s, steps[0]);
      StableStep(c, s, r, steps[0], burst);
      BoundedWork(c, Apply(c, s, steps[0]), r, burst, steps[1..]);
    }
  }

  /** Where such a run ends. */
  ghost function After(c: Config, s: System, r: RingId, burst: nat, steps: seq<Step>): System
    requires ProgressRun(c, s, r, burst, steps)
    decreases |steps|
  {
    if steps == [] then s else After(c, Apply(c, s, steps[0]), r, burst, steps[1..])
  }

  /** No step of a member makes progress any more. */
  ghost predicate AtRest(c: Config, s: System, r: RingId, burst: nat) {
    forall step :: Progress(c, r, burst, step) ==> !Enabled(c, s, step)
  }

  lemma {:induction false} AfterKeeps(c: Config, s: System, r: RingId, burst: nat, steps: seq<Step>)
    requires ConfigOk(c) && Inv(c, s) && Stable(c, s, r)
    requires ProgressRun(c, s, r, burst, steps)
    ensures Inv(c, After(c, s, r, burst, steps)) && Stable(c, After(c, s, r, burst, steps), r)
    decreases |steps|
  {
    hide Inv, Stable, Apply;
    if steps != [] {
      InvStep(c, s, steps[0]);
      StableStep(c, s, r, steps[0], burst);
      AfterKeeps(c, Apply(c, s, steps[0]), r, burst, steps[1..]);
    }
  }

  /** Rest means that all members have completed. */
  lemma RestIsCompletion(c: Config, s: System, r: RingId, burst: nat)
    requires ConfigOk(c) && Inv(c, s) && Stable(c, s, r) && AtRest(c, s, r, burst)
    ensures forall n :: n in c.members(r) ==> Completed(At(s, n).node)
  {
    hide Inv, Stable, Completed, Enabled;
    forall m | m in c.members(r)
      ensures !CanStep(c, s, m)
    {
      assert Progress(c, r, burst, Originate(m)) && Progress(c, r, burst, Deliver(m));
      assert Progress(c, r, burst, DoWork(m, [], true));
    }
    forall n | n in c.members(r)
      ensures Completed(At(s, n).node)
    {
      StuckMeansCompleted(c, s, r, n);
    }
  }

  /** Completion: from every reachable state in which a ring is stable, whatever progress
      its members make, they make only so much of it, and when they can make no more
      all of them have activated every service. */
  lemma Completion(c: Config, before: seq<Step>, r: RingId, burst: nat, steps: seq<Step>)
    requires ConfigOk(c) && Exec(c, before).Some? && Stable(c, Exec(c, before).value, r)
    requires ProgressRun(c, Exec(c, before).value, r, burst, steps)
    ensures var s := Exec(c, before).value;
            var s' := After(c, s, r, burst, steps);
            && |steps| <= Measure(c, s, r, burst)
            && Stable(c, s', r)
            && (AtRest(c, s', r, burst) ==> forall n :: n in c.members(r) ==> Completed(At(s', n).node))
  {
    hide Inv, Stable, Measure, Completed, AtRest;
    var s := Exec(c, before).value;
    Reachable(c, before);
    BoundedWork(c, s, r, burst, steps);
    AfterKeeps(c, s, r, burst, steps);
    if AtRest(c, After(c, s, r, burst, steps), r, burst) {
      RestIsCompletion(c, After(c, s, r, burst, steps), r, burst);
    }
  }

  /** And it does come to rest: every run can be continued to one that ends there. */
  lemma {:induction false} ComesToRest(c: Config, s: System, r: RingId, burst: nat) returns (steps: seq<Step>)
    requires ConfigOk(c) && Inv(c, s) && Stable(c, s, r)
    ensures ProgressRun(c, s, r, burst, steps) && AtRest(c, After(c, s, r, burst, steps), r, burst)
    ensures forall n :: n in c.members(r) ==> Completed(At(After(c, s, r, burst, steps), n).node)
    decreases Measure(c, s, r, burst)
  {
    hide Inv, Stable, Measure, Completed, Apply, Enabled, Progress;
    MeasureNonNegative(c, s, r, burst);
    if AtRest(c, s, r, burst) {
      steps := [];
      RestIsCompletion(c, s, r, burst);
    } else {
      var step :| Progress(c, r, burst, step) && Enabled(c, s, step);
      ProgressFalls(c, s, r, burst, step);
      InvStep(c, s, step);
      StableStep(c, s, r, step, burst);
      var rest := ComesToRest(c, Apply(c, s, step), r, burst);
      steps := [step] + rest;
      assert steps[0] == step && steps[1..] == rest;
    }
  }
}
