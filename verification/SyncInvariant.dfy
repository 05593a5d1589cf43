/** The invariant of the synchronization protocol holds in every reachable state. */
module SyncInvariant {
  import opened Wrappers
  import opened Sync
  import opened SyncLists
  import opened SyncProtocol

  // ---- counting ----

  lemma CountSnoc(log: Log, e: (NodeId, Message), s: NodeId, r: RingId)
    ensures Count(log + [e], s, r) == Count(log, s, r) + Bit(e.0 == s && Tagged(e.1, r))
  {
    assert (log + [e])[..|log + [e]| - 1] == log;
  }

  lemma CountNext(log: Log, i: nat, s: NodeId, r: RingId)
    requires i < |log|
    ensures Count(log[..i + 1], s, r) == Count(log[..i], s, r) + Bit(log[i].0 == s && Tagged(log[i].1, r))
  {
    assert log[..i + 1] == log[..i] + [log[i]];
    CountSnoc(log[..i], log[i], s, r);
  }

  lemma {:induction false} CountGrows(log: Log, i: nat, s: NodeId, r: RingId)
    requires i <= |log|
    ensures Count(log[..i], s, r) <= Count(log, s, r)
    decreases |log| - i
  {
    if i == |log| {
      assert log[..i] == log;
    } else {
      CountNext(log, i, s, r);
      CountGrows(log, i + 1, s, r);
    }
  }

  /** A sender that was counted has an entry. */
  lemma {:induction false} CountedHasEntry(log: Log, s: NodeId, r: RingId)
    requires Count(log, s, r) > 0
    ensures exists i :: 0 <= i < |log| && log[i].0 == s && Tagged(log[i].1, r)
  {
    var k := |log| - 1;
    if !(log[k].0 == s && Tagged(log[k].1, r)) {
      CountedHasEntry(log[..k], s, r);
      var i :| 0 <= i < |log[..k]| && log[..k][i].0 == s && Tagged(log[..k][i].1, r);
      assert log[i].0 == s && Tagged(log[i].1, r);
    }
  }

  lemma {:induction false} PendingAppend(a: seq<Message>, b: seq<Message>, r: RingId)
    ensures Pending(a + b, r) == Pending(a, r) + Pending(b, r)
  {
    if a == [] {
      assert a + b == b;
    } else {
      assert (a + b)[1..] == a[1..] + b;
      PendingAppend(a[1..], b, r);
    }
  }

  lemma {:induction false} PendingNone(a: seq<Message>, r: RingId)
    requires forall i :: 0 <= i < |a| ==> !Tagged(a[i], r)
    ensures Pending(a, r) == 0
  {
    if a != [] {
      PendingNone(a[1..], r);
    }
  }

  // ---- the service list ----

  /** A node that has heard from every member knows all services of the ring. */
  lemma KnowsAll(c: Config, r: RingId, n: NodeId, heard: Log)
    requires n in c.members(r)
    requires forall s :: s in c.members(r) ==> Count(heard, s, r) > 0
    ensures Known(c, r, n, heard) == Union(c, r)
  {
    forall x | x in Union(c, r)
      ensures Knows(c, r, n, heard, x)
    {
      var ms := c.members(r);
      var i :| 0 <= i < |ms| && x in c.loaded(r, ms[i]);
      assert ms[i] in ms;
      assert Count(heard, ms[i], r) > 0;
    }
  }

  /** Then its list is the agenda of the ring. */
  lemma ServicesAreAgenda(c: Config, r: RingId, n: NodeId, nd: Node, heard: Log)
    requires n in c.members(r)
    requires forall s :: s in c.members(r) ==> Count(heard, s, r) > 0
    requires ServicesInv(c, r, n, nd, heard)
    ensures Ids(nd.services) == Agenda(c, r)
    ensures |nd.services| == |Agenda(c, r)|
  {
    KnowsAll(c, r, n, heard);
    MergedIsSorted(nd.services, Known(c, r, n, heard), ToSet(c.loaded(r, n)), nd.idx);
  }

  /** One more node heard of: the known services grow by its services. */
  lemma KnownGrows(c: Config, r: RingId, n: NodeId, heard: Log, s: NodeId, m: Message)
    requires s in c.members(r) && Tagged(m, r)
    ensures Known(c, r, n, heard + [(s, m)]) == Known(c, r, n, heard) + ToSet(c.loaded(r, s))
  {
    var heard' := heard + [(s, m)];
    var ms := c.members(r);
    assert forall x :: x in c.loaded(r, s) ==> x in Union(c, r) by {
      var i :| 0 <= i < |ms| && ms[i] == s;
      assert forall x :: x in c.loaded(r, ms[i]) ==> x in Union(c, r);
    }
    forall x
      ensures x in Known(c, r, n, heard') <==> x in Known(c, r, n, heard) || x in c.loaded(r, s)
    {
      KnowsMore(c, r, n, heard, s, m, x);
    }
  }

  lemma KnowsMore(c: Config, r: RingId, n: NodeId, heard: Log, s: NodeId, m: Message, x: ServiceId)
    requires s in c.members(r) && Tagged(m, r)
    ensures Knows(c, r, n, heard + [(s, m)], x) <==> Knows(c, r, n, heard, x) || x in c.loaded(r, s)
  {
    var heard' := heard + [(s, m)];
    forall t
      ensures Count(heard', t, r) == Count(heard, t, r) + Bit(t == s)
    {
      CountSnoc(heard, (s, m), t, r);
    }
    if Knows(c, r, n, heard, x) && x !in c.loaded(r, n) {
      var t :| t in c.members(r) && Count(heard, t, r) > 0 && x in c.loaded(r, t);
      assert Count(heard', t, r) > 0;
    }
    if Knows(c, r, n, heard', x) && x !in c.loaded(r, n) {
      var t :| t in c.members(r) && Count(heard', t, r) > 0 && x in c.loaded(r, t);
      assert t == s || Count(heard, t, r) > 0;
    }
    if x in c.loaded(r, s) {
      assert Count(heard', s, r) > 0;
    }
  }

  /** The known services depend only on who was heard. */
  lemma KnownSame(c: Config, r: RingId, n: NodeId, a: Log, b: Log)
    requires forall s :: s in c.members(r) ==> (Count(a, s, r) > 0 <==> Count(b, s, r) > 0)
    ensures Known(c, r, n, a) == Known(c, r, n, b)
  {
    forall x
      ensures Knows(c, r, n, a, x) <==> Knows(c, r, n, b, x)
    {
    }
  }

  lemma OwnKnown(c: Config, r: RingId, n: NodeId, heard: Log)
    requires n in c.members(r)
    ensures ToSet(c.loaded(r, n)) <= Known(c, r, n, heard)
  {
    var ms := c.members(r);
    var i :| 0 <= i < |ms| && ms[i] == n;
    assert forall x :: x in c.loaded(r, ms[i]) ==> x in Union(c, r);
  }

  // ---- a synchronization message that passes the ring check ----

  lemma MemberIndex(c: Config, r: RingId, s: NodeId) returns (i: nat)
    requires s in c.members(r)
    ensures i < |c.members(r)| && c.members(r)[i] == s
  {
    i :| 0 <= i < |c.members(r)| && c.members(r)[i] == s;
  }

  /** The counts of a completed node are the maximum. */
  lemma CompletedCounts(c: Config, r: RingId, n: NodeId, nd: Node, heard: Log, s: NodeId)
    requires n in c.members(r) && s in c.members(r)
    requires ProcessorsInv(c, r, nd, heard) && ServicesInv(c, r, n, nd, heard)
    requires Completed(nd)
    ensures Count(heard, s, r) == |Agenda(c, r)| + 1
  {
    forall t | t in c.members(r)
      ensures Count(heard, t, r) == Round(nd) > 0
    {
      var i := MemberIndex(c, r, t);
    }
    ServicesAreAgenda(c, r, n, nd, heard);
  }

  /** It is the sender's message for the round the receiver is in, the receiver is
      not done, and has not heard from the sender in this round. */
  lemma AcceptedRank(c: Config, r: RingId, n: NodeId, nd: Node, log: Log, pos: nat, transit: bool)
    returns (i: nat)
    requires RingInv(c, r, log) && ActiveInv(c, r, n, nd, log, pos, transit)
    requires pos < |log| && Tagged(log[pos].1, r)
    ensures !Completed(nd)
    ensures i < |nd.processors| && c.members(r)[i] == log[pos].0 && !nd.processors[i].received
    ensures log[pos].1 == Expected(c, r, log[pos].0, Round(nd))
  {
    var s := log[pos].0;
    var heard := log[..pos];
    i := MemberIndex(c, r, s);
    CountNext(log, pos, s, r);
    CountGrows(log, pos + 1, s, r);
    if Completed(nd) {
      CompletedCounts(c, r, n, nd, heard, s);
      assert false;
    }
    var k :| 0 <= k < |nd.processors| && !nd.processors[k].received;
    var t := c.members(r)[k];
    assert t in c.members(r);
    CountNext(log, pos, t, r);
    assert Count(log[..pos + 1], s, r) <= Count(log[..pos + 1], t, r) + 1;
  }

  /** A barrier message that passes the ring check was transmitted for the index the
      receiver is at. */
  lemma AcceptedBarrierIsCurrent(c: Config, r: RingId, n: NodeId, nd: Node, log: Log, pos: nat, transit: bool)
    requires RingInv(c, r, log) && ActiveInv(c, r, n, nd, log, pos, transit)
    requires pos < |log| && log[pos].1.BarrierReached? && log[pos].1.ring == r
    ensures log[pos].1.about == nd.idx < |nd.services|
    ensures nd.state == PROCESS || nd.state == BARRIER
    ensures !Completed(nd)
  {
    var i := AcceptedRank(c, r, n, nd, log, pos, transit);
  }

  /** A service list that passes the ring check comes while the list is built. */
  lemma AcceptedBuildIsCurrent(c: Config, r: RingId, n: NodeId, nd: Node, log: Log, pos: nat, transit: bool)
    requires RingInv(c, r, log) && ActiveInv(c, r, n, nd, log, pos, transit)
    requires pos < |log| && log[pos].1.ServiceBuild? && log[pos].1.ring == r
    ensures nd.state == SERVICELIST_BUILD && !AllReceived(nd.processors)
    ensures log[pos].1.services == c.loaded(r, log[pos].0)
    ensures !Completed(nd)
  {
    var i := AcceptedRank(c, r, n, nd, log, pos, transit);
  }

  // ---- delivering a message ----

  /** A message that is not for the ring leaves everything as it was. */
  lemma DeliverForeign(c: Config, r: RingId, n: NodeId, nd: Node, log: Log, pos: nat, transit: bool)
    requires ActiveInv(c, r, n, nd, log, pos, transit)
    requires pos < |log| && !Tagged(log[pos].1, r)
    ensures ActiveInv(c, r, n, nd, log, pos + 1, transit)
    ensures DeliverMessage(nd, log[pos].0, log[pos].1) == nd
  {
    forall s
      ensures Count(log[..pos + 1], s, r) == Count(log[..pos], s, r)
    {
      CountNext(log, pos, s, r);
    }
    KnownSame(c, r, n, log[..pos], log[..pos + 1]);
  }

  /** The counts after a message that was accepted, before anything else happens. */
  lemma MarkedCounts(c: Config, r: RingId, n: NodeId, nd: Node, log: Log, pos: nat, transit: bool, i: nat)
    requires ConfigOk(c)
    requires RingInv(c, r, log) && ActiveInv(c, r, n, nd, log, pos, transit)
    requires pos < |log| && Tagged(log[pos].1, r)
    requires i < |nd.processors| && c.members(r)[i] == log[pos].0 && !nd.processors[i].received
    requires !Completed(nd)
    ensures var ps := MarkReceived(nd.processors, log[pos].0);
            forall k :: 0 <= k < |ps| ==>
              && ps[k].nodeid == c.members(r)[k]
              && Count(log[..pos + 1], c.members(r)[k], r) == Round(nd) + Bit(ps[k].received)
  {
    var ms := c.members(r);
    var ps := MarkReceived(nd.processors, log[pos].0);
    forall k | 0 <= k < |ps|
      ensures ps[k].nodeid == ms[k]
      ensures Count(log[..pos + 1], ms[k], r) == Round(nd) + Bit(ps[k].received)
    {
      assert DistinctNodes(ms);
      CountNext(log, pos, ms[k], r);
    }
  }

  lemma DeliverBuild(c: Config, r: RingId, n: NodeId, nd: Node, log: Log, pos: nat, transit: bool)
    requires ConfigOk(c) && r != NO_RING
    requires RingInv(c, r, log) && ActiveInv(c, r, n, nd, log, pos, transit)
    requires pos < |log| && log[pos].1.ServiceBuild? && log[pos].1.ring == r
    ensures ActiveInv(c, r, n, DeliverMessage(nd, log[pos].0, log[pos].1), log, pos + 1, transit)
  {
    hide Merged, Known, Count, AddUnknown, SortServices, AllReceived;
    var (s, m) := log[pos];
    var i := AcceptedRank(c, r, n, nd, log, pos, transit);
    AcceptedBuildIsCurrent(c, r, n, nd, log, pos, transit);
    MarkedCounts(c, r, n, nd, log, pos, transit, i);
    var nd' := DeliverMessage(nd, s, m);
    var heard := log[..pos];
    assert log[..pos + 1] == heard + [log[pos]];
    assert Merged(MergeList(nd.services, m.services), Known(c, r, n, heard + [(s, m)]), ToSet(c.loaded(r, n)), 0) by {
      OwnKnown(c, r, n, heard);
      MergeMore(nd.services, Known(c, r, n, heard), ToSet(c.loaded(r, n)), c.loaded(r, s));
      KnownGrows(c, r, n, heard, s, m);
    }
    assert nd'.services == MergeList(nd.services, m.services);
    DeliverBuildCases(c, r, n, nd, nd', log, pos);
  }

  lemma DeliverBuildCases(c: Config, r: RingId, n: NodeId, nd: Node, nd': Node, log: Log, pos: nat)
    requires pos < |log|
    requires ActiveInv(c, r, n, nd, log, pos, false)
    requires nd.state == SERVICELIST_BUILD && !AllReceived(nd.processors)
    requires var ps := MarkReceived(nd.processors, log[pos].0);
             forall k :: 0 <= k < |ps| ==>
               && ps[k].nodeid == c.members(r)[k]
               && Count(log[..pos + 1], c.members(r)[k], r) == Bit(ps[k].received)
    requires log[pos].1.ServiceBuild? && log[pos].1.ring == r
    requires nd' == DeliverMessage(nd, log[pos].0, log[pos].1)
    requires Merged(nd'.services, Known(c, r, n, log[..pos + 1]), ToSet(c.loaded(r, n)), 0)
    ensures ActiveInv(c, r, n, nd', log, pos + 1, false)
  {
    hide Merged, Known, Count, Expected, MergeList, AddUnknown, SortServices;
    var ps := MarkReceived(nd.processors, log[pos].0);
    if AllReceived(ps) {
      if nd'.services == [] {
        assert nd'.processors == ps;
      } else {
        assert nd'.processors == ClearReceived(ps);
        assert !AllReceived(nd'.processors) by {
          var k := MemberIndex(c, r, n);
          assert !nd'.processors[k].received;
        }
      }
    } else {
      assert nd'.processors == ps;
    }
  }

  lemma DeliverBarrier(c: Config, r: RingId, n: NodeId, nd: Node, log: Log, pos: nat, transit: bool)
    requires ConfigOk(c) && r != NO_RING
    requires RingInv(c, r, log) && ActiveInv(c, r, n, nd, log, pos, transit)
    requires pos < |log| && log[pos].1.BarrierReached? && log[pos].1.ring == r
    ensures ActiveInv(c, r, n, DeliverMessage(nd, log[pos].0, log[pos].1), log, pos + 1, transit)
  {
    var (s, m) := log[pos];
    var i := AcceptedRank(c, r, n, nd, log, pos, transit);
    AcceptedBarrierIsCurrent(c, r, n, nd, log, pos, transit);
    MarkedCounts(c, r, n, nd, log, pos, transit, i);
    var nd' := DeliverMessage(nd, s, m);
    forall t | t in c.members(r)
      ensures Count(log[..pos], t, r) > 0 && Count(log[..pos + 1], t, r) > 0
    {
      var k := MemberIndex(c, r, t);
      CountNext(log, pos, t, r);
    }
    KnownSame(c, r, n, log[..pos], log[..pos + 1]);
    DeliverBarrierCases(c, r, n, nd, nd', log, pos);
  }

  lemma DeliverBarrierCases(c: Config, r: RingId, n: NodeId, nd: Node, nd': Node, log: Log, pos: nat)
    requires pos < |log|
    requires ActiveInv(c, r, n, nd, log, pos, false)
    requires (nd.state == PROCESS || nd.state == BARRIER) && nd.idx < |nd.services|
    requires var ps := MarkReceived(nd.processors, log[pos].0);
             forall k :: 0 <= k < |ps| ==>
               && ps[k].nodeid == c.members(r)[k]
               && Count(log[..pos + 1], c.members(r)[k], r) == nd.idx + 1 + Bit(ps[k].received)
    requires log[pos].1.BarrierReached? && log[pos].1.ring == r
    requires nd' == DeliverMessage(nd, log[pos].0, log[pos].1)
    requires Known(c, r, n, log[..pos]) == Known(c, r, n, log[..pos + 1])
    ensures ActiveInv(c, r, n, nd', log, pos + 1, false)
  {
    hide Known, Count, Expected;
    var ps := MarkReceived(nd.processors, log[pos].0);
    if AllReceived(ps) {
      var k := MemberIndex(c, r, n);
      CountGrows(log, pos + 1, n, r);
      assert nd.state == BARRIER;
      assert Merged(nd'.services, Known(c, r, n, log[..pos + 1]), ToSet(c.loaded(r, n)), nd.idx + 1) by {
        CommitMerged(nd.services, Known(c, r, n, log[..pos]), ToSet(c.loaded(r, n)), nd.idx);
      }
      if nd.idx + 1 == |nd.services| {
        assert nd'.processors == ps;
      } else {
        assert nd'.processors == ClearReceived(ps);
        assert !nd'.processors[k].received;
      }
    } else {
      assert nd'.processors == ps;
    }
  }

  lemma CommitMerged(services: seq<Service>, ids: set<ServiceId>, own: set<ServiceId>, idx: nat)
    requires Merged(services, ids, own, idx) && idx < |services|
    ensures Merged(services[idx := services[idx].(activated := true)], ids, own, idx + 1)
  {
    var r := services[idx := services[idx].(activated := true)];
    forall x
      ensures HasService(r, x) <==> HasService(services, x)
    {
      if HasService(services, x) {
        var i :| 0 <= i < |services| && services[i].id == x;
        assert r[i].id == x;
      }
      if HasService(r, x) {
        var i :| 0 <= i < |r| && r[i].id == x;
        assert services[i].id == x;
      }
    }
    assert IdSet(r) == IdSet(services);
  }

  // ---- the other steps of a node ----

  /** A message put into the log by another node. */
  lemma LogExtended(c: Config, r: RingId, n: NodeId, nd: Node, log: Log, pos: nat, transit: bool, e: (NodeId, Message))
    requires ActiveInv(c, r, n, nd, log, pos, transit)
    requires e.0 != n || !Tagged(e.1, r)
    ensures ActiveInv(c, r, n, nd, log + [e], pos, transit)
  {
    assert (log + [e])[..pos] == log[..pos];
    CountSnoc(log, e, n, r);
  }

  /** Unsent messages of other services do not matter. */
  lemma OutExtended(c: Config, r: RingId, n: NodeId, nd: Node, log: Log, pos: nat, transit: bool,
                    more: seq<Message>, calls: seq<Callback>)
    requires ActiveInv(c, r, n, nd, log, pos, transit)
    requires forall i :: 0 <= i < |more| ==> more[i].App?
    ensures ActiveInv(c, r, n, nd.(out := nd.out + more, calls := calls), log, pos, transit)
  {
    PendingAppend(nd.out, more, r);
    PendingNone(more, r);
  }

  /** At most one synchronization message of the ring is unsent, and none while the
      node processes a service. */
  lemma PendingBound(c: Config, r: RingId, n: NodeId, nd: Node, log: Log, pos: nat, transit: bool)
    requires ActiveInv(c, r, n, nd, log, pos, transit)
    ensures Round(nd) <= Count(log, n, r)
    ensures Count(log, n, r) + Pending(nd.out, r) <= Round(nd) + 1
    ensures nd.state == PROCESS ==> Count(log, n, r) == nd.idx + 1 && Pending(nd.out, r) == 0
  {
    var i := MemberIndex(c, r, n);
    CountGrows(log, pos, n, r);
  }

  lemma WorkStep(c: Config, r: RingId, n: NodeId, nd: Node, log: Log, pos: nat, transit: bool,
                 sent: seq<Message>, done: bool)
    requires ActiveInv(c, r, n, nd, log, pos, transit) && nd.scheduled
    requires forall i :: 0 <= i < |sent| ==> sent[i].App?
    ensures ActiveInv(c, r, n, Work(nd, sent, done), log, pos, transit)
  {
    hide Count, Known, Merged;
    var s := nd.services[nd.idx];
    assert !s.activated by {
      NotActivated(nd.services, Known(c, r, n, log[..pos]), ToSet(c.loaded(r, n)), nd.idx);
    }
    OutExtended(c, r, n, nd, log, pos, transit, sent, nd.calls + Call(s, Processed(s.id)));
    var n1 := nd.(out := nd.out + sent, calls := nd.calls + Call(s, Processed(s.id)));
    if done || !s.loaded {
      PendingBound(c, r, n, n1, log, pos, transit);
      var b := BarrierReached(r, nd.idx);
      PendingAppend(n1.out, [b], r);
      var n2 := Work(nd, sent, done);
      assert n2 == n1.(scheduled := false, state := BARRIER, out := n1.out + [b]);
      PendingZero(n1.out, r);
    }
  }

  lemma NotActivated(services: seq<Service>, ids: set<ServiceId>, own: set<ServiceId>, idx: nat)
    requires Merged(services, ids, own, idx) && idx < |services|
    ensures !services[idx].activated
    ensures services[idx].loaded <==> services[idx].id in own
  {
  }

  lemma {:induction false} PendingZero(out: seq<Message>, r: RingId)
    requires Pending(out, r) == 0
    ensures forall i :: 0 <= i < |out| ==> !Tagged(out[i], r)
  {
    if out != [] {
      PendingZero(out[1..], r);
      forall i | 0 <= i < |out|
        ensures !Tagged(out[i], r)
      {
        if i > 0 {
          assert out[i] == out[1..][i - 1];
        }
      }
    }
  }

  /** A node enters a ring it has not been in. */
  lemma StartStep(c: Config, r: RingId, n: NodeId, nd: Node, kept: seq<Message>, log: Log)
    requires ConfigOk(c) && n in c.members(r)
    requires !nd.broken && !Regular(nd.(out := kept), c.members(r), r, c.loaded(r, n)).scheduled
    requires Count(log, n, r) == 0 && Pending(kept, r) == 0
    ensures ActiveInv(c, r, n, Regular(nd.(out := kept), c.members(r), r, c.loaded(r, n)), log, 0, false)
  {
    var ms := c.members(r);
    var nd' := Regular(nd.(out := kept), ms, r, c.loaded(r, n));
    assert !nd'.processors[0].received;
    assert log[..0] == [];
    OwnMerged(c.loaded(r, n));
    assert Known(c, r, n, []) == ToSet(c.loaded(r, n)) by {
      OwnKnown(c, r, n, []);
    }
    PendingAppend(kept, [ServiceBuild(r, c.loaded(r, n))], r);
    PendingZero(kept, r);
  }

  // ---- originating a message ----

  lemma OriginateRing(c: Config, r: RingId, n: NodeId, nd: Node, log: Log, pos: nat)
    requires ConfigOk(c) && RingInv(c, r, log) && ActiveInv(c, r, n, nd, log, pos, false)
    requires nd.out != []
    ensures RingInv(c, r, log + [(n, nd.out[0])])
  {
    var m := nd.out[0];
    var log' := log + [(n, m)];
    forall s
      ensures Count(log', s, r) == Count(log, s, r) + Bit(s == n && Tagged(m, r))
    {
      CountSnoc(log, (n, m), s, r);
    }
    if Tagged(m, r) {
      PendingBound(c, r, n, nd, log, pos, false);
      SentBound(c, r, n, nd, log, pos);
    }
    assert PhaseOrdered(c, r, log') by {
      forall i, s, t | 0 <= i <= |log'| && s in c.members(r) && t in c.members(r)
        ensures Count(log'[..i], s, r) <= Count(log'[..i], t, r) + 1
      {
        OriginateOrdered(c, r, n, nd, log, pos, i, s, t);
      }
    }
    forall i | 0 <= i < |log'| && Tagged(log'[i].1, r)
      ensures log'[i].0 in c.members(r)
      ensures log'[i].1 == Expected(c, r, log'[i].0, Count(log'[..i], log'[i].0, r))
    {
      if i < |log| {
        assert log'[..i] == log[..i] && log'[i] == log[i];
      } else {
        assert log'[..i] == log;
      }
    }
  }

  /** No node sends more than one message per service and one service list. */
  lemma SentBound(c: Config, r: RingId, n: NodeId, nd: Node, log: Log, pos: nat)
    requires ActiveInv(c, r, n, nd, log, pos, false)
    ensures Count(log, n, r) + Pending(nd.out, r) <= |Agenda(c, r)| + 1
  {
    if Round(nd) > 0 {
      forall t | t in c.members(r)
        ensures Count(log[..pos], t, r) > 0
      {
        var i := MemberIndex(c, r, t);
      }
      ServicesAreAgenda(c, r, n, nd, log[..pos]);
    }
  }

  lemma OriginateOrdered(c: Config, r: RingId, n: NodeId, nd: Node, log: Log, pos: nat, i: nat, s: NodeId, t: NodeId)
    requires RingInv(c, r, log) && ActiveInv(c, r, n, nd, log, pos, false)
    requires nd.out != [] && i <= |log| + 1 && s in c.members(r) && t in c.members(r)
    ensures var log' := log + [(n, nd.out[0])];
            Count(log'[..i], s, r) <= Count(log'[..i], t, r) + 1
  {
    var m := nd.out[0];
    var log' := log + [(n, m)];
    if i <= |log| {
      assert log'[..i] == log[..i];
    } else {
      assert log'[..i] == log';
      assert log[..|log|] == log;
      CountSnoc(log, (n, m), s, r);
      CountSnoc(log, (n, m), t, r);
      if s == n && Tagged(m, r) {
        PendingBound(c, r, n, nd, log, pos, false);
        var k := MemberIndex(c, r, t);
        CountGrows(log, pos, t, r);
        assert Pending(nd.out, r) >= 1;
      }
    }
  }

  lemma OriginateNode(c: Config, r: RingId, n: NodeId, nd: Node, log: Log, pos: nat)
    requires ActiveInv(c, r, n, nd, log, pos, false)
    requires nd.out != []
    ensures ActiveInv(c, r, n, nd.(out := nd.out[1..]), log + [(n, nd.out[0])], pos, false)
  {
    var m := nd.out[0];
    var log' := log + [(n, m)];
    assert log'[..pos] == log[..pos];
    CountSnoc(log, (n, m), n, r);
    PendingBound(c, r, n, nd, log, pos, false);
    if Tagged(m, r) {
      PendingZero(nd.out[1..], r);
    }
  }

  // ---- all steps ----

  /** A step that changes one node and no log. */
  lemma InvOneNode(c: Config, s: System, n: NodeId, l: Local, events: seq<Event>)
    requires Inv(c, s)
    requires At(s, n).joined <= l.joined
    requires LocalInv(c, n, l, LogIn(s, l.cur))
    ensures Inv(c, SetLocal(s, n, l).(events := events))
  {
    hide LocalInv, RingInv, TagsOk;
    var s' := SetLocal(s, n, l).(events := events);
    forall m
      ensures At(s', m) == if m == n then l else At(s, m)
    {
    }
    forall r
      ensures LogIn(s', r) == LogIn(s, r)
    {
    }
    forall r | r != NO_RING
      ensures SendersJoined(s', r)
    {
      assert SendersJoined(s, r);
    }
    forall m
      ensures LocalInv(c, m, At(s', m), LogIn(s', At(s', m).cur))
    {
      assert LocalInv(c, m, At(s, m), LogIn(s, At(s, m).cur));
    }
  }

  lemma NotJoinedNotCounted(s: System, n: NodeId, r: RingId)
    requires SendersJoined(s, r) && r !in At(s, n).joined
    ensures Count(LogIn(s, r), n, r) == 0
  {
    if Count(LogIn(s, r), n, r) > 0 {
      CountedHasEntry(LogIn(s, r), n, r);
      assert false;
    }
  }

  lemma RegularStep(c: Config, s: System, n: NodeId, r: RingId, kept: seq<Message>)
    requires ConfigOk(c) && Inv(c, s) && Enabled(c, s, RegularConf(n, r, kept))
    ensures Inv(c, Apply(c, s, RegularConf(n, r, kept)))
  {
    hide RingInv, TagsOk, ActiveInv;
    var l := At(s, n);
    assert LocalInv(c, n, l, LogIn(s, l.cur));
    assert SendersJoined(s, r);
    NotJoinedNotCounted(s, n, r);
    forall i | 0 <= i < |kept|
      ensures !Tagged(kept[i], r) && (!kept[i].App? ==> kept[i].ring in l.joined)
    {
      assert kept[i] in l.node.out;
    }
    PendingNone(kept, r);
    ReadyToStart(c, n, l, LogIn(s, l.cur));
    StartStep(c, r, n, l.node, kept, LogIn(s, r));
    var nd := Regular(l.node.(out := kept), c.members(r), r, c.loaded(r, n));
    var l' := Local(nd, r, 0, false, l.joined + {r}, l.held);
    assert LocalInv(c, n, l', LogIn(s, r));
    InvOneNode(c, s, n, l', s.events);
  }

  /** Whatever a node was doing, no work is scheduled once it has been aborted. */
  lemma ReadyToStart(c: Config, n: NodeId, l: Local, log: Log)
    requires LocalInv(c, n, l, log)
    ensures !l.node.broken
    ensures l.node.scheduled ==> l.node.state == PROCESS && l.node.inProcess
  {
  }

  lemma TransitionalStep(c: Config, s: System, n: NodeId, members: seq<NodeId>)
    requires Inv(c, s)
    ensures Inv(c, Apply(c, s, TransitionalConf(n, members)))
  {
    hide RingInv, TagsOk;
    var l := At(s, n);
    var log := LogIn(s, l.cur);
    assert LocalInv(c, n, l, log);
    var l' := l.(node := Transitional(l.node, members), transit := true);
    TransitionalLocal(c, n, l, log, members);
    InvOneNode(c, s, n, l', s.events);
  }

  lemma TransitionalLocal(c: Config, n: NodeId, l: Local, log: Log, members: seq<NodeId>)
    requires LocalInv(c, n, l, log)
    ensures LocalInv(c, n, l.(node := Transitional(l.node, members), transit := true), log)
  {
    hide Count, Known, Merged, Expected;
    ReadyToStart(c, n, l, log);
  }

  lemma DeliverLocal(c: Config, s: System, n: NodeId)
    requires ConfigOk(c) && Inv(c, s) && Enabled(c, s, Deliver(n))
    ensures var l := At(s, n);
            var log := LogIn(s, l.cur);
            LocalInv(c, n, l.(node := DeliverMessage(l.node, log[l.pos].0, log[l.pos].1), pos := l.pos + 1), log)
  {
    hide RingInv, ActiveInv, BuildHandler, BarrierHandler;
    var l := At(s, n);
    var r := l.cur;
    var log := LogIn(s, r);
    var (from, m) := log[l.pos];
    assert LocalInv(c, n, l, log);
    assert RingInv(c, r, log) && TagsOk(log);
    if l.node.ring == NO_RING {
      IdleIgnores(l.node, from, m);
    } else {
      DeliverActive(c, r, n, l.node, log, l.pos, l.transit);
      SameOut(l.node, from, m);
    }
  }

  /** A node that takes part in no ring ignores synchronization messages. */
  lemma IdleIgnores(nd: Node, from: NodeId, m: Message)
    requires nd.ring == NO_RING && (m.App? || m.ring != NO_RING)
    ensures DeliverMessage(nd, from, m) == nd
  {
  }

  lemma SameOut(nd: Node, from: NodeId, m: Message)
    ensures DeliverMessage(nd, from, m).out == nd.out
    ensures DeliverMessage(nd, from, m).ring == nd.ring
  {
  }

  lemma DeliverActive(c: Config, r: RingId, n: NodeId, nd: Node, log: Log, pos: nat, transit: bool)
    requires ConfigOk(c) && r != NO_RING
    requires RingInv(c, r, log) && ActiveInv(c, r, n, nd, log, pos, transit)
    requires pos < |log|
    ensures ActiveInv(c, r, n, DeliverMessage(nd, log[pos].0, log[pos].1), log, pos + 1, transit)
  {
    hide ActiveInv, RingInv;
    if !Tagged(log[pos].1, r) {
      DeliverForeign(c, r, n, nd, log, pos, transit);
    } else if log[pos].1.ServiceBuild? {
      DeliverBuild(c, r, n, nd, log, pos, transit);
    } else {
      DeliverBarrier(c, r, n, nd, log, pos, transit);
    }
  }

  lemma DeliverStep(c: Config, s: System, n: NodeId)
    requires ConfigOk(c) && Inv(c, s) && Enabled(c, s, Deliver(n))
    ensures Inv(c, Apply(c, s, Deliver(n)))
  {
    hide LocalInv, RingInv, TagsOk, DeliverMessage;
    var l := At(s, n);
    var log := LogIn(s, l.cur);
    DeliverLocal(c, s, n);
    var nd := DeliverMessage(l.node, log[l.pos].0, log[l.pos].1);
    InvOneNode(c, s, n, l.(node := nd, pos := l.pos + 1), s.events + Milestones(n, l.node, nd));
  }

  lemma SkipActive(c: Config, r: RingId, n: NodeId, nd: Node, log: Log, pos: nat)
    requires RingInv(c, r, log) && ActiveInv(c, r, n, nd, log, pos, true)
    requires pos < |log|
    ensures ActiveInv(c, r, n, nd, log, pos + 1, true)
  {
    assert Completed(nd);
    hide ActiveInv, RingInv, Completed;
    if Tagged(log[pos].1, r) {
      var i := AcceptedRank(c, r, n, nd, log, pos, true);
      assert false;
    }
    DeliverForeign(c, r, n, nd, log, pos, true);
  }

  lemma SkipStep(c: Config, s: System, n: NodeId)
    requires ConfigOk(c) && Inv(c, s) && Enabled(c, s, Skip(n))
    ensures Inv(c, Apply(c, s, Skip(n)))
  {
    hide TagsOk, ActiveInv, RingInv;
    var l := At(s, n);
    var log := LogIn(s, l.cur);
    assert LocalInv(c, n, l, log) && RingInv(c, l.cur, log);
    if l.node.ring != NO_RING {
      SkipActive(c, l.cur, n, l.node, log, l.pos);
    }
    InvOneNode(c, s, n, l.(pos := l.pos + 1), s.events);
  }

  lemma WorkOrSendStep(c: Config, s: System, step: Step)
    requires ConfigOk(c) && Inv(c, s) && Enabled(c, s, step)
    requires step.DoWork? || step.Send?
    ensures Inv(c, Apply(c, s, step))
  {
    hide TagsOk, RingInv, ActiveInv, Work;
    var n := step.n;
    var l := At(s, n);
    var log := LogIn(s, l.cur);
    assert LocalInv(c, n, l, log);
    match step {
      case DoWork(_, sent, done) =>
        var nd := Work(l.node, Bodies(sent), done);
        ScheduledActive(c, n, l, log);
        WorkStep(c, l.cur, n, l.node, log, l.pos, l.transit, Bodies(sent), done);
        WorkOut(l.node, Bodies(sent), done);
        InvOneNode(c, s, n, l.(node := nd), s.events + Milestones(n, l.node, nd));
      case Send(_, body) =>
        if l.node.ring != NO_RING {
          OutExtended(c, l.cur, n, l.node, log, l.pos, l.transit, [App(body)], l.node.calls);
        }
        var nd := l.node.(out := l.node.out + [App(body)]);
        assert nd == l.node.(out := l.node.out + [App(body)], calls := l.node.calls);
        InvOneNode(c, s, n, l.(node := nd), s.events);
    }
  }

  /** A node that is through with its ring has nothing of the ring left to send. */
  lemma NothingLeft(c: Config, r: RingId, n: NodeId, nd: Node, log: Log, pos: nat, transit: bool)
    requires ActiveInv(c, r, n, nd, log, pos, transit) && Completed(nd)
    ensures forall i :: 0 <= i < |nd.out| ==> !Tagged(nd.out[i], r)
    ensures Count(log, n, r) == Round(nd)
  {
    PendingBound(c, r, n, nd, log, pos, transit);
    PendingZero(nd.out, r);
  }

  lemma QueueReplaced(c: Config, r: RingId, n: NodeId, nd: Node, log: Log, pos: nat, transit: bool, out: seq<Message>)
    requires ActiveInv(c, r, n, nd, log, pos, transit) && Completed(nd)
    requires forall i :: 0 <= i < |out| ==> !Tagged(out[i], r)
    ensures ActiveInv(c, r, n, nd.(out := out), log, pos, transit)
  {
    NothingLeft(c, r, n, nd, log, pos, transit);
    PendingNone(nd.out, r);
    PendingNone(out, r);
  }

  /** Between two synchronizations neither queue has messages of the ring. */
  lemma BothClear(c: Config, n: NodeId, l: Local, log: Log, more: seq<Message>)
    requires LocalInv(c, n, l, log) && !l.node.inProcess
    requires forall i :: 0 <= i < |more| ==> more[i] in l.node.out || more[i] in l.held
    ensures l.node.ring == l.cur != NO_RING && !l.transit && Completed(l.node)
    ensures ActiveInv(c, l.cur, n, l.node, log, l.pos, l.transit)
    ensures forall i :: 0 <= i < |more| && !more[i].App? ==> more[i].ring in l.joined && more[i].ring != l.cur
  {
    NothingLeft(c, l.cur, n, l.node, log, l.pos, l.transit);
  }

  lemma ExchangeStep(c: Config, s: System, n: NodeId, out: seq<Message>, held: seq<Message>)
    requires Inv(c, s) && Enabled(c, s, Exchange(n, out, held))
    ensures Inv(c, Apply(c, s, Exchange(n, out, held)))
  {
    hide TagsOk, RingInv, ActiveInv;
    var l := At(s, n);
    var log := LogIn(s, l.cur);
    assert LocalInv(c, n, l, log);
    BothClear(c, n, l, log, out);
    BothClear(c, n, l, log, held);
    QueueReplaced(c, l.cur, n, l.node, log, l.pos, l.transit, out);
    InvOneNode(c, s, n, l.(node := l.node.(out := out), held := held), s.events);
  }

  lemma RestartStep(c: Config, s: System, n: NodeId)
    requires Inv(c, s)
    ensures Inv(c, Apply(c, s, Restart(n)))
  {
    hide TagsOk, RingInv, ActiveInv;
    var l := At(s, n);
    assert LocalInv(c, n, l, LogIn(s, l.cur));
    InvOneNode(c, s, n, FRESH.(joined := l.joined), s.events);
  }

  lemma ScheduledActive(c: Config, n: NodeId, l: Local, log: Log)
    requires LocalInv(c, n, l, log) && l.node.scheduled
    ensures l.node.ring == l.cur != NO_RING
    ensures ActiveInv(c, l.cur, n, l.node, log, l.pos, l.transit)
  {
  }

  /** Work only adds messages of services and messages tagged with the node's ring. */
  lemma WorkOut(nd: Node, sent: seq<Message>, done: bool)
    requires forall i :: 0 <= i < |sent| ==> sent[i].App?
    ensures Work(nd, sent, done).ring == nd.ring
    ensures forall i :: 0 <= i < |Work(nd, sent, done).out| && !Work(nd, sent, done).out[i].App? ==>
              Work(nd, sent, done).out[i].ring == nd.ring || Work(nd, sent, done).out[i] in nd.out
  {
  }

  /** The originating node, and the other nodes of the ring. */
  lemma OriginateLocal(c: Config, n: NodeId, l: Local, log: Log)
    requires LocalInv(c, n, l, log)
    requires l.node.out != [] && l.cur != NO_RING && !l.transit
    ensures l.node.ring == l.cur && ActiveInv(c, l.cur, n, l.node, log, l.pos, false)
    ensures LocalInv(c, n, l.(node := l.node.(out := l.node.out[1..])), log + [(n, l.node.out[0])])
  {
    OriginateNode(c, l.cur, n, l.node, log, l.pos);
    hide ActiveInv;
    var out' := l.node.out[1..];
    assert forall i :: 0 <= i < |out'| ==> out'[i] == l.node.out[i + 1];
  }

  lemma OthersSeeLog(c: Config, m: NodeId, l: Local, log: Log, e: (NodeId, Message))
    requires LocalInv(c, m, l, log) && e.0 != m
    ensures LocalInv(c, m, l, log + [e])
  {
    if l.node.ring != NO_RING {
      LogExtended(c, l.cur, m, l.node, log, l.pos, l.transit, e);
    }
  }

  lemma OriginateStep(c: Config, s: System, n: NodeId)
    requires ConfigOk(c) && Inv(c, s) && Enabled(c, s, Originate(n))
    ensures Inv(c, Apply(c, s, Originate(n)))
  {
    hide RingInv, ActiveInv, LocalInv;
    var l := At(s, n);
    var r := l.cur;
    var log := LogIn(s, r);
    var m := l.node.out[0];
    var s' := Apply(c, s, Originate(n));
    assert LocalInv(c, n, l, log);
    OriginateLocal(c, n, l, log);
    OriginateRing(c, r, n, l.node, log, l.pos);
    OriginateTags(c, n, l, log);
    forall q
      ensures LogIn(s', q) == if q == r then log + [(n, m)] else LogIn(s, q)
    {
    }
    forall k
      ensures LocalInv(c, k, At(s', k), LogIn(s', At(s', k).cur))
    {
      assert LocalInv(c, k, At(s, k), LogIn(s, At(s, k).cur));
      if k != n && At(s, k).cur == r {
        OthersSeeLog(c, k, At(s, k), log, (n, m));
      }
    }
    forall q | q != NO_RING
      ensures RingInv(c, q, LogIn(s', q)) && SendersJoined(s', q)
    {
      assert RingInv(c, q, LogIn(s, q)) && SendersJoined(s, q);
    }
    forall q
      ensures TagsOk(LogIn(s', q))
    {
      assert TagsOk(LogIn(s, q));
    }
  }

  lemma OriginateTags(c: Config, n: NodeId, l: Local, log: Log)
    requires LocalInv(c, n, l, log) && l.node.out != []
    ensures !l.node.out[0].App? ==> l.node.out[0].ring != NO_RING
    ensures l.cur != NO_RING ==> l.cur in l.joined
  {
  }

  lemma InvStep(c: Config, s: System, step: Step)
    requires ConfigOk(c) && Inv(c, s) && Enabled(c, s, step)
    ensures Inv(c, Apply(c, s, step))
  {
    hide Inv;
    match step {
      case RegularConf(n, r, kept) => RegularStep(c, s, n, r, kept);
      case TransitionalConf(n, members) => TransitionalStep(c, s, n, members);
      case Originate(n) => OriginateStep(c, s, n);
      case Deliver(n) => DeliverStep(c, s, n);
      case Skip(n) => SkipStep(c, s, n);
      case DoWork(n, sent, done) => WorkOrSendStep(c, s, step);
      case Send(n, body) => WorkOrSendStep(c, s, step);
      case Exchange(n, out, held) => ExchangeStep(c, s, n, out, held);
      case Restart(n) => RestartStep(c, s, n);
    }
  }

  lemma InitInv(c: Config)
    ensures Inv(c, INIT)
  {
    forall r
      ensures RingInv(c, r, [])
    {
    }
  }

  /** The invariant holds after every run. */
  lemma {:induction false} Reachable(c: Config, steps: seq<Step>)
    requires ConfigOk(c) && Exec(c, steps).Some?
    ensures Inv(c, Exec(c, steps).value)
  {
    hide Inv;
    if steps == [] {
      InitInv(c);
    } else {
      Reachable(c, steps[..|steps| - 1]);
      InvStep(c, Exec(c, steps[..|steps| - 1]).value, steps[|steps| - 1]);
    }
  }
}
