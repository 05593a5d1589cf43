/** exec/sync.c in its own form: static variables changed by message handlers and
    loops, and `confchg_fn` of exec/main.c that drives it. Every method is proved
    against the function of `Sync` it implements. */
module SyncService {
  import Sync
  import opened SyncLists

  type NodeId = Sync.NodeId
  type ServiceId = Sync.ServiceId

  const SERVICES_COUNT_MAX := 64

  datatype ConfigurationType = TRANSITIONAL | REGULAR

  class Synchronizer {
    var myState: Sync.State
    var myRingId: Sync.RingId
    var myProcessingIdx: nat
    var myProcessorList: seq<Sync.Processor>
    var myMemberList: seq<NodeId>
    var myTransList: seq<NodeId>
    var myServiceList: seq<Sync.Service>
    var schedwrkPending: bool
    var syncInProcess: bool
    var sent: seq<Sync.Message>
    var calls: seq<Sync.Callback>
    var outOfBounds: bool

    ghost function View(): Sync.Node
      reads this
    {
      Sync.Node(myState, myRingId, myProcessingIdx, myProcessorList, myMemberList, myTransList,
                myServiceList, schedwrkPending, syncInProcess, sent, calls, outOfBounds)
    }

    constructor ()
      ensures View() == Sync.INITIAL
    {
      myState, myRingId, myProcessingIdx := Sync.BARRIER, Sync.NO_RING, 0;
      myProcessorList, myMemberList, myTransList, myServiceList := [], [], [], [];
      schedwrkPending, syncInProcess, sent, calls, outOfBounds := false, true, [], [], false;
    }

    /** Mark the sender and see whether all processors have been heard. */
    method Receive(nodeid: NodeId) returns (barrierReached: bool)
      modifies this`myProcessorList
      ensures myProcessorList == Sync.MarkReceived(old(myProcessorList), nodeid)
      ensures barrierReached == Sync.AllReceived(myProcessorList)
    {
      var i := 0;
      while i < |myProcessorList|
        invariant 0 <= i <= |myProcessorList| == |old(myProcessorList)|
        invariant forall k :: 0 <= k < |myProcessorList| ==>
                    myProcessorList[k] ==
                    if k < i then Sync.MarkReceived(old(myProcessorList), nodeid)[k] else old(myProcessorList)[k]
      {
        if myProcessorList[i].nodeid == nodeid {
          myProcessorList := myProcessorList[i := Sync.Processor(nodeid, true)];
        }
        i := i + 1;
      }
      barrierReached := true;
      i := 0;
      while i < |myProcessorList|
        invariant 0 <= i <= |myProcessorList|
        invariant barrierReached == forall k :: 0 <= k < i ==> myProcessorList[k].received
      {
        if !myProcessorList[i].received {
          barrierReached := false;
        }
        i := i + 1;
      }
    }

    /** `corosync_sync_completed`. */
    method SyncCompleted()
      modifies this`syncInProcess
      ensures View() == Sync.Complete(old(View()))
    {
      syncInProcess := false;
    }

    /** `sync_process_enter`. */
    method ProcessEnter()
      modifies this
      ensures View() == Sync.ProcessEnter(old(View()))
    {
      myState := Sync.PROCESS;
      if |myServiceList| == 0 {
        myState := Sync.SERVICELIST_BUILD;
        SyncCompleted();
        return;
      }
      var i := 0;
      while i < |myProcessorList|
        invariant 0 <= i <= |myProcessorList| == |old(myProcessorList)|
        invariant forall k :: 0 <= k < |myProcessorList| ==>
                    myProcessorList[k] ==
                    if k < i then Sync.Processor(old(myProcessorList)[k].nodeid, false) else old(myProcessorList)[k]
        invariant View() == old(View()).(state := Sync.PROCESS, processors := myProcessorList)
      {
        myProcessorList := myProcessorList[i := Sync.Processor(myProcessorList[i].nodeid, false)];
        i := i + 1;
      }
      schedwrkPending := true;
    }

    /** A service that is loaded here is called; the others have dummies. */
    method CallService(s: Sync.Service, c: Sync.Callback)
      modifies this`calls
      ensures calls == old(calls) + Sync.Call(s, c)
    {
      if s.loaded {
        calls := calls + [c];
      } else {
        assert calls == calls + [];
      }
    }

    /** `sync_barrier_handler`. */
    method BarrierHandler(nodeid: NodeId, ringId: Sync.RingId)
      modifies this
      ensures View() == Sync.BarrierHandler(old(View()), nodeid, ringId)
    {
      if myRingId != ringId {
        return;
      }
      var barrierReached := Receive(nodeid);
      if barrierReached {
        if myProcessingIdx >= |myServiceList| {
          outOfBounds := true;
          return;
        }
        var s := myServiceList[myProcessingIdx];
        myServiceList := myServiceList[myProcessingIdx := s.(activated := true)];
        CallService(s, Sync.Activated(s.id));
        myProcessingIdx := myProcessingIdx + 1;
        if |myServiceList| == myProcessingIdx {
          SyncCompleted();
        } else {
          ProcessEnter();
        }
      }
    }

    /** Search the service list. */
    method Known(id: ServiceId) returns (found: bool)
      ensures found == Sync.HasService(myServiceList, id)
    {
      found := false;
      var j := 0;
      while j < |myServiceList|
        invariant 0 <= j <= |myServiceList|
        invariant forall k :: 0 <= k < j ==> myServiceList[k].id != id
      {
        if myServiceList[j].id == id {
          found := true;
          return;
        }
        j := j + 1;
      }
    }

    /** `sync_service_build_handler`. */
    method ServiceBuildHandler(nodeid: NodeId, ringId: Sync.RingId, ids: seq<ServiceId>)
      modifies this
      ensures View() == Sync.BuildHandler(old(View()), nodeid, ringId, ids)
    {
      if myRingId != ringId {
        return;
      }
      var qsortTrigger := false;
      ghost var was := myServiceList;
      for i := 0 to |ids|
        invariant View() == old(View()).(services := myServiceList)
        invariant myServiceList == Sync.AddUnknown(was, ids[..i])
        invariant qsortTrigger == (|myServiceList| > |was|)
      {
        assert ids[..i + 1][..i] == ids[..i] && ids[..i + 1][i] == ids[i];
        var found := Known(ids[i]);
        if !found {
          myServiceList := myServiceList + [Sync.Service(ids[i], false, false)];
          qsortTrigger := true;
        }
      }
      assert ids[..|ids|] == ids;
      if qsortTrigger {
        myServiceList := Sync.SortServices(myServiceList);
      }
      var barrierReached := Receive(nodeid);
      if barrierReached {
        ProcessEnter();
      }
    }

    /** Keep the members of the transitional list that are in the new ring. */
    method FilterTransitional()
      modifies this`myTransList
      ensures myTransList == Sync.Surviving(old(myTransList), myMemberList)
    {
      var oldTransList := myTransList;
      myTransList := [];
      for o := 0 to |oldTransList|
        invariant myTransList == Sync.Surviving(oldTransList[..o], myMemberList)
      {
        assert oldTransList[..o + 1][..o] == oldTransList[..o] && oldTransList[..o + 1][o] == oldTransList[o];
        var m := 0;
        while m < |myMemberList|
          invariant 0 <= m <= |myMemberList|
          invariant forall k :: 0 <= k < m ==> myMemberList[k] != oldTransList[o]
          invariant myTransList == Sync.Surviving(oldTransList[..o], myMemberList)
        {
          if oldTransList[o] == myMemberList[m] {
            myTransList := myTransList + [myMemberList[m]];
            break;
          }
          m := m + 1;
        }
      }
      assert oldTransList[..|oldTransList|] == oldTransList;
    }

    /** The ids of the services with synchronization callbacks, in ascending order. */
    method LoadedServices(available: set<ServiceId>) returns (ids: seq<ServiceId>)
      ensures IncreasingIds(ids)
      ensures forall x :: x in ids <==> 0 <= x < SERVICES_COUNT_MAX && x in available
    {
      ids := [];
      for i := 0 to SERVICES_COUNT_MAX
        invariant IncreasingIds(ids)
        invariant forall x :: x in ids <==> 0 <= x < i && x in available
      {
        if i in available {
          assert forall k :: 0 <= k < |ids| ==> ids[k] in ids;
          ids := ids + [i];
        }
      }
    }

    /** `sync_start`. */
    method Start(members: seq<NodeId>, ringId: Sync.RingId, available: set<ServiceId>)
      returns (ids: seq<ServiceId>)
      modifies this
      ensures IncreasingIds(ids)
      ensures forall x :: x in ids <==> 0 <= x < SERVICES_COUNT_MAX && x in available
      ensures View() == Sync.Start(old(View()), members, ringId, ids)
    {
      ids := LoadedServices(available);
      ServicelistBuildEnter(members, ringId, ids);
    }

    /** `sync_servicelist_build_enter` with `sync_process_call_init`. */
    method ServicelistBuildEnter(members: seq<NodeId>, ringId: Sync.RingId, ids: seq<ServiceId>)
      modifies this
      ensures View() == Sync.Start(old(View()), members, ringId, ids)
    {
      hide Sync.Surviving, Sync.Inits, Sync.OwnServices, Sync.Unreceived;
      myRingId := ringId;
      myState := Sync.SERVICELIST_BUILD;
      myProcessorList := Sync.Unreceived(members);
      myMemberList := members;
      myProcessingIdx := 0;
      myServiceList := Sync.OwnServices(ids);
      sent := sent + [Sync.ServiceBuild(ringId, ids)];
      FilterTransitional();
      calls := calls + [Sync.RoundStart(ringId)];
      CallInits(ids);
    }

    /** The `sync_init` calls of `sync_process_call_init`. */
    method CallInits(ghost ids: seq<ServiceId>)
      requires myServiceList == Sync.OwnServices(ids)
      modifies this`calls
      ensures calls == old(calls) + Sync.Inits(ids)
    {
      var i := 0;
      while i < |myServiceList|
        invariant 0 <= i <= |myServiceList| == |ids|
        invariant calls == old(calls) + Sync.Inits(ids)[..i]
      {
        calls := calls + [Sync.Init(myServiceList[i].id)];
        i := i + 1;
      }
    }

    /** `sync_abort`. */
    method Abort()
      modifies this
      ensures View() == Sync.Abort(old(View()))
    {
      if myState == Sync.PROCESS {
        schedwrkPending := false;
      }
      if (myState == Sync.PROCESS || myState == Sync.BARRIER) && myProcessingIdx < |myServiceList| {
        CallService(myServiceList[myProcessingIdx], Sync.Aborted(myServiceList[myProcessingIdx].id));
      } else {
        assert calls == calls + [];
      }
      myRingId := Sync.NO_RING;
    }

    /** `confchg_fn` of exec/main.c. */
    method Confchg(configurationType: ConfigurationType, members: seq<NodeId>, ringId: Sync.RingId,
                   available: set<ServiceId>)
      returns (ids: seq<ServiceId>)
      modifies this
      ensures configurationType == TRANSITIONAL ==> View() == Sync.Transitional(old(View()), members)
      ensures configurationType == REGULAR ==>
                && IncreasingIds(ids)
                && (forall x :: x in ids <==> 0 <= x < SERVICES_COUNT_MAX && x in available)
                && View() == Sync.Regular(old(View()), members, ringId, ids)
    {
      var abortActivate := syncInProcess;
      syncInProcess := true;
      ids := [];
      if abortActivate {
        Abort();
      }
      if configurationType == TRANSITIONAL {
        myTransList := members;
      }
      if configurationType == REGULAR {
        ids := Start(members, ringId, available);
      }
    }

    /** `schedwrk_processor`: `messages` and `result` are what `sync_process` of the
        current service sends and answers. */
    method SchedwrkProcessor(messages: seq<Sync.Message>, result: bool)
      modifies this
      ensures View() == Sync.Work(old(View()), messages, result)
    {
      if myProcessingIdx >= |myServiceList| {
        outOfBounds := true;
        return;
      }
      var s := myServiceList[myProcessingIdx];
      if !s.activated {
        CallService(s, Sync.Processed(s.id));
        sent := sent + messages;
        if result || !s.loaded {
          myState := Sync.BARRIER;
          sent := sent + [Sync.BarrierReached(myRingId, myProcessingIdx)];
          schedwrkPending := false;
        }
      } else {
        schedwrkPending := false;
      }
    }

    /** `sync_deliver_fn`. */
    method DeliverFn(nodeid: NodeId, m: Sync.Message)
      modifies this
      ensures View() == Sync.DeliverMessage(old(View()), nodeid, m)
    {
      match m {
        case ServiceBuild(ring, services) => ServiceBuildHandler(nodeid, ring, services);
        case BarrierReached(ring, _) => BarrierHandler(nodeid, ring);
        case App(_) =>
      }
    }
  }
}
