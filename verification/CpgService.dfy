/** The closed process group service as it runs on one node (exec/cpg.c): static lists
    changed in place by the message handlers and the synchronization callbacks. */
module CpgService {
  import opened Sync
  import opened Cpg

  class Service {
    const me: NodeId
    var list: seq<Process>
    var behind: Behind
    var stored: seq<Process>
    var storedBehind: Behind
    var members: seq<NodeId>
    var oldMembers: seq<NodeId>
    var downlist: seq<NodeId>
    var syncState: SyncState
    var notices: seq<Confchg>
    var overrun: bool

    ghost function State(): CpgState
      reads this
    {
      CpgState(me, list, behind, stored, storedBehind, members, oldMembers, downlist, syncState, notices, overrun)
    }

    constructor (nodeid: NodeId)
      ensures State() == InitialState(nodeid)
    {
      me := nodeid;
      list, stored, members, oldMembers, downlist, notices := [], [], [], [], [], [];
      behind, storedBehind := map[], map[];
      syncState := DOWNLIST;
      overrun := false;
    }

    // ---- notifications ----

    /** `notify_lib_joinlist_fill_member_list`. */
    method FillMemberList(group: Group, left: seq<Member>) returns (ms: seq<Member>)
      ensures ms == FillMembers(list, group, left)
    {
      ms := [];
      var i := 0;
      while i < |list|
        invariant 0 <= i <= |list| && ms == FillMembers(list[..i], group, left)
      {
        assert list[..i + 1][..i] == list[..i];
        if list[i].group == group {
          var inLeft := false;
          var j := 0;
          while j < |left|
            invariant 0 <= j <= |left|
            invariant inLeft <==> MemberOf(list[i]) in left[..j]
          {
            assert left[..j + 1] == left[..j] + [left[j]];
            if left[j] == MemberOf(list[i]) {
              inLeft := true;
              assert MemberOf(list[i]) in left;
              break;
            }
            j := j + 1;
          }
          assert left[..|left|] == left;
          if !inLeft {
            ms := ms + [MemberOf(list[i])];
          }
        }
        i := i + 1;
      }
      assert list[..i] == list;
    }

    /** `notify_lib_joinlist`. */
    method NotifyLibJoinlist(group: Group, joined: seq<Member>, left: seq<Member>, reason: int)
      modifies this`notices
      ensures State() == old(State()).(notices := old(notices) + [Notify(list, group, joined, left, reason)])
    {
      var ms := FillMemberList(group, left);
      notices := notices + [Confchg(group, ms, left, joined, reason)];
    }

    // ---- join and leave ----

    /** `process_info_find`. */
    method ProcessInfoFind(p: Process) returns (found: bool)
      ensures found <==> p in list
    {
      var i := 0;
      while i < |list|
        invariant 0 <= i <= |list| && p !in list[..i]
      {
        if list[i] == p {
          return true;
        }
        assert list[..i + 1] == list[..i] + [list[i]];
        i := i + 1;
      }
      assert list[..i] == list;
      return false;
    }

    /** The insertion of `do_proc_join`: behind the last entry that is not greater. */
    method InsertSorted(p: Process)
      modifies this`list
      ensures list == Insert(old(list), p)
    {
      var k := 0;
      while k < |list| && !Greater(list[k], p)
        invariant 0 <= k <= |list| && forall i :: 0 <= i < k ==> !Greater(list[i], p)
      {
        k := k + 1;
      }
      list := list[..k] + [p] + list[k..];
    }

    /** `do_proc_join` with immediate notification. */
    method DoProcJoin(p: Process, bytes: seq<int>)
      modifies this
      ensures State() == ProcJoined(old(State()), p, bytes)
    {
      var found := ProcessInfoFind(p);
      if found {
        return;
      }
      behind := behind[p := bytes];
      InsertSorted(p);
      NotifyLibJoinlist(p.group, [MemberOf(p)], [], REASON_JOIN);
    }

    /** `do_proc_leave`: the notification comes first and leaves the process out. */
    method DoProcLeave(p: Process, reason: int)
      modifies this
      ensures State() == ProcLeft(old(State()), p, reason)
    {
      NotifyLibJoinlist(p.group, [], [MemberOf(p)], reason);
      var kept := [];
      var i := 0;
      while i < |list|
        invariant 0 <= i <= |list| && kept == Remove(list[..i], p)
      {
        assert list[..i + 1][..i] == list[..i];
        if list[i] != p {
          kept := kept + [list[i]];
        }
        i := i + 1;
      }
      assert list[..i] == list;
      list := kept;
    }

    /** `message_handler_req_exec_cpg_joinlist`: every entry goes to the head of the list. */
    method StoreJoinlist(sender: NodeId, entries: seq<JoinEntry>)
      modifies this`stored, this`storedBehind
      ensures stored == Store(old(stored), sender, entries)
      ensures storedBehind == StoreBehind(old(storedBehind), sender, entries)
    {
      var i := 0;
      while i < |entries|
        invariant 0 <= i <= |entries| && stored == Store(old(stored), sender, entries[..i])
        invariant storedBehind == StoreBehind(old(storedBehind), sender, entries[..i])
      {
        assert entries[..i + 1][..i] == entries[..i];
        stored := [ToProcess(sender, entries[i])] + stored;
        storedBehind := storedBehind[ToProcess(sender, entries[i]) := entries[i].behind];
        i := i + 1;
      }
      assert entries[..i] == entries;
    }

    /** The message handlers. */
    method Handle(sender: NodeId, m: CpgMessage)
      modifies this
      ensures State() == HandleMessage(old(State()), sender, m)
    {
      match m
      case ProcJoin(pid, group, bytes) => DoProcJoin(Process(sender, pid, group), bytes);
      case ProcLeave(pid, group, reason) => DoProcLeave(Process(sender, pid, group), reason);
      case Downlist(_) =>
      case Joinlist(entries) => StoreJoinlist(sender, entries);
    }

    // ---- synchronization ----

    /** `cpg_sync_init`. */
    method Init(trans: seq<NodeId>, memberList: seq<NodeId>)
      modifies this
      ensures State() == SyncInit(old(State()), trans, memberList)
    {
      syncState := DOWNLIST;
      members := memberList;
      downlist := GoneMembers(trans);
    }

    /** The old members that are not in the transitional list. */
    method GoneMembers(trans: seq<NodeId>) returns (gone: seq<NodeId>)
      ensures gone == NotIn(oldMembers, trans)
    {
      gone := [];
      var i := 0;
      while i < |oldMembers|
        invariant 0 <= i <= |oldMembers| && gone == NotIn(oldMembers[..i], trans)
      {
        assert oldMembers[..i + 1][..i] == oldMembers[..i];
        var found := false;
        var j := 0;
        while j < |trans|
          invariant 0 <= j <= |trans| && (found <==> oldMembers[i] in trans[..j])
        {
          assert trans[..j + 1] == trans[..j] + [trans[j]];
          if oldMembers[i] == trans[j] {
            found := true;
            break;
          }
          j := j + 1;
        }
        assert trans[..|trans|] == trans;
        if !found {
          gone := gone + [oldMembers[i]];
        }
        i := i + 1;
      }
      assert oldMembers[..i] == oldMembers;
    }

    /** The entries that `cpg_exec_send_joinlist` puts in its message. */
    method JoinlistEntries() returns (entries: seq<JoinEntry>)
      ensures entries == OwnEntries(list, behind, me)
    {
      entries := [];
      var i := 0;
      while i < |list|
        invariant 0 <= i <= |list| && entries == OwnEntries(list[..i], behind, me)
      {
        assert list[..i + 1][..i] == list[..i];
        if list[i].nodeid == me {
          entries := entries + [JoinEntry(list[i].pid, list[i].group, BehindOf(behind, list[i]))];
        }
        i := i + 1;
      }
      assert list[..i] == list;
    }

    /** `cpg_sync_process`; whether the multicasts succeed is given. */
    method ProcessSync(downOk: bool, joinOk: bool) returns (sent: seq<CpgMessage>, done: bool)
      modifies this`syncState
      ensures (State(), sent, done) == SyncProcess(old(State()), downOk, joinOk)
    {
      sent := [];
      if syncState == DOWNLIST {
        if !downOk {
          return [], false;
        }
        sent := [Downlist(downlist)];
        syncState := JOINLIST;
      }
      var entries := JoinlistEntries();
      if entries == [] {
        return sent, true;
      }
      if !joinOk {
        return sent, false;
      }
      return sent + [Joinlist(entries)], true;
    }

    /** The confchg events of a batch, one per group. */
    method NotifyLeft(bs: seq<Batch>)
      modifies this`notices
      ensures State() == old(State()).(notices := old(notices) + LeftNotices(list, bs))
    {
      var i := 0;
      assert LeftNotices(list, bs)[..0] == [];
      while i < |bs|
        invariant 0 <= i <= |bs| && notices == old(notices) + LeftNotices(list, bs)[..i]
        modifies this`notices
      {
        NotifyLibJoinlist(bs[i].group, [], bs[i].entries, REASON_NODEDOWN);
        i := i + 1;
      }
    }

    method NotifyJoined(bs: seq<Batch>)
      modifies this`notices
      ensures State() == old(State()).(notices := old(notices) + JoinNotices(list, bs))
    {
      var i := 0;
      assert JoinNotices(list, bs)[..0] == [];
      while i < |bs|
        invariant 0 <= i <= |bs| && notices == old(notices) + JoinNotices(list, bs)[..i]
        modifies this`notices
      {
        NotifyLibJoinlist(bs[i].group, bs[i].entries, [], REASON_NODEUP);
        i := i + 1;
      }
    }

    /** The process goes into the batch with its key, which is made if there is none. */
    method Collect(bs: seq<Batch>, key: seq<int>, p: Process) returns (r: seq<Batch>)
      requires Overfull(bs) ==> overrun
      modifies this`overrun
      ensures r == AddToBatch(bs, key, p)
      ensures (overrun <==> old(overrun) || Overfull(r)) && (Overfull(bs) ==> Overfull(r))
    {
      var k := 0;
      while k < |bs| && bs[k].key != key
        invariant 0 <= k <= |bs| && forall i :: 0 <= i < k ==> bs[i].key != key
      {
        k := k + 1;
      }
      assert k == FindBatch(bs, key);
      if k < |bs| {
        r := bs[k := bs[k].(entries := bs[k].entries + [MemberOf(p)])];
      } else {
        r := bs + [Batch(key, p.group, [MemberOf(p)])];
      }
      overrun := overrun || |r[k].entries| > CPG_MEMBERS_MAX;
      assert forall i :: 0 <= i < |bs| ==> |bs[i].entries| <= |r[i].entries| && (i != k ==> r[i] == bs[i]);
    }

    /** `downlist_inform_clients`. */
    method DownlistInformClients()
      modifies this
      ensures State() == DownlistInform(old(State()))
    {
      var bs, kept := SplitGone();
      list := kept;
      NotifyLeft(bs);
    }

    /** The processes of nodes that left, in batches, and the others. */
    method SplitGone() returns (bs: seq<Batch>, kept: seq<Process>)
      modifies this`overrun
      ensures kept == NotOfNodes(list, downlist) && bs == BatchOf(OfNodes(list, downlist), map[])
      ensures overrun <==> old(overrun) || Overfull(bs)
    {
      hide AddToBatch, Key;
      bs, kept := [], [];
      var i := 0;
      while i < |list|
        invariant 0 <= i <= |list|
        invariant kept == NotOfNodes(list[..i], downlist) && bs == BatchOf(OfNodes(list[..i], downlist), map[])
        invariant overrun <==> old(overrun) || Overfull(bs)
        modifies this`overrun
      {
        SplitNext(list, i, downlist);
        if list[i].nodeid in downlist {
          bs := Collect(bs, Key(map[], list[i]), list[i]);
        } else {
          kept := kept + [list[i]];
        }
        i := i + 1;
      }
      assert list[..i] == list;
    }

    /** `do_proc_join` for every stored joinlist entry of another node, with the
        notifications put off. */
    method JoinAllStored() returns (bs: seq<Batch>)
      modifies this`list, this`behind, this`overrun
      ensures var (l, joins) := NewJoins(old(list), stored, me);
              && list == l && bs == BatchOf(joins, storedBehind)
              && behind == JoinBehind(old(behind), storedBehind, joins)
      ensures overrun <==> old(overrun) || Overfull(bs)
    {
      bs := [];
      var i := 0;
      while i < |stored|
        invariant 0 <= i <= |stored|
        invariant list == NewJoins(old(list), stored[..i], me).0
        invariant bs == BatchOf(NewJoins(old(list), stored[..i], me).1, storedBehind)
        invariant behind == JoinBehind(old(behind), storedBehind, NewJoins(old(list), stored[..i], me).1)
        invariant overrun <==> old(overrun) || Overfull(bs)
        modifies this`list, this`behind, this`overrun
      {
        JoinsNext(old(list), old(behind), stored, storedBehind, i, me);
        var found := ProcessInfoFind(stored[i]);
        if stored[i].nodeid != me && !found {
          bs := Collect(bs, Key(storedBehind, stored[i]), stored[i]);
          behind := behind[stored[i] := BehindOf(storedBehind, stored[i])];
          InsertSorted(stored[i]);
        }
        i := i + 1;
      }
      assert stored[..i] == stored;
    }

    /** `joinlist_remove_zombie_pi_entries`: the next entry is fetched before the
        current one may be removed. */
    method RemoveZombieEntries()
      modifies this
      ensures State() == RemoveZombies(old(State()), old(list))
    {
      var all := list;
      var i := 0;
      while i < |all|
        invariant 0 <= i <= |all| && State() == RemoveZombies(old(State()), all[..i])
        invariant stored == old(stored)
      {
        ZombiesNext(old(State()), all, i);
        var found := SearchStored(all[i]);
        if all[i].nodeid != me && !found {
          DoProcLeave(all[i], REASON_PROCDOWN);
        }
        i := i + 1;
      }
      assert all[..i] == all;
    }

    method SearchStored(p: Process) returns (found: bool)
      ensures found <==> p in stored
    {
      var i := 0;
      while i < |stored|
        invariant 0 <= i <= |stored| && p !in stored[..i]
      {
        if stored[i] == p {
          return true;
        }
        assert stored[..i + 1] == stored[..i] + [stored[i]];
        i := i + 1;
      }
      assert stored[..i] == stored;
      return false;
    }

    /** `joinlist_inform_clients`. */
    method JoinlistInformClients()
      modifies this
      ensures State() == JoinlistInform(old(State()))
    {
      var bs := JoinAllStored();
      NotifyJoined(bs);
      RemoveZombieEntries();
    }

    /** `cpg_sync_activate`. */
    method Activate()
      modifies this
      ensures State() == SyncActivate(old(State()))
    {
      oldMembers := members;
      DownlistInformClients();
      JoinlistInformClients();
      stored, storedBehind := [], map[];
    }

    /** `cpg_sync_abort`. */
    method AbortSync()
      modifies this
      ensures State() == SyncAbort(old(State()))
    {
      stored, storedBehind := [], map[];
    }
  }

  lemma SplitNext(list: seq<Process>, i: nat, nodes: seq<NodeId>)
    requires i < |list|
    ensures list[i].nodeid in nodes ==>
              && NotOfNodes(list[..i + 1], nodes) == NotOfNodes(list[..i], nodes)
              && BatchOf(OfNodes(list[..i + 1], nodes), map[]) ==
                 AddToBatch(BatchOf(OfNodes(list[..i], nodes), map[]), Key(map[], list[i]), list[i])
    ensures list[i].nodeid !in nodes ==>
              && NotOfNodes(list[..i + 1], nodes) == NotOfNodes(list[..i], nodes) + [list[i]]
              && OfNodes(list[..i + 1], nodes) == OfNodes(list[..i], nodes)
  {
    hide Key;
    assert list[..i + 1][..i] == list[..i];
    var pre := OfNodes(list[..i], nodes);
    assert (pre + [list[i]])[..|pre|] == pre && pre + [] == pre;
    assert NotOfNodes(list[..i], nodes) + [] == NotOfNodes(list[..i], nodes);
  }

  lemma JoinsNext(list: seq<Process>, behind: Behind, stored: seq<Process>, b: Behind, i: nat, me: NodeId)
    requires i < |stored|
    ensures var (l, joins) := NewJoins(list, stored[..i], me);
            var (l', joins') := NewJoins(list, stored[..i + 1], me);
            if stored[i].nodeid == me || stored[i] in l then l' == l && joins' == joins
            else
              && l' == Insert(l, stored[i])
              && BatchOf(joins', b) == AddToBatch(BatchOf(joins, b), Key(b, stored[i]), stored[i])
              && JoinBehind(behind, b, joins') == JoinBehind(behind, b, joins)[stored[i] := BehindOf(b, stored[i])]
  {
    hide Key;
    assert stored[..i + 1][..i] == stored[..i];
    var joins := NewJoins(list, stored[..i], me).1;
    assert (joins + [stored[i]])[..|joins|] == joins;
  }

  lemma ZombiesNext(s: CpgState, all: seq<Process>, i: nat)
    requires i < |all|
    ensures RemoveZombies(s, all[..i + 1]) ==
            if Zombie(s, all[i]) then ProcLeft(RemoveZombies(s, all[..i]), all[i], REASON_PROCDOWN)
            else RemoveZombies(s, all[..i])
  {
    assert all[..i + 1][..i] == all[..i];
  }
}
