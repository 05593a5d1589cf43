/** Why clients are told of a change: the reasons of exec/cpg.c on every path, and the order
    in which an activation reports. */
module CpgReasons {
  import opened Sync
  import opened Cpg
  import opened CpgLists
  import opened CpgChain

  /** A report that processes left, for a reason. */
  ghost predicate Leaves(e: Confchg, reason: int) {
    e.reason == reason && e.joined == [] && e.left != []
  }

  /** A report that processes joined, for a reason. */
  ghost predicate Joins(e: Confchg, reason: int) {
    e.reason == reason && e.left == [] && e.joined != []
  }

  /** A join message is reported as a join (1), and only if the process was not there; a
      leave message as what it says; the other messages are not reported. */
  lemma MessageReasons(s: CpgState, from: NodeId, m: CpgMessage)
    ensures var s' := HandleMessage(s, from, m);
            match m
            case ProcJoin(pid, g, _) =>
              if Process(from, pid, g) in s.list then s'.notices == s.notices
              else
                && |s'.notices| == |s.notices| + 1 && s.notices <= s'.notices
                && var e := s'.notices[|s.notices|];
                   Joins(e, 1) && e.group == g && e.joined == [Member(from, pid)]
            case ProcLeave(pid, g, reason) =>
              && |s'.notices| == |s.notices| + 1 && s.notices <= s'.notices
              && var e := s'.notices[|s.notices|];
                 Leaves(e, reason) && e.group == g && e.left == [Member(from, pid)]
            case _ => s'.notices == s.notices
  {
  }

  lemma {:induction false} ZombieReasons(s: CpgState, list0: seq<Process>)
    ensures var ns := RemoveZombies(s, list0).notices;
            s.notices <= ns && forall i :: |s.notices| <= i < |ns| ==> Leaves(ns[i], 5)
  {
    if list0 != [] {
      ZombieReasons(s, list0[..|list0| - 1]);
    }
  }

  lemma DownReasons(s: CpgState)
    ensures var ns, k := DownlistInform(s).notices, |s.notices|;
            && s.notices <= ns && |ns| == k + |BatchOf(OfNodes(s.list, s.downlist), map[])|
            && forall i :: k <= i < |ns| ==> Leaves(ns[i], 3)
  {
    hide BatchOf, FillMembers, OfNodes, NotOfNodes, Collects;
    var gone := OfNodes(s.list, s.downlist);
    BatchCollects(gone, map[]);
    Nonempty(BatchOf(gone, map[]), gone, map[]);
  }

  lemma JoinReasons(s: CpgState)
    ensures var ns := JoinStored(s).notices;
            s.notices <= ns && forall i :: |s.notices| <= i < |ns| ==> Joins(ns[i], 4)
  {
    hide NewJoins, BatchOf, FillMembers, Collects;
    var joins := NewJoins(s.list, s.stored, s.me).1;
    BatchCollects(joins, s.storedBehind);
    Nonempty(BatchOf(joins, s.storedBehind), joins, s.storedBehind);
  }

  /** What an activation reports: first the processes of nodes that are down (3), then
      those that joined with their nodes (4), then those that are gone (5). */
  lemma ActivateReasons(s: CpgState) returns (down: nat, up: nat)
    ensures var ns, k := SyncActivate(s).notices, |s.notices|;
            && s.notices <= ns && k + down + up <= |ns|
            && down == |BatchOf(OfNodes(s.list, s.downlist), map[])|
            && (forall i :: k <= i < k + down ==> Leaves(ns[i], 3))
            && (forall i :: k + down <= i < k + down + up ==> Joins(ns[i], 4))
            && (forall i :: k + down + up <= i < |ns| ==> Leaves(ns[i], 5))
            && ns[..k + down] == DownlistInform(s).notices
  {
    var s1 := DownlistInform(s.(oldMembers := s.members));
    assert s1.notices == DownlistInform(s).notices by {
      hide BatchOf, OfNodes, NotOfNodes, LeftNotices, Overfull;
    }
    var s2 := JoinStored(s1);
    var s3 := RemoveZombies(s2, s2.list);
    assert SyncActivate(s).notices == s3.notices by {
      hide DownlistInform, JoinStored, RemoveZombies;
    }
    hide DownlistInform, JoinStored, RemoveZombies, SyncActivate, BatchOf, OfNodes, Leaves, Joins;
    DownReasons(s);
    JoinReasons(s1);
    ZombieReasons(s2, s2.list);
    down, up := |BatchOf(OfNodes(s.list, s.downlist), map[])|, |s2.notices| - |s1.notices|;
    forall i | 0 <= i < |s2.notices|
      ensures s3.notices[i] == s2.notices[i]
    {
    }
  }

  /** A process of a node that is down is reported to its group as left, with the reason
      for that (3), before any join of the same activation; provided that the names of
      the groups that lose processes are told apart. */
  lemma DownIsReported(s: CpgState, p: Process) returns (i: nat)
    requires Faithful(OfNodes(s.list, s.downlist), map[])
    requires p in s.list && p.nodeid in s.downlist
    ensures var ns, k := SyncActivate(s).notices, |s.notices|;
            && k <= i < |ns| && Leaves(ns[i], 3) && ns[i].group == p.group && MemberOf(p) in ns[i].left
            && forall j :: k <= j <= i ==> ns[j].joined == []
  {
    hide BatchOf, Key, Leader, Share, Collected, SyncActivate, FillMembers, Collects, Faithful, FindBatch;
    var gone := OfNodes(s.list, s.downlist);
    var bs := BatchOf(gone, map[]);
    BatchCollects(gone, map[]);
    var b := FindBatch(bs, Key(map[], p));
    BatchOfProcess(bs, gone, p);
    var down, up := ActivateReasons(s);
    i := |s.notices| + b;
    var ns := SyncActivate(s).notices;
    assert ns[i] == ns[..|s.notices| + down][i];
  }

  lemma BatchOfProcess(bs: seq<Batch>, ps: seq<Process>, p: Process)
    requires Collects(bs, ps, map[]) && Faithful(ps, map[]) && p in ps
    ensures var b := FindBatch(bs, Key(map[], p));
            b < |bs| && bs[b].group == p.group && MemberOf(p) in bs[b].entries
  {
    hide Key;
    var b := FindBatch(bs, Key(map[], p));
    assert BatchOk(bs[b], ps, map[]);
    assert ps[Leader(ps, map[], bs[b].key)] in ps;
    assert Collected(ps, map[], MemberOf(p), bs[b].key);
  }
}
