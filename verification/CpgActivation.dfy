/** Activation as a whole: what the downlist or the joinlist did not tell rightly is
    never made good by what follows. */
module CpgActivation {
  import opened Sync
  import opened Cpg
  import opened CpgLists
  import opened CpgChain

  /** Clients are wrong about a process of a group. */
  ghost predicate Wrong(s: CpgState, g: Group, m: Member) {
    m in Members(s.list, g) <==> m !in LastMembers(s.notices, g)
  }

  /** A notification was wrong, or clients are still wrong about the process. */
  ghost predicate Spoilt(s: CpgState, g: Group, m: Member) {
    !Chained(s.notices) || Wrong(s, g, m)
  }

  lemma SpoiltIsBroken(s: CpgState, g: Group, m: Member)
    requires Spoilt(s, g, m)
    ensures !ChainInv(s)
  {
    hide LastMembers, FillMembers;
    assert Wrong(s, g, m) ==> Members(s.list, g) != LastMembers(s.notices, g);
  }

  lemma ChainedBefore(ns: seq<Confchg>, more: seq<Confchg>)
    requires Chained(ns + more)
    ensures Chained(ns)
  {
    hide LastMembers, NoticeOk;
    var all := ns + more;
    forall i | 0 <= i < |ns|
      ensures NoticeOk(LastMembers(ns[..i], ns[i].group), ns[i])
    {
      assert all[i] == ns[i] && all[..i] == ns[..i];
    }
  }

  // ---- zombies ----

  lemma LeaveSpoilt(s: CpgState, z: Process, reason: int, g: Group, m: Member)
    requires Spoilt(s, g, m) && z != Process(m.nodeid, m.pid, g)
    ensures Spoilt(ProcLeft(s, z, reason), g, m)
  {
    hide LastMembers, FillMembers;
    var s' := ProcLeft(s, z, reason);
    var e := Notify(s.list, z.group, [], [MemberOf(z)], reason);
    if Chained(s'.notices) {
      ChainedBefore(s.notices, [e]);
      NoticeAt(s.notices, [e], 0);
      assert s.notices + [e][..0] == s.notices;
      LastSnoc(s.notices, e, g);
      MembersElements(s.list, g, m);
      MembersElements(s'.list, g, m);
      FillMembersElements(s.list, z.group, [MemberOf(z)], m);
    }
  }

  lemma {:induction false} ZombiesSpoilt(s: CpgState, list0: seq<Process>, g: Group, m: Member)
    requires Spoilt(s, g, m)
    requires var p := Process(m.nodeid, m.pid, g); p in list0 ==> !Zombie(s, p)
    ensures Spoilt(RemoveZombies(s, list0), g, m)
  {
    hide Spoilt, ProcLeft;
    if list0 != [] {
      var k := |list0| - 1;
      ZombiesSpoilt(s, list0[..k], g, m);
      if Zombie(s, list0[k]) {
        LeaveSpoilt(RemoveZombies(s, list0[..k]), list0[k], REASON_PROCDOWN, g, m);
      }
    }
  }

  // ---- joins that are not told ----

  lemma JoinlistSpoils(s: CpgState)
    requires ChainInv(s) && !Sound(NewJoins(s.list, s.stored, s.me).1, s.storedBehind)
    ensures !ChainInv(JoinlistInform(s))
  {
    hide NewJoins, BatchOf, LastMembers, Collects, Sound, Tells, Spoilt, RemoveZombies, FillMembers;
    var (l, joins) := NewJoins(s.list, s.stored, s.me);
    var bs := BatchOf(joins, s.storedBehind);
    var s1 := JoinStored(s);
    NewJoinsElements(s.list, s.stored, s.me);
    BatchCollects(joins, s.storedBehind);
    SoundTells(bs, joins, s.storedBehind);
    Nonempty(bs, joins, s.storedBehind);
    if forall p :: p in joins ==> HasBatch(bs, p.group) {
      if Chained(s1.notices) {
        ChainedTells(s, l, joins, bs);
        assert false;
      }
      Stays(s1, [], Member(s.me, 0), s.me);
    } else {
      var p :| p in joins && !HasBatch(bs, p.group);
      JoinMissed(s, l, joins, bs, JoinNotices(l, bs), p);
      SpoiltBy(s1, p.group, MemberOf(p));
      ZombiesSpoilt(s1, l, p.group, MemberOf(p));
      SpoiltIsBroken(JoinlistInform(s), p.group, MemberOf(p));
    }
  }

  lemma SpoiltBy(s: CpgState, g: Group, m: Member)
    requires Wrong(s, g, m) || !Chained(s.notices)
    ensures Spoilt(s, g, m)
  {
  }

  /** A wrong notification stays wrong. */
  lemma Stays(s: CpgState, g: Group, m: Member, me: NodeId)
    requires !Chained(s.notices) && s.me == m.nodeid == me
    ensures !ChainInv(RemoveZombies(s, s.list))
  {
    hide LastMembers, FillMembers, RemoveZombies, Chained;
    SpoiltBy(s, g, m);
    ZombiesSpoilt(s, s.list, g, m);
    SpoiltIsBroken(RemoveZombies(s, s.list), g, m);
  }

  // ---- leaves that are not told ----

  /** A process that clients believe to be a member, of a node none of whose processes is
      in the list: the joins do not set this right. */
  lemma JoinsSpoilt(s: CpgState, p: Process)
    requires ListOk(s.list) && OneGroupEach(NewJoins(s.list, s.stored, s.me).1)
    requires forall q :: q in s.list ==> q.nodeid != p.nodeid
    requires MemberOf(p) in LastMembers(s.notices, p.group)
    ensures Spoilt(JoinStored(s), p.group, MemberOf(p))
    ensures Chained(JoinStored(s).notices) ==> p !in JoinStored(s).list
  {
    hide NewJoins, BatchOf, LastMembers, Collects, FillMembers, NoticeOk;
    var (l, joins) := NewJoins(s.list, s.stored, s.me);
    var bs := BatchOf(joins, s.storedBehind);
    var more := JoinNotices(l, bs);
    NewJoinsElements(s.list, s.stored, s.me);
    BatchCollects(joins, s.storedBehind);
    if Chained(s.notices + more) {
      assert p !in joins by {
        if p in joins {
          JoinedAgain(s, l, joins, bs, p);
        }
      }
      MembersElements(l, p.group, MemberOf(p));
      NotToldGone(s, l, bs, |bs|, p);
      assert more[..|bs|] == more;
    }
  }

  /** Nobody can be told of such a process that it has joined. */
  lemma JoinedAgain(s: CpgState, l: seq<Process>, joins: seq<Process>, bs: seq<Batch>, p: Process)
    requires forall x :: x in l <==> x in s.list || x in joins
    requires Collects(bs, joins, s.storedBehind) && OneGroupEach(joins) && p in joins
    requires forall q :: q in s.list ==> q.nodeid != p.nodeid
    requires MemberOf(p) in LastMembers(s.notices, p.group)
    ensures !Chained(s.notices + JoinNotices(l, bs))
  {
    hide LastMembers, FillMembers, Key, BatchOk;
    var more := JoinNotices(l, bs);
    var m := MemberOf(p);
    var k := FindBatch(bs, Key(s.storedBehind, p));
    BatchFor(bs, joins, s.storedBehind, p);
    assert Collected(joins, s.storedBehind, m, Key(s.storedBehind, p));
    assert m in more[k].joined;
    if Chained(s.notices + more) {
      NoticeAt(s.notices, more, k);
      var q := Process(m.nodeid, m.pid, bs[k].group);
      MembersElements(l, bs[k].group, m);
      assert q in joins && q == p;
      StillMember(s.notices, l, bs, k, p);
    }
  }

  /** In the notifications of the joins a member stays one. */
  lemma {:induction false} StillMember(ns: seq<Confchg>, l: seq<Process>, bs: seq<Batch>, k: nat, p: Process)
    requires k <= |bs| && p in l && MemberOf(p) in LastMembers(ns, p.group)
    ensures MemberOf(p) in LastMembers(ns + JoinNotices(l, bs)[..k], p.group)
    decreases k
  {
    hide LastMembers, FillMembers;
    var more := JoinNotices(l, bs);
    if k == 0 {
      assert ns + more[..0] == ns;
    } else {
      StillMember(ns, l, bs, k - 1, p);
      assert ns + more[..k] == (ns + more[..k - 1]) + [more[k - 1]];
      LastSnoc(ns + more[..k - 1], more[k - 1], p.group);
      MembersElements(l, p.group, MemberOf(p));
    }
  }

  /** And one that is not told to be gone is still believed to be a member. */
  lemma {:induction false} NotToldGone(s: CpgState, l: seq<Process>, bs: seq<Batch>, k: nat, p: Process)
    requires k <= |bs| && p !in l && MemberOf(p) in LastMembers(s.notices, p.group)
    requires Chained(s.notices + JoinNotices(l, bs))
    ensures MemberOf(p) in LastMembers(s.notices + JoinNotices(l, bs)[..k], p.group)
    decreases k
  {
    hide LastMembers, FillMembers, Chained;
    var ns, more := s.notices, JoinNotices(l, bs);
    if k == 0 {
      assert ns + more[..0] == ns;
    } else {
      NotToldGone(s, l, bs, k - 1, p);
      assert ns + more[..k] == (ns + more[..k - 1]) + [more[k - 1]];
      LastSnoc(ns + more[..k - 1], more[k - 1], p.group);
      NoticeAt(ns, more, k - 1);
    }
  }

  lemma DownlistSpoils(s: CpgState)
    requires ChainInv(s) && !Faithful(OfNodes(s.list, s.downlist), map[])
    requires var s1 := DownlistInform(s);
             OneGroupEach(NewJoins(s1.list, s1.stored, s1.me).1)
    ensures !ChainInv(JoinlistInform(DownlistInform(s)))
  {
    hide BatchOf, Faithful, NewJoins, LastMembers, FillMembers, Collects, Spoilt, JoinStored, RemoveZombies,
         DownlistInform;
    var gone := OfNodes(s.list, s.downlist);
    BatchCollects(gone, map[]);
    FaithfulBatches(BatchOf(gone, map[]), gone);
    var p :| p in gone && !HasBatch(BatchOf(gone, map[]), p.group);
    var s1 := DownlistInform(s);
    DownlistMissed(s, p);
    DownlistLeaves(s, p);
    JoinsSpoilt(s1, p);
    var s2 := JoinStored(s1);
    if Chained(s2.notices) {
      ZombiesSpoilt(s2, s2.list, p.group, MemberOf(p));
      SpoiltIsBroken(JoinlistInform(s1), p.group, MemberOf(p));
    } else {
      Stays(s2, [], Member(s2.me, 0), s2.me);
    }
  }

  lemma DownlistLeaves(s: CpgState, p: Process)
    requires ListOk(s.list) && p in OfNodes(s.list, s.downlist)
    ensures ListOk(DownlistInform(s).list)
    ensures forall q :: q in DownlistInform(s).list ==> q.nodeid != p.nodeid
  {
    NotOfNodesOk(s.list, s.downlist);
  }

  /** Activation continues the chain of notifications exactly if both the downlist and
      the joinlist do, provided that no process id joins two groups at once. */
  lemma ActivateExactly(s: CpgState)
    requires ChainInv(s)
    requires var s1 := DownlistInform(s.(oldMembers := s.members));
             OneGroupEach(NewJoins(s1.list, s1.stored, s1.me).1)
    ensures var s1 := DownlistInform(s.(oldMembers := s.members));
            ChainInv(SyncActivate(s)) <==>
            && Faithful(OfNodes(s.list, s.downlist), map[])
            && Faithful(NewJoins(s1.list, s1.stored, s1.me).1, s1.storedBehind)
  {
    hide Faithful, Sound, NewJoins, LastMembers, FillMembers, OneGroupEach, DownlistInform, JoinlistInform;
    var s0 := s.(oldMembers := s.members);
    var s1 := DownlistInform(s0);
    var joins := NewJoins(s1.list, s1.stored, s1.me).1;
    FaithfulSound(joins, s1.storedBehind);
    assert ChainInv(SyncActivate(s)) <==> ChainInv(JoinlistInform(s1));
    if Faithful(OfNodes(s.list, s.downlist), map[]) {
      if Faithful(joins, s1.storedBehind) {
        ActivateChain(s);
      } else {
        DownlistChain(s0);
        JoinlistSpoils(s1);
      }
    } else {
      DownlistSpoils(s0);
    }
  }

  /** With a downlist that tells the groups apart, activation continues the chain exactly
      if the batches of the joinlist tell the groups what they gain. */
  lemma ActivateSoundly(s: CpgState)
    requires ChainInv(s) && Faithful(OfNodes(s.list, s.downlist), map[])
    ensures var s1 := DownlistInform(s.(oldMembers := s.members));
            ChainInv(SyncActivate(s)) <==> Sound(NewJoins(s1.list, s1.stored, s1.me).1, s1.storedBehind)
  {
    hide Faithful, Sound, NewJoins, LastMembers, FillMembers, DownlistInform, JoinlistInform;
    var s0 := s.(oldMembers := s.members);
    var s1 := DownlistInform(s0);
    assert ChainInv(SyncActivate(s)) <==> ChainInv(JoinlistInform(s1));
    if Sound(NewJoins(s1.list, s1.stored, s1.me).1, s1.storedBehind) {
      ActivateChain(s);
    } else {
      DownlistChain(s0);
      JoinlistSpoils(s1);
    }
  }

  // ---- a process id in two groups ----

  const FIRST_NAME: Group := [97, 0, 98]
  const OTHER_NAME: Group := [97, 0, 99]
  const IN_FIRST := Process(2, 7, FIRST_NAME)
  const IN_OTHER := Process(2, 7, OTHER_NAME)

  /** The process 7 of node 2 is in both groups; the node is gone and back, and its
      joinlist has arrived. */
  function BackAgain(): CpgState {
    var s := ProcJoined(ProcJoined(InitialState(1), IN_FIRST, [0]), IN_OTHER, [0]);
    s.(downlist := [2], stored := [IN_FIRST, IN_OTHER], storedBehind := map[IN_FIRST := [0], IN_OTHER := [0]])
  }

  lemma BothKeys()
    ensures Key(map[], IN_FIRST) == Key(map[], IN_OTHER) == [97]
    ensures var b := BackAgain().storedBehind; Key(b, IN_FIRST) == Key(b, IN_OTHER) == [97]
    ensures IN_FIRST != IN_OTHER
  {
    var b := BackAgain().storedBehind;
    CStringUpTo([97], [98]);
    CStringUpTo([97], [99]);
    CStringUpTo([97], [98, 0]);
    CStringUpTo([97], [99, 0]);
    assert FIRST_NAME + [] == [97] + [0] + [98] && OTHER_NAME + [] == [97] + [0] + [99];
    assert FIRST_NAME + [0] == [97] + [0] + [98, 0] && OTHER_NAME + [0] == [97] + [0] + [99, 0];
    assert FIRST_NAME[2] != OTHER_NAME[2];
  }

  lemma BackAgainStart()
    ensures ChainInv(BackAgain()) && BackAgain().list == [IN_FIRST, IN_OTHER] && BackAgain().me == 1
    ensures OfNodes(BackAgain().list, [2]) == [IN_FIRST, IN_OTHER] && NotOfNodes(BackAgain().list, [2]) == []
  {
    BothKeys();
    NothingTold(InitialState(1));
    JoinChain(InitialState(1), IN_FIRST, [0]);
    var s1 := ProcJoined(InitialState(1), IN_FIRST, [0]);
    assert s1.list == [IN_FIRST];
    JoinChain(s1, IN_OTHER, [0]);
    assert InsertPos([IN_FIRST], IN_OTHER) == 1;
    var l := [IN_FIRST, IN_OTHER];
    assert BackAgain().list == l;
    assert l[..1] == [IN_FIRST] && [IN_FIRST][..0] == [];
  }

  lemma BothInOneBatch(b: Behind)
    requires Key(b, IN_FIRST) == Key(b, IN_OTHER) == [97]
    ensures BatchOf([IN_FIRST, IN_OTHER], b) == [Batch([97], FIRST_NAME, [Member(2, 7), Member(2, 7)])]
  {
    hide Key;
    var l := [IN_FIRST, IN_OTHER];
    assert l[..1] == [IN_FIRST] && [IN_FIRST][..0] == [];
    var one := Batch([97], FIRST_NAME, [Member(2, 7)]);
    assert BatchOf([], b) == [] && [] + [one] == [one];
    assert BatchOf([IN_FIRST], b) == [one];
    assert FindBatch([one], [97]) == 0;
    assert one.entries + [Member(2, 7)] == [Member(2, 7), Member(2, 7)];
    assert l[1] == IN_OTHER && BatchOf(l, b) == AddToBatch([one], [97], IN_OTHER);
  }

  lemma BothJoin()
    ensures NewJoins([], [IN_FIRST, IN_OTHER], 1) == ([IN_FIRST, IN_OTHER], [IN_FIRST, IN_OTHER])
  {
    BothKeys();
    var l := [IN_FIRST, IN_OTHER];
    assert l[..1] == [IN_FIRST] && [IN_FIRST][..0] == [];
    assert Insert([], IN_FIRST) == [IN_FIRST] && [] + [IN_FIRST] == [IN_FIRST];
    assert NewJoins([], [], 1) == ([], []);
    assert NewJoins([], [IN_FIRST], 1) == ([IN_FIRST], [IN_FIRST]);
    assert InsertPos([IN_FIRST], IN_OTHER) == 1 && Insert([IN_FIRST], IN_OTHER) == l;
    assert [IN_FIRST] + [IN_OTHER] == l && l[1] == IN_OTHER;
  }

  /** What `ActivateExactly` assumes is needed: here neither the downlist nor the joinlist
      tells the groups apart, and yet all is well in the end. The second group is told
      nothing, neither that the process left nor that it came back. */
  lemma ComesBackUnnoticed()
    ensures var s := BackAgain();
            && ChainInv(s) && !Faithful(OfNodes(s.list, s.downlist), map[])
            && ChainInv(SyncActivate(s))
  {
    hide Key, BatchOf, NewJoins, FillMembers, LastMembers, RemoveZombies, ProcJoined, OfNodes, NotOfNodes;
    var s := BackAgain();
    BothKeys();
    BackAgainStart();
    var gone := OfNodes(s.list, s.downlist);
    assert gone[0] == IN_FIRST && gone[1] == IN_OTHER;
    var s1 := DownlistInform(s.(oldMembers := s.members));
    BothInOneBatch(map[]);
    var left := Notify([], FIRST_NAME, [], [Member(2, 7), Member(2, 7)], REASON_NODEDOWN);
    assert s1.notices == s.notices + [left] && s1.list == [];
    BothInOneBatch(s.storedBehind);
    BothJoin();
    var s2 := JoinStored(s1);
    var back := Notify(s2.list, FIRST_NAME, [Member(2, 7), Member(2, 7)], [], REASON_NODEUP);
    assert s2.notices == s1.notices + [back] && s2.list == s.list;
    LeftAndBack(s, s1, s2, left, back);
    ZombieChain(s2, s2.list);
  }

  lemma LeftAndBack(s: CpgState, s1: CpgState, s2: CpgState, left: Confchg, back: Confchg)
    requires ChainInv(s) && s.list == [IN_FIRST, IN_OTHER] == s2.list && s1.list == []
    requires left == Notify([], FIRST_NAME, [], [Member(2, 7), Member(2, 7)], REASON_NODEDOWN)
    requires back == Notify(s2.list, FIRST_NAME, [Member(2, 7), Member(2, 7)], [], REASON_NODEUP)
    requires s1.notices == s.notices + [left] && s2.notices == s1.notices + [back]
    ensures ChainInv(s2)
  {
    hide FillMembers, LastMembers;
    var m := Member(2, 7);
    assert s.list[0] == IN_FIRST;
    forall x
      ensures x in Members(s.list, FIRST_NAME) <==> x == m
      ensures x !in left.members
      ensures x in back.members <==> x == m
    {
      MembersElements(s.list, FIRST_NAME, x);
      FillMembersElements([], FIRST_NAME, left.left, x);
    }
    ChainedSnoc(s.notices, left);
    LastSnoc(s.notices, left, FIRST_NAME);
    ChainedSnoc(s1.notices, back);
    forall g
      ensures Members(s2.list, g) == LastMembers(s2.notices, g)
    {
      LastSnoc(s.notices, left, g);
      LastSnoc(s1.notices, back, g);
    }
  }
}
