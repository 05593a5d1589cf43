/** Every configuration change a node reports for a group is the previous membership
    minus those who left plus those who joined, on the join, leave, downlist and
    joinlist paths; and exactly when the batched paths can break this. */
module CpgChain {
  import opened Sync
  import opened Cpg
  import opened CpgLists

  /** The membership of a group that was reported last. */
  function LastMembers(ns: seq<Confchg>, g: Group): seq<Member> {
    if ns == [] then []
    else if ns[|ns| - 1].group == g then ns[|ns| - 1].members
    else LastMembers(ns[..|ns| - 1], g)
  }

  /** The members are those before without those who left and with those who joined,
      and who joined was no member before. */
  ghost predicate NoticeOk(prev: seq<Member>, e: Confchg) {
    && (forall m :: m in e.members <==> (m in prev && m !in e.left) || m in e.joined)
    && (forall m :: m in e.joined ==> m !in prev)
  }

  ghost predicate Chained(ns: seq<Confchg>) {
    forall i :: 0 <= i < |ns| ==> NoticeOk(LastMembers(ns[..i], ns[i].group), ns[i])
  }

  /** Clients have been told the current membership of every group. */
  ghost predicate UpToDate(s: CpgState) {
    forall g :: Members(s.list, g) == LastMembers(s.notices, g)
  }

  /** The notifications are right so far. (Once a batch had more entries than its array,
      this says nothing about the program: `overrun`.) */
  ghost predicate ChainInv(s: CpgState) {
    ListOk(s.list) && Chained(s.notices) && UpToDate(s)
  }

  lemma LastSnoc(ns: seq<Confchg>, e: Confchg, g: Group)
    ensures LastMembers(ns + [e], g) == if e.group == g then e.members else LastMembers(ns, g)
  {
    assert (ns + [e])[..|ns + [e]| - 1] == ns;
  }

  lemma ChainedSnoc(ns: seq<Confchg>, e: Confchg)
    requires Chained(ns) && NoticeOk(LastMembers(ns, e.group), e)
    ensures Chained(ns + [e])
  {
    var all := ns + [e];
    forall i | 0 <= i < |all|
      ensures NoticeOk(LastMembers(all[..i], all[i].group), all[i])
    {
      assert all[..i] == ns[..i];
      assert ns[..|ns|] == ns;
    }
  }

  // ---- single joins and leaves ----

  lemma JoinChain(s: CpgState, p: Process, behind: seq<int>)
    requires ChainInv(s)
    ensures ChainInv(ProcJoined(s, p, behind))
  {
    if p !in s.list {
      var list := Insert(s.list, p);
      var e := Notify(list, p.group, [MemberOf(p)], [], REASON_JOIN);
      InsertOk(s.list, p);
      InsertElements(s.list, p);
      forall m
        ensures m in e.members <==> m in Members(s.list, p.group) || m == MemberOf(p)
        ensures MemberOf(p) !in Members(s.list, p.group)
      {
        MembersElements(s.list, p.group, MemberOf(p));
        MembersElements(list, p.group, m);
        MembersElements(s.list, p.group, m);
      }
      ChainedSnoc(s.notices, e);
      forall g
        ensures Members(list, g) == LastMembers(s.notices + [e], g)
      {
        LastSnoc(s.notices, e, g);
        if g != p.group {
          InsertMembers(s.list, p, g);
        }
      }
    }
  }

  lemma LeaveChain(s: CpgState, p: Process, reason: int)
    requires ChainInv(s)
    ensures ChainInv(ProcLeft(s, p, reason))
  {
    var list := Remove(s.list, p);
    var e := Notify(s.list, p.group, [], [MemberOf(p)], reason);
    RemoveOk(s.list, p);
    forall m
      ensures m in e.members <==> m in Members(s.list, p.group) && m !in e.left
    {
      FillMembersElements(s.list, p.group, e.left, m);
      MembersElements(s.list, p.group, m);
    }
    ChainedSnoc(s.notices, e);
    forall g
      ensures Members(list, g) == LastMembers(s.notices + [e], g)
    {
      LastSnoc(s.notices, e, g);
      RemoveMembers(s.list, p, g);
    }
  }

  // ---- batches ----

  /** Lookup keys that stand for the groups. */
  ghost predicate Faithful(ps: seq<Process>, b: Behind) {
    forall p, q :: p in ps && q in ps ==> (Key(b, p) == Key(b, q) <==> p.group == q.group)
  }

  /** The first process with a key gives the batch its group. */
  function Leader(ps: seq<Process>, b: Behind, key: seq<int>): (k: nat)
    ensures k <= |ps|
    ensures k < |ps| ==> Key(b, ps[k]) == key
    ensures forall i :: 0 <= i < k ==> Key(b, ps[i]) != key
  {
    if ps == [] || Key(b, ps[0]) == key then 0 else 1 + Leader(ps[1..], b, key)
  }

  /** How many processes have a key. */
  function Share(ps: seq<Process>, b: Behind, key: seq<int>): nat {
    if ps == [] then 0
    else Share(ps[..|ps| - 1], b, key) + if Key(b, ps[|ps| - 1]) == key then 1 else 0
  }

  /** No key has more processes than an array has entries. */
  ghost predicate Fits(ps: seq<Process>, b: Behind) {
    forall p :: p in ps ==> Share(ps, b, Key(b, p)) <= 128
  }

  ghost predicate Collected(ps: seq<Process>, b: Behind, m: Member, key: seq<int>) {
    exists p :: p in ps && MemberOf(p) == m && Key(b, p) == key
  }

  ghost predicate DistinctKeys(bs: seq<Batch>) {
    forall i, j :: 0 <= i < j < |bs| ==> bs[i].key != bs[j].key
  }

  /** A batch is that of its key: named after the first process, with all of them. */
  ghost predicate BatchOk(x: Batch, ps: seq<Process>, b: Behind) {
    && Leader(ps, b, x.key) < |ps|
    && ps[Leader(ps, b, x.key)].group == x.group
    && |x.entries| == Share(ps, b, x.key)
    && (forall m :: m in x.entries <==> Collected(ps, b, m, x.key))
  }

  /** What a list of batches collects of the processes `ps`. */
  ghost predicate Collects(bs: seq<Batch>, ps: seq<Process>, b: Behind) {
    && DistinctKeys(bs)
    && (forall p :: p in ps ==> FindBatch(bs, Key(b, p)) < |bs|)
    && (forall i :: 0 <= i < |bs| ==> BatchOk(bs[i], ps, b))
  }

  lemma FindUnique(bs: seq<Batch>, i: nat)
    requires DistinctKeys(bs) && i < |bs|
    ensures FindBatch(bs, bs[i].key) == i
  {
    assert FindBatch(bs, bs[i].key) <= i;
  }

  lemma CollectedSnoc(ps: seq<Process>, b: Behind, p: Process, m: Member, key: seq<int>)
    ensures Collected(ps + [p], b, m, key) <==> Collected(ps, b, m, key) || (MemberOf(p) == m && Key(b, p) == key)
  {
    var all := ps + [p];
    if Collected(ps, b, m, key) {
      var q :| q in ps && MemberOf(q) == m && Key(b, q) == key;
      assert q in all;
    }
    if MemberOf(p) == m && Key(b, p) == key {
      assert p in all;
    }
    if Collected(all, b, m, key) {
      var q :| q in all && MemberOf(q) == m && Key(b, q) == key;
      assert q in ps || q == p;
    }
  }

  lemma LeaderSnoc(ps: seq<Process>, b: Behind, p: Process, key: seq<int>)
    ensures var k := Leader(ps, b, key);
            Leader(ps + [p], b, key) == if k < |ps| then k else if Key(b, p) == key then |ps| else |ps| + 1
  {
    var all, k := ps + [p], Leader(ps, b, key);
    var k' := Leader(all, b, key);
    assert forall i :: 0 <= i < |ps| ==> all[i] == ps[i];
    assert all[|ps|] == p;
  }

  lemma ShareSnoc(ps: seq<Process>, b: Behind, p: Process, key: seq<int>)
    ensures Share(ps + [p], b, key) == Share(ps, b, key) + if Key(b, p) == key then 1 else 0
  {
    assert (ps + [p])[..|ps|] == ps;
  }

  lemma {:induction false} ShareNone(ps: seq<Process>, b: Behind, key: seq<int>)
    requires Leader(ps, b, key) == |ps|
    ensures Share(ps, b, key) == 0
  {
    if ps != [] {
      var k := |ps| - 1;
      assert ps == ps[..k] + [ps[k]];
      LeaderSnoc(ps[..k], b, ps[k], key);
      ShareNone(ps[..k], b, key);
    }
  }

  /** The batches are those of the keys, whatever the processes and their buffers. */
  lemma {:induction false} BatchCollects(ps: seq<Process>, b: Behind)
    ensures Collects(BatchOf(ps, b), ps, b)
  {
    hide Collects, AddToBatch;
    if ps == [] {
      NothingCollects(b);
    } else {
      var k := |ps| - 1;
      BatchCollects(ps[..k], b);
      AddCollects(BatchOf(ps[..k], b), ps[..k], b, ps[k]);
      assert ps == ps[..k] + [ps[k]];
    }
  }

  lemma NothingCollects(b: Behind)
    ensures Collects([], [], b)
  {
  }

  lemma AddCollects(bs: seq<Batch>, ps: seq<Process>, b: Behind, p: Process)
    requires Collects(bs, ps, b)
    ensures Collects(AddToBatch(bs, Key(b, p), p), ps + [p], b)
  {
    hide BatchOk, Key;
    var all := ps + [p];
    var r := AddToBatch(bs, Key(b, p), p);
    AddKeys(bs, Key(b, p), p);
    forall q | q in all
      ensures FindBatch(r, Key(b, q)) < |r|
    {
      AddFinds(bs, ps, b, p, q);
    }
    forall i | 0 <= i < |r|
      ensures BatchOk(r[i], all, b)
    {
      if i == FindBatch(bs, Key(b, p)) {
        if i < |bs| {
          JoinsBatch(bs[i], ps, b, p);
        } else {
          NewBatch(bs, ps, b, p);
        }
      } else {
        OtherBatch(bs, ps, b, p, i);
      }
    }
  }

  lemma AddKeys(bs: seq<Batch>, key: seq<int>, p: Process)
    requires DistinctKeys(bs)
    ensures DistinctKeys(AddToBatch(bs, key, p))
  {
  }

  lemma AddFinds(bs: seq<Batch>, ps: seq<Process>, b: Behind, p: Process, q: Process)
    requires Collects(bs, ps, b) && (q in ps || q == p)
    ensures var r := AddToBatch(bs, Key(b, p), p);
            FindBatch(r, Key(b, q)) < |r|
  {
    hide BatchOk, Key;
    var r := AddToBatch(bs, Key(b, p), p);
    var i := if q in ps then FindBatch(bs, Key(b, q)) else FindBatch(bs, Key(b, p));
    assert r[i].key == Key(b, q);
  }

  lemma JoinsBatch(x: Batch, ps: seq<Process>, b: Behind, p: Process)
    requires BatchOk(x, ps, b) && x.key == Key(b, p)
    ensures BatchOk(x.(entries := x.entries + [MemberOf(p)]), ps + [p], b)
  {
    hide Collected, Key, Leader, Share;
    LeaderSnoc(ps, b, p, x.key);
    ShareSnoc(ps, b, p, x.key);
    forall m {
      CollectedSnoc(ps, b, p, m, x.key);
    }
  }

  lemma NewBatch(bs: seq<Batch>, ps: seq<Process>, b: Behind, p: Process)
    requires Collects(bs, ps, b) && FindBatch(bs, Key(b, p)) == |bs|
    ensures BatchOk(Batch(Key(b, p), p.group, [MemberOf(p)]), ps + [p], b)
  {
    var key := Key(b, p);
    forall q | q in ps
      ensures Key(b, q) != key
    {
      assert bs[FindBatch(bs, Key(b, q))].key == Key(b, q);
    }
    LeaderSnoc(ps, b, p, key);
    ShareSnoc(ps, b, p, key);
    ShareNone(ps, b, key);
    forall m
      ensures m in [MemberOf(p)] <==> Collected(ps + [p], b, m, key)
    {
      CollectedSnoc(ps, b, p, m, key);
    }
  }

  lemma OtherBatch(bs: seq<Batch>, ps: seq<Process>, b: Behind, p: Process, i: nat)
    requires Collects(bs, ps, b) && i < |AddToBatch(bs, Key(b, p), p)| && i != FindBatch(bs, Key(b, p))
    ensures BatchOk(AddToBatch(bs, Key(b, p), p)[i], ps + [p], b)
  {
    hide Collected, Key, Leader, Share;
    var x := AddToBatch(bs, Key(b, p), p)[i];
    assert x == bs[i];
    assert x.key != Key(b, p) by {
      FindUnique(bs, i);
    }
    LeaderSnoc(ps, b, p, x.key);
    ShareSnoc(ps, b, p, x.key);
    forall m
      ensures m in x.entries <==> Collected(ps + [p], b, m, x.key)
    {
      CollectedSnoc(ps, b, p, m, x.key);
    }
  }

  /** The batch of a group, if the group gets one. */
  ghost predicate HasBatch(bs: seq<Batch>, g: Group) {
    exists i :: 0 <= i < |bs| && bs[i].group == g
  }

  /** No array is written past its end exactly if no key has too many processes. */
  lemma FitsExactly(ps: seq<Process>, b: Behind)
    ensures Overfull(BatchOf(ps, b)) <==> !Fits(ps, b)
  {
    hide Key, Leader, Share, BatchOf;
    var bs := BatchOf(ps, b);
    BatchCollects(ps, b);
    if Overfull(bs) {
      var i :| 0 <= i < |bs| && |bs[i].entries| > CPG_MEMBERS_MAX;
      assert BatchOk(bs[i], ps, b);
      var p := ps[Leader(ps, b, bs[i].key)];
      assert p in ps && Key(b, p) == bs[i].key;
    }
    if !Fits(ps, b) {
      var p :| p in ps && Share(ps, b, Key(b, p)) > CPG_MEMBERS_MAX;
      var i := FindBatch(bs, Key(b, p));
      assert BatchOk(bs[i], ps, b);
    }
  }

  /** Terminated names: every group concerned gets its own batch exactly if the keys
      stand for the groups. */
  lemma FaithfulBatches(bs: seq<Batch>, ps: seq<Process>)
    requires Collects(bs, ps, map[])
    ensures Faithful(ps, map[]) <==> forall p :: p in ps ==> HasBatch(bs, p.group)
  {
    if Faithful(ps, map[]) {
      forall p | p in ps
        ensures HasBatch(bs, p.group)
      {
        var i := FindBatch(bs, Key(map[], p));
        assert BatchOk(bs[i], ps, map[]);
        assert bs[i].group == p.group;
      }
    }
    if forall p :: p in ps ==> HasBatch(bs, p.group) {
      forall p, q | p in ps && q in ps
        ensures Key(map[], p) == Key(map[], q) <==> p.group == q.group
      {
        TerminatedKey(p);
        TerminatedKey(q);
        var i :| 0 <= i < |bs| && bs[i].group == p.group;
        var j :| 0 <= j < |bs| && bs[j].group == q.group;
        BatchKey(bs, ps, i);
        BatchKey(bs, ps, j);
      }
    }
  }

  lemma TerminatedKey(p: Process)
    ensures Key(map[], p) == CString(p.group)
  {
    assert p.group + [] == p.group;
  }

  lemma BatchKey(bs: seq<Batch>, ps: seq<Process>, i: nat)
    requires Collects(bs, ps, map[]) && i < |bs|
    ensures bs[i].key == CString(bs[i].group)
  {
    assert BatchOk(bs[i], ps, map[]);
    TerminatedKey(ps[Leader(ps, map[], bs[i].key)]);
  }

  // ---- sending a list of notifications for different groups ----

  ghost predicate DistinctGroups(ns: seq<Confchg>) {
    forall i, j :: 0 <= i < j < |ns| ==> ns[i].group != ns[j].group
  }

  lemma {:induction false} LastOfOthers(ns: seq<Confchg>, more: seq<Confchg>, g: Group)
    requires forall i :: 0 <= i < |more| ==> more[i].group != g
    ensures LastMembers(ns + more, g) == LastMembers(ns, g)
    decreases |more|
  {
    if more == [] {
      assert ns + more == ns;
    } else {
      var k := |more| - 1;
      assert ns + more == (ns + more[..k]) + [more[k]];
      LastSnoc(ns + more[..k], more[k], g);
      LastOfOthers(ns, more[..k], g);
    }
  }

  lemma {:induction false} LastOfBatch(ns: seq<Confchg>, more: seq<Confchg>, i: nat)
    requires DistinctGroups(more) && i < |more|
    ensures LastMembers(ns + more, more[i].group) == more[i].members
  {
    assert ns + more == (ns + more[..i + 1]) + more[i + 1..];
    LastOfOthers(ns + more[..i + 1], more[i + 1..], more[i].group);
    assert ns + more[..i + 1] == (ns + more[..i]) + [more[i]];
    LastSnoc(ns + more[..i], more[i], more[i].group);
  }

  lemma {:induction false} ChainedAppend(ns: seq<Confchg>, more: seq<Confchg>)
    requires Chained(ns) && DistinctGroups(more)
    requires forall i :: 0 <= i < |more| ==> NoticeOk(LastMembers(ns, more[i].group), more[i])
    ensures Chained(ns + more)
    decreases |more|
  {
    if more == [] {
      assert ns + more == ns;
    } else {
      var k := |more| - 1;
      ChainedAppend(ns, more[..k]);
      LastOfOthers(ns, more[..k], more[k].group);
      ChainedSnoc(ns + more[..k], more[k]);
      assert ns + more == (ns + more[..k]) + [more[k]];
    }
  }

  // ---- the downlist ----

  lemma {:induction false} FillMembersNoneLeft(list: seq<Process>, g: Group, left: seq<Member>)
    requires forall p :: p in list ==> MemberOf(p) !in left
    ensures FillMembers(list, g, left) == Members(list, g)
  {
    if list != [] {
      var k := |list| - 1;
      assert list == list[..k] + [list[k]];
      FillMembersNoneLeft(list[..k], g, left);
    }
  }

  lemma {:induction false} MembersUnaffected(list: seq<Process>, nodes: seq<NodeId>, g: Group)
    requires forall p :: p in OfNodes(list, nodes) ==> p.group != g
    ensures Members(NotOfNodes(list, nodes), g) == Members(list, g)
  {
    if list != [] {
      var k := |list| - 1;
      assert list == list[..k] + [list[k]];
      MembersUnaffected(list[..k], nodes, g);
      FillMembersAppend(NotOfNodes(list[..k], nodes), if list[k].nodeid in nodes then [] else [list[k]], g, []);
      SingleMembers(list[k], g);
    }
  }

  /** One notification of the downlist. */
  lemma LeftNoticeOk(list: seq<Process>, nodes: seq<NodeId>, bs: seq<Batch>, i: nat)
    requires Collects(bs, OfNodes(list, nodes), map[]) && i < |bs|
    ensures var rest := NotOfNodes(list, nodes);
            && NoticeOk(Members(list, bs[i].group), LeftNotices(rest, bs)[i])
            && LeftNotices(rest, bs)[i].members == Members(rest, bs[i].group)
  {
    var gone, rest := OfNodes(list, nodes), NotOfNodes(list, nodes);
    var g, left := bs[i].group, bs[i].entries;
    assert BatchOk(bs[i], gone, map[]);
    BatchKey(bs, gone, i);
    forall p | p in rest
      ensures MemberOf(p) !in left
    {
      assert !Collected(gone, map[], MemberOf(p), bs[i].key);
    }
    FillMembersNoneLeft(rest, g, left);
    forall m
      ensures m in Members(rest, g) <==> m in Members(list, g) && m !in left
    {
      MembersElements(rest, g, m);
      MembersElements(list, g, m);
      var p := Process(m.nodeid, m.pid, g);
      TerminatedKey(p);
      if p in gone {
        assert Collected(gone, map[], m, bs[i].key);
      }
    }
  }

  lemma DistinctLeft(rest: seq<Process>, gone: seq<Process>, bs: seq<Batch>)
    requires Collects(bs, gone, map[])
    ensures DistinctGroups(LeftNotices(rest, bs))
  {
    forall i, j | 0 <= i < j < |bs|
      ensures bs[i].group != bs[j].group
    {
      BatchKey(bs, gone, i);
      BatchKey(bs, gone, j);
    }
  }

  /** Downlist: the list stays good, the chain of notifications continues exactly if
      the names of the groups that lost processes are told apart as C strings, and an
      array is too short exactly if there are too many processes with one key. */
  lemma DownlistChain(s: CpgState)
    requires ChainInv(s)
    ensures ListOk(DownlistInform(s).list)
    ensures ChainInv(DownlistInform(s)) <==> Faithful(OfNodes(s.list, s.downlist), map[])
    ensures DownlistInform(s).overrun <==> s.overrun || !Fits(OfNodes(s.list, s.downlist), map[])
  {
    hide Collects, BatchOf, Faithful, Fits;
    var gone, rest := OfNodes(s.list, s.downlist), NotOfNodes(s.list, s.downlist);
    var bs := BatchOf(gone, map[]);
    var more := LeftNotices(rest, bs);
    var s' := DownlistInform(s);
    NotOfNodesOk(s.list, s.downlist);
    BatchCollects(gone, map[]);
    FaithfulBatches(bs, gone);
    FitsExactly(gone, map[]);
    DistinctLeft(rest, gone, bs);
    forall i | 0 <= i < |more|
      ensures NoticeOk(LastMembers(s.notices, more[i].group), more[i])
      ensures more[i].members == Members(rest, more[i].group)
    {
      LeftNoticeOk(s.list, s.downlist, bs, i);
    }
    ChainedAppend(s.notices, more);
    if Faithful(gone, map[]) {
      forall g
        ensures Members(rest, g) == LastMembers(s'.notices, g)
      {
        if HasBatch(bs, g) {
          var i :| 0 <= i < |bs| && bs[i].group == g;
          LastOfBatch(s.notices, more, i);
        } else {
          LastOfOthers(s.notices, more, g);
          MembersUnaffected(s.list, s.downlist, g);
        }
      }
    } else {
      var p :| p in gone && !HasBatch(bs, p.group);
      DownlistMissed(s, p);
      assert Members(s'.list, p.group) != LastMembers(s'.notices, p.group);
    }
  }

  /** A group that lost a process and gets no notification of its own is out of date. */
  lemma DownlistMissed(s: CpgState, p: Process)
    requires ChainInv(s)
    requires p in OfNodes(s.list, s.downlist)
    requires !HasBatch(BatchOf(OfNodes(s.list, s.downlist), map[]), p.group)
    ensures var s' := DownlistInform(s);
            MemberOf(p) !in Members(s'.list, p.group) && MemberOf(p) in LastMembers(s'.notices, p.group)
  {
    var rest := NotOfNodes(s.list, s.downlist);
    var more := LeftNotices(rest, BatchOf(OfNodes(s.list, s.downlist), map[]));
    LastOfOthers(s.notices, more, p.group);
    MembersElements(rest, p.group, MemberOf(p));
    MembersElements(s.list, p.group, MemberOf(p));
  }

  // ---- the joinlist ----

  lemma {:induction false} NewJoinsElements(list: seq<Process>, stored: seq<Process>, me: NodeId)
    requires ListOk(list)
    ensures var (l, joins) := NewJoins(list, stored, me);
            && ListOk(l)
            && (forall x :: x in l <==> x in list || x in joins)
            && (forall x :: x in joins <==> x in stored && x.nodeid != me && x !in list)
  {
    if stored != [] {
      var k := |stored| - 1;
      NewJoinsElements(list, stored[..k], me);
      assert stored == stored[..k] + [stored[k]];
      var (l, joins) := NewJoins(list, stored[..k], me);
      var p := stored[k];
      if !(p.nodeid == me || p in l) {
        InsertOk(l, p);
        InsertElements(l, p);
      }
    }
  }

  /** A group none of whose processes join keeps its members. */
  lemma {:induction false} NewJoinsMembers(list: seq<Process>, stored: seq<Process>, me: NodeId, g: Group)
    requires forall p :: p in NewJoins(list, stored, me).1 ==> p.group != g
    ensures Members(NewJoins(list, stored, me).0, g) == Members(list, g)
  {
    if stored != [] {
      var k := |stored| - 1;
      var (l, joins) := NewJoins(list, stored[..k], me);
      var p := stored[k];
      if !(p.nodeid == me || p in l) {
        assert forall q :: q in joins ==> q in joins + [p];
        assert p in joins + [p];
        InsertMembers(l, p, g);
      }
      NewJoinsMembers(list, stored[..k], me, g);
    }
  }

  /** The group that the batch of a key is sent for. */
  function LeadGroup(ps: seq<Process>, b: Behind, key: seq<int>): Group {
    var k := Leader(ps, b, key);
    if k < |ps| then ps[k].group else []
  }

  /** When the batches tell every group exactly what it gains: every group leads a
      batch, no two batches have one group, and those collected under a key are those
      of the group that leads it. */
  ghost predicate Sound(ps: seq<Process>, b: Behind) {
    && (forall p :: p in ps ==> Leads(ps, b, p.group))
    && (forall p, q :: p in ps && q in ps && LeadGroup(ps, b, Key(b, p)) == LeadGroup(ps, b, Key(b, q)) ==>
          Key(b, p) == Key(b, q))
    && (forall p :: p in ps ==> Matches(ps, b, Key(b, p)))
  }

  ghost predicate Leads(ps: seq<Process>, b: Behind, g: Group) {
    exists q :: q in ps && LeadGroup(ps, b, Key(b, q)) == g
  }

  ghost predicate Matches(ps: seq<Process>, b: Behind, key: seq<int>) {
    forall m :: Collected(ps, b, m, key) <==> Gains(ps, m, LeadGroup(ps, b, key))
  }

  ghost predicate Gains(ps: seq<Process>, m: Member, g: Group) {
    Process(m.nodeid, m.pid, g) in ps
  }

  /** A process id in one group only. */
  ghost predicate OneGroupEach(ps: seq<Process>) {
    forall p, q :: p in ps && q in ps && MemberOf(p) == MemberOf(q) ==> p == q
  }

  /** Keys that stand for the groups are enough, and are needed if no process id joins
      two groups at once. */
  lemma FaithfulSound(ps: seq<Process>, b: Behind)
    ensures Faithful(ps, b) ==> Sound(ps, b)
    ensures OneGroupEach(ps) ==> (Sound(ps, b) <==> Faithful(ps, b))
  {
    hide Key, LeadGroup, Sound, Faithful;
    if Faithful(ps, b) {
      LeadsOwn(ps, b);
    }
    if OneGroupEach(ps) && Sound(ps, b) {
      SoundFaithful(ps, b);
    }
  }

  lemma LeadsOwn(ps: seq<Process>, b: Behind)
    requires Faithful(ps, b)
    ensures Sound(ps, b)
  {
    hide Key, LeadGroup, Collected, Gains;
    forall p | p in ps
      ensures LeadGroup(ps, b, Key(b, p)) == p.group
      ensures Matches(ps, b, Key(b, p))
    {
      OwnGroup(ps, b, p);
      forall m {
        OwnMember(ps, b, p, m);
      }
    }
  }

  lemma OwnGroup(ps: seq<Process>, b: Behind, p: Process)
    requires Faithful(ps, b) && p in ps
    ensures LeadGroup(ps, b, Key(b, p)) == p.group
  {
    hide Key, Leader;
    assert ps[Leader(ps, b, Key(b, p))] in ps;
  }

  lemma OwnMember(ps: seq<Process>, b: Behind, p: Process, m: Member)
    requires Faithful(ps, b) && p in ps
    ensures Collected(ps, b, m, Key(b, p)) <==> Gains(ps, m, p.group)
  {
    hide Key;
    var r := Process(m.nodeid, m.pid, p.group);
    if r in ps {
      assert MemberOf(r) == m && Key(b, r) == Key(b, p);
    }
    if Collected(ps, b, m, Key(b, p)) {
      var q :| q in ps && MemberOf(q) == m && Key(b, q) == Key(b, p);
      assert q == r;
    }
  }

  lemma SoundFaithful(ps: seq<Process>, b: Behind)
    requires OneGroupEach(ps) && Sound(ps, b)
    ensures Faithful(ps, b)
  {
    hide Key, LeadGroup, Leads;
    forall p | p in ps
      ensures LeadGroup(ps, b, Key(b, p)) == p.group
    {
      assert Matches(ps, b, Key(b, p));
      assert Collected(ps, b, MemberOf(p), Key(b, p));
      assert Gains(ps, MemberOf(p), LeadGroup(ps, b, Key(b, p)));
    }
  }

  /** The batches say so themselves. */
  ghost predicate Tells(bs: seq<Batch>, joins: seq<Process>) {
    && (forall p :: p in joins ==> HasBatch(bs, p.group))
    && (forall i, j :: 0 <= i < j < |bs| ==> bs[i].group != bs[j].group)
    && (forall i, m :: 0 <= i < |bs| ==> (m in bs[i].entries <==> Gains(joins, m, bs[i].group)))
  }

  lemma SoundTells(bs: seq<Batch>, joins: seq<Process>, b: Behind)
    requires Collects(bs, joins, b)
    ensures Sound(joins, b) <==> Tells(bs, joins)
  {
    hide Key, LeadGroup, Sound, Tells, Collects;
    if Sound(joins, b) {
      SoundHas(bs, joins, b);
    }
    if Tells(bs, joins) {
      TellsSound(bs, joins, b);
    }
  }

  /** A batch and the process it is named after. */
  lemma BatchLeader(bs: seq<Batch>, ps: seq<Process>, b: Behind, i: nat) returns (p: Process)
    requires Collects(bs, ps, b) && i < |bs|
    ensures p in ps && Key(b, p) == bs[i].key && LeadGroup(ps, b, bs[i].key) == bs[i].group
  {
    hide Key;
    assert BatchOk(bs[i], ps, b);
    p := ps[Leader(ps, b, bs[i].key)];
  }

  /** A process and its batch. */
  lemma BatchFor(bs: seq<Batch>, ps: seq<Process>, b: Behind, p: Process)
    requires Collects(bs, ps, b) && p in ps
    ensures var i := FindBatch(bs, Key(b, p));
            && i < |bs|
            && LeadGroup(ps, b, Key(b, p)) == bs[i].group
            && (forall m :: m in bs[i].entries <==> Collected(ps, b, m, Key(b, p)))
  {
    hide Key, Collected;
    assert BatchOk(bs[FindBatch(bs, Key(b, p))], ps, b);
  }

  lemma SoundHas(bs: seq<Batch>, joins: seq<Process>, b: Behind)
    requires Collects(bs, joins, b) && Sound(joins, b)
    ensures Tells(bs, joins)
  {
    hide Key, LeadGroup, Collected, BatchOk;
    forall p | p in joins
      ensures HasBatch(bs, p.group)
    {
      assert Leads(joins, b, p.group);
      var q :| q in joins && LeadGroup(joins, b, Key(b, q)) == p.group;
      BatchFor(bs, joins, b, q);
    }
    forall i, j | 0 <= i < j < |bs|
      ensures bs[i].group != bs[j].group
    {
      var p := BatchLeader(bs, joins, b, i);
      var q := BatchLeader(bs, joins, b, j);
    }
    forall i | 0 <= i < |bs|
      ensures forall m :: m in bs[i].entries <==> Gains(joins, m, bs[i].group)
    {
      SoundEntries(bs, joins, b, i);
    }
  }

  lemma SoundEntries(bs: seq<Batch>, joins: seq<Process>, b: Behind, i: nat)
    requires Collects(bs, joins, b) && Sound(joins, b) && i < |bs|
    ensures forall m :: m in bs[i].entries <==> Gains(joins, m, bs[i].group)
  {
    hide Key, LeadGroup, Collected, BatchOk, Leads;
    var p := BatchLeader(bs, joins, b, i);
    BatchFor(bs, joins, b, p);
    FindUnique(bs, i);
    assert Matches(joins, b, Key(b, p));
  }

  lemma TellsSound(bs: seq<Batch>, joins: seq<Process>, b: Behind)
    requires Collects(bs, joins, b) && Tells(bs, joins)
    ensures Sound(joins, b)
  {
    hide Key, LeadGroup, Collected, BatchOk;
    forall p | p in joins
      ensures Leads(joins, b, p.group) && Matches(joins, b, Key(b, p))
    {
      var i :| 0 <= i < |bs| && bs[i].group == p.group;
      var q := BatchLeader(bs, joins, b, i);
      BatchFor(bs, joins, b, p);
    }
    forall p, q | p in joins && q in joins && LeadGroup(joins, b, Key(b, p)) == LeadGroup(joins, b, Key(b, q))
      ensures Key(b, p) == Key(b, q)
    {
      BatchFor(bs, joins, b, p);
      BatchFor(bs, joins, b, q);
    }
  }

  /** Joinlist: the list stays good, the chain continues exactly if the batches tell the
      groups what they gain, and an array is too short exactly if there are too many
      processes with one key. */
  lemma JoinlistChain(s: CpgState)
    requires ChainInv(s)
    ensures ListOk(JoinStored(s).list)
    ensures ChainInv(JoinStored(s)) <==> Sound(NewJoins(s.list, s.stored, s.me).1, s.storedBehind)
    ensures JoinStored(s).overrun <==> s.overrun || !Fits(NewJoins(s.list, s.stored, s.me).1, s.storedBehind)
  {
    hide NewJoins, BatchOf, FillMembers, LastMembers, Collects, Sound, Fits, Tells;
    var (l, joins) := NewJoins(s.list, s.stored, s.me);
    var bs := BatchOf(joins, s.storedBehind);
    var more := JoinNotices(l, bs);
    NewJoinsElements(s.list, s.stored, s.me);
    BatchCollects(joins, s.storedBehind);
    FitsExactly(joins, s.storedBehind);
    SoundTells(bs, joins, s.storedBehind);
    if Tells(bs, joins) {
      TellsChained(s, l, joins, bs);
      forall g
        ensures Members(l, g) == LastMembers(s.notices + more, g)
      {
        JoinedUpToDate(s, l, joins, bs, more, g);
      }
    } else if Chained(s.notices + more) && UpToDate(JoinStored(s)) {
      Nonempty(bs, joins, s.storedBehind);
      forall p | p in joins
        ensures HasBatch(bs, p.group)
      {
        if !HasBatch(bs, p.group) {
          JoinMissed(s, l, joins, bs, more, p);
        }
      }
      ChainedTells(s, l, joins, bs);
    }
  }

  lemma Nonempty(bs: seq<Batch>, ps: seq<Process>, b: Behind)
    requires Collects(bs, ps, b)
    ensures forall i :: 0 <= i < |bs| ==> bs[i].entries != []
  {
    forall i | 0 <= i < |bs|
      ensures bs[i].entries != []
    {
      assert BatchOk(bs[i], ps, b);
      var p := ps[Leader(ps, b, bs[i].key)];
      assert p in ps && MemberOf(p) in bs[i].entries;
    }
  }

  lemma TellsDistinct(l: seq<Process>, joins: seq<Process>, bs: seq<Batch>)
    requires Tells(bs, joins)
    ensures DistinctGroups(JoinNotices(l, bs))
  {
  }

  lemma TellsChained(s: CpgState, l: seq<Process>, joins: seq<Process>, bs: seq<Batch>)
    requires ChainInv(s) && Tells(bs, joins)
    requires forall x :: x in l <==> x in s.list || x in joins
    requires forall x :: x in joins ==> x !in s.list
    ensures Chained(s.notices + JoinNotices(l, bs)) && DistinctGroups(JoinNotices(l, bs))
  {
    hide LastMembers, FillMembers;
    var more := JoinNotices(l, bs);
    TellsDistinct(l, joins, bs);
    forall i | 0 <= i < |more|
      ensures NoticeOk(LastMembers(s.notices, more[i].group), more[i])
    {
      JoinNoticeOk(s.list, l, joins, bs, i);
    }
    ChainedAppend(s.notices, more);
  }

  /** The notification of a batch is right exactly if its entries are the joins of its
      group. */
  lemma JoinNoticeOk(list: seq<Process>, l: seq<Process>, joins: seq<Process>, bs: seq<Batch>, i: nat)
    requires forall x :: x in l <==> x in list || x in joins
    requires forall x :: x in joins ==> x !in list
    requires i < |bs|
    ensures NoticeOk(Members(list, bs[i].group), JoinNotices(l, bs)[i]) <==>
            forall m :: m in bs[i].entries <==> Gains(joins, m, bs[i].group)
  {
    hide FillMembers;
    var g := bs[i].group;
    forall m
      ensures m in Members(l, g) <==> m in Members(list, g) || Gains(joins, m, g)
      ensures Gains(joins, m, g) ==> m !in Members(list, g)
    {
      MembersElements(l, g, m);
      MembersElements(list, g, m);
    }
  }

  lemma JoinedUpToDate(s: CpgState, l: seq<Process>, joins: seq<Process>, bs: seq<Batch>, more: seq<Confchg>,
                       g: Group)
    requires ChainInv(s) && (l, joins) == NewJoins(s.list, s.stored, s.me)
    requires more == JoinNotices(l, bs) && DistinctGroups(more)
    requires Tells(bs, joins)
    ensures Members(l, g) == LastMembers(s.notices + more, g)
  {
    hide NewJoins, LastMembers;
    if HasBatch(bs, g) {
      var i :| 0 <= i < |bs| && bs[i].group == g;
      LastOfBatch(s.notices, more, i);
    } else {
      LastOfOthers(s.notices, more, g);
      NewJoinsMembers(s.list, s.stored, s.me, g);
    }
  }

  /** The other way: notifications that are right, with one for every group, come from
      batches that tell. */
  lemma ChainedTells(s: CpgState, l: seq<Process>, joins: seq<Process>, bs: seq<Batch>)
    requires ChainInv(s)
    requires forall x :: x in l <==> x in s.list || x in joins
    requires forall x :: x in joins ==> x !in s.list
    requires forall i :: 0 <= i < |bs| ==> bs[i].entries != []
    requires Chained(s.notices + JoinNotices(l, bs)) && forall p :: p in joins ==> HasBatch(bs, p.group)
    ensures Tells(bs, joins)
  {
    hide LastMembers, FillMembers, NoticeOk;
    var more := JoinNotices(l, bs);
    forall i, j | 0 <= i < j < |bs|
      ensures bs[i].group != bs[j].group
    {
      if bs[i].group == bs[j].group {
        ToldTwice(s, l, bs, i, j);
      }
    }
    forall i | 0 <= i < |bs|
      ensures forall m :: m in bs[i].entries <==> Gains(joins, m, bs[i].group)
    {
      NoticeAt(s.notices, more, i);
      LastOfOthers(s.notices, more[..i], more[i].group);
      JoinNoticeOk(s.list, l, joins, bs, i);
    }
  }

  /** The notification at a place of the second part. */
  lemma NoticeAt(ns: seq<Confchg>, more: seq<Confchg>, i: nat)
    requires Chained(ns + more) && i < |more|
    ensures NoticeOk(LastMembers(ns + more[..i], more[i].group), more[i])
  {
    var all := ns + more;
    assert all[|ns| + i] == more[i] && all[..|ns| + i] == ns + more[..i];
  }

  /** A process whose group has no batch of its own is not reported. */
  lemma JoinMissed(s: CpgState, l: seq<Process>, joins: seq<Process>, bs: seq<Batch>, more: seq<Confchg>, p: Process)
    requires ChainInv(s) && more == JoinNotices(l, bs)
    requires p in joins && p in l && p !in s.list && !HasBatch(bs, p.group)
    ensures MemberOf(p) in Members(l, p.group) && MemberOf(p) !in LastMembers(s.notices + more, p.group)
  {
    hide LastMembers, FillMembers;
    LastOfOthers(s.notices, more, p.group);
    MembersElements(l, p.group, MemberOf(p));
    MembersElements(s.list, p.group, MemberOf(p));
  }

  /** Of two notifications for one group, the second reports joins of members. */
  lemma ToldTwice(s: CpgState, l: seq<Process>, bs: seq<Batch>, i: nat, j: nat)
    requires i < j < |bs| && bs[i].group == bs[j].group && bs[j].entries != []
    ensures !Chained(s.notices + JoinNotices(l, bs))
  {
    var more := JoinNotices(l, bs);
    var m := bs[j].entries[0];
    assert m in more[j].joined;
    if Chained(s.notices + more) {
      NoticeAt(s.notices, more, j);
      ToldBefore(s.notices, l, bs, i, j);
    }
  }

  lemma {:induction false} ToldBefore(ns: seq<Confchg>, l: seq<Process>, bs: seq<Batch>, i: nat, j: nat)
    requires i < j <= |bs|
    ensures LastMembers(ns + JoinNotices(l, bs)[..j], bs[i].group) == Members(l, bs[i].group)
    decreases j
  {
    var more := JoinNotices(l, bs);
    assert ns + more[..j] == (ns + more[..j - 1]) + [more[j - 1]];
    LastSnoc(ns + more[..j - 1], more[j - 1], bs[i].group);
    if bs[j - 1].group != bs[i].group {
      ToldBefore(ns, l, bs, i, j - 1);
    }
  }

  lemma {:induction false} ZombieChain(s: CpgState, list0: seq<Process>)
    requires ChainInv(s)
    ensures ChainInv(RemoveZombies(s, list0))
  {
    hide ChainInv;
    if list0 != [] {
      var k := |list0| - 1;
      ZombieChain(s, list0[..k]);
      if Zombie(s, list0[k]) {
        LeaveChain(RemoveZombies(s, list0[..k]), list0[k], REASON_PROCDOWN);
      }
    }
  }

  /** Removing zombies needs no batch. */
  lemma {:induction false} ZombieOverrun(s: CpgState, list0: seq<Process>)
    ensures RemoveZombies(s, list0).overrun == s.overrun
  {
    if list0 != [] {
      ZombieOverrun(s, list0[..|list0| - 1]);
    }
  }

  /** Activation: the chain continues if the keys stand for the groups, and no array is
      too short exactly if no key has too many processes. */
  lemma ActivateChain(s: CpgState)
    requires ChainInv(s)
    requires Faithful(OfNodes(s.list, s.downlist), map[])
    requires var s1 := DownlistInform(s.(oldMembers := s.members));
             Sound(NewJoins(s1.list, s1.stored, s1.me).1, s1.storedBehind)
    ensures ChainInv(SyncActivate(s))
    ensures var s1 := DownlistInform(s.(oldMembers := s.members));
            SyncActivate(s).overrun <==>
            || s.overrun
            || !Fits(OfNodes(s.list, s.downlist), map[])
            || !Fits(NewJoins(s1.list, s1.stored, s1.me).1, s1.storedBehind)
  {
    hide Faithful, Fits, Sound;
    var s0 := s.(oldMembers := s.members);
    var s1 := DownlistInform(s0);
    DownlistChain(s0);
    JoinlistChain(s1);
    ZombieChain(JoinStored(s1), JoinStored(s1).list);
    ZombieOverrun(JoinStored(s1), JoinStored(s1).list);
  }

  // ---- names whose keys stand for them ----

  ghost predicate NoZero(g: Group) {
    forall i :: 0 <= i < |g| ==> g[i] != 0
  }

  /** What a client can see to: no zero in the name, and a zero right behind it. */
  ghost predicate Clean(g: Group, behind: seq<int>) {
    NoZero(g) && behind != [] && behind[0] == 0
  }

  lemma {:induction false} CleanKey(g: Group, behind: seq<int>)
    requires NoZero(g) && (behind == [] || behind[0] == 0)
    ensures CString(g + behind) == g
  {
    if g == [] {
      assert g + behind == behind;
    } else {
      assert (g + behind)[1..] == g[1..] + behind;
      CleanKey(g[1..], behind);
    }
  }

  lemma NoZeroFaithful(ps: seq<Process>)
    requires forall p :: p in ps ==> NoZero(p.group)
    ensures Faithful(ps, map[])
  {
    forall p | p in ps
      ensures Key(map[], p) == p.group
    {
      CleanKey(p.group, []);
    }
  }

  lemma CleanSound(ps: seq<Process>, b: Behind)
    requires forall p :: p in ps ==> Clean(p.group, BehindOf(b, p))
    ensures Sound(ps, b)
  {
    forall p | p in ps
      ensures Key(b, p) == p.group
    {
      CleanKey(p.group, BehindOf(b, p));
    }
    FaithfulSound(ps, b);
  }

  /** The names "a\\0b" and "a\\0c" are not told apart: two processes of a node that
      went down, and the second group is never told. */
  lemma ZeroByteBreaksChain()
    ensures var b, c := [97, 0, 98], [97, 0, 99];
            var s0 := ProcJoined(ProcJoined(InitialState(1), Process(2, 7, b), [0]), Process(2, 8, c), [0]);
            var s := s0.(downlist := [2]);
            && ChainInv(s)
            && !ChainInv(DownlistInform(s))
  {
    var b, c := [97, 0, 98], [97, 0, 99];
    var p, q := Process(2, 7, b), Process(2, 8, c);
    assert ChainInv(InitialState(1));
    JoinChain(InitialState(1), p, [0]);
    var s1 := ProcJoined(InitialState(1), p, [0]);
    JoinChain(s1, q, [0]);
    var s0 := ProcJoined(s1, q, [0]);
    InsertElements([], p);
    InsertElements(s1.list, q);
    var s := s0.(downlist := [2]);
    assert ChainInv(s);
    assert p in OfNodes(s.list, s.downlist) && q in OfNodes(s.list, s.downlist);
    TerminatedKey(p);
    TerminatedKey(q);
    CStringUpTo([97], [98]);
    CStringUpTo([97], [99]);
    assert [97] + [0] + [98] == b && [97] + [0] + [99] == c;
    assert b[2] != c[2];
    DownlistChain(s);
  }

  lemma CStringUpTo(name: seq<int>, rest: seq<int>)
    requires NoZero(name)
    ensures CString(name + [0] + rest) == name
  {
    assert name + [0] + rest == name + ([0] + rest);
    CleanKey(name, [0] + rest);
  }

  lemma StoreTwo(e: JoinEntry, f: JoinEntry)
    ensures Store([], 2, [e, f]) == [ToProcess(2, f), ToProcess(2, e)]
    ensures StoreBehind(map[], 2, [e, f]) == map[ToProcess(2, e) := e.behind, ToProcess(2, f) := f.behind]
  {
    assert [e, f][..1] == [e] && [e][..0] == [];
    assert Store([], 2, [e]) == [ToProcess(2, e)];
    assert StoreBehind(map[], 2, [e]) == map[ToProcess(2, e) := e.behind];
  }

  lemma NothingTold(s: CpgState)
    requires s.list == [] && s.notices == []
    ensures ChainInv(s)
  {
  }

  /** Processes of two groups that a joinlist brings, with different keys or one. */
  lemma TwoJoins(e: JoinEntry, f: JoinEntry)
    requires e.pid != f.pid
    requires var b: Behind := map[ToProcess(2, e) := e.behind, ToProcess(2, f) := f.behind];
             !(Key(b, ToProcess(2, e)) == Key(b, ToProcess(2, f)) <==> e.group == f.group)
    ensures var s := HandleMessage(InitialState(1), 2, Joinlist([e, f]));
            ChainInv(s) && !ChainInv(JoinStored(s))
  {
    hide NewJoins, JoinStored, Key, Sound, Fits, FillMembers, LastMembers, Store, StoreBehind;
    var p, q := ToProcess(2, e), ToProcess(2, f);
    var s := HandleMessage(InitialState(1), 2, Joinlist([e, f]));
    StoreTwo(e, f);
    NothingTold(s);
    NewJoinsElements(s.list, s.stored, s.me);
    var joins := NewJoins(s.list, s.stored, s.me).1;
    assert p in joins && q in joins;
    assert forall x :: x in joins ==> x == p || x == q;
    FaithfulSound(joins, s.storedBehind);
    JoinlistChain(s);
  }

  /** Two processes of the group "ab" whose buffers go on differently: the joinlist
      gives the group two batches. The same for a process of "ab" whose buffer goes on
      with "c" and one of the group "abc": the joinlist gives them one batch. */
  lemma BytesBehindBreakChain()
    ensures var s := HandleMessage(InitialState(1), 2,
                                   Joinlist([JoinEntry(7, [97, 98], [0]), JoinEntry(8, [97, 98], [99, 0])]));
            ChainInv(s) && !ChainInv(JoinStored(s))
    ensures var s := HandleMessage(InitialState(1), 2,
                                   Joinlist([JoinEntry(7, [97, 98], [99, 0]), JoinEntry(8, [97, 98, 99], [0])]));
            ChainInv(s) && !ChainInv(JoinStored(s))
  {
    CStringUpTo([97, 98], []);
    CStringUpTo([97, 98, 99], []);
    assert [97, 98] + [0] + [] == [97, 98] + [0];
    assert [97, 98, 99] + [0] + [] == [97, 98] + [99, 0] == [97, 98, 99] + [0];
    assert |[97, 98]| != |[97, 98, 99]|;
    TwoJoins(JoinEntry(7, [97, 98], [0]), JoinEntry(8, [97, 98], [99, 0]));
    TwoJoins(JoinEntry(7, [97, 98], [99, 0]), JoinEntry(8, [97, 98, 99], [0]));
  }
}
