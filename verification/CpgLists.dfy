/** The process list stays sorted and free of duplicates, and the members of a group
    are determined by which processes are in the list. */
module CpgLists {
  import opened Sync
  import opened Cpg

  ghost predicate ListOk(list: seq<Process>) {
    && (forall i, j :: 0 <= i < j < |list| ==> !Greater(list[i], list[j]))
    && (forall i, j :: 0 <= i < j < |list| ==> list[i] != list[j])
  }

  lemma InsertElements(list: seq<Process>, p: Process)
    ensures forall x :: x in Insert(list, p) <==> x in list || x == p
  {
    var k := InsertPos(list, p);
    assert list == list[..k] + list[k..];
  }

  lemma InsertOk(list: seq<Process>, p: Process)
    requires ListOk(list) && p !in list
    ensures ListOk(Insert(list, p))
  {
    var k := InsertPos(list, p);
    var r := Insert(list, p);
    forall i, j | 0 <= i < j < |r|
      ensures !Greater(r[i], r[j]) && r[i] != r[j]
    {
      if i != k && j != k {
        var i', j' := if i < k then i else i - 1, if j < k then j else j - 1;
        assert r[i] == list[i'] && r[j] == list[j'];
      } else if j == k {
        assert r[i] == list[i];
      } else {
        assert r[j] == list[j - 1];
        assert !Greater(list[k], list[j - 1]);
      }
    }
  }

  /** Sublists of a good list are good: what is taken out keeps the order. */
  lemma {:induction false} RemoveOk(list: seq<Process>, p: Process)
    requires ListOk(list)
    ensures ListOk(Remove(list, p))
  {
    if list != [] {
      var k := |list| - 1;
      RemoveOk(list[..k], p);
      AppendOk(list, Remove(list[..k], p), list[k]);
    }
  }

  lemma AppendOk(list: seq<Process>, r: seq<Process>, last: Process)
    requires ListOk(list) && list != [] && last == list[|list| - 1]
    requires ListOk(r) && forall x :: x in r ==> x in list[..|list| - 1]
    ensures ListOk(r + [last]) && ListOk(r + [])
  {
    assert r + [] == r;
    forall i | 0 <= i < |r|
      ensures !Greater(r[i], last) && r[i] != last
    {
      assert r[i] in r;
      assert r[i] in list[..|list| - 1];
    }
  }

  lemma {:induction false} NotOfNodesOk(list: seq<Process>, nodes: seq<NodeId>)
    requires ListOk(list)
    ensures ListOk(NotOfNodes(list, nodes))
  {
    if list != [] {
      var k := |list| - 1;
      NotOfNodesOk(list[..k], nodes);
      AppendOk(list, NotOfNodes(list[..k], nodes), list[k]);
    }
  }

  // ---- members of a group ----

  lemma {:induction false} FillMembersElements(list: seq<Process>, g: Group, left: seq<Member>, m: Member)
    ensures m in FillMembers(list, g, left) <==> Process(m.nodeid, m.pid, g) in list && m !in left
  {
    if list != [] {
      var k := |list| - 1;
      FillMembersElements(list[..k], g, left, m);
      assert list == list[..k] + [list[k]];
    }
  }

  lemma MembersElements(list: seq<Process>, g: Group, m: Member)
    ensures m in Members(list, g) <==> Process(m.nodeid, m.pid, g) in list
  {
    FillMembersElements(list, g, [], m);
  }

  lemma {:induction false} FillMembersAppend(a: seq<Process>, b: seq<Process>, g: Group, left: seq<Member>)
    ensures FillMembers(a + b, g, left) == FillMembers(a, g, left) + FillMembers(b, g, left)
    decreases |b|
  {
    if b == [] {
      assert a + b == a;
    } else {
      var k := |b| - 1;
      assert (a + b)[..|a + b| - 1] == a + b[..k];
      FillMembersAppend(a, b[..k], g, left);
    }
  }

  /** Inserting a process changes the members of its group only. */
  lemma InsertMembers(list: seq<Process>, p: Process, g: Group)
    requires g != p.group
    ensures Members(Insert(list, p), g) == Members(list, g)
  {
    hide FillMembers;
    var k := InsertPos(list, p);
    var a, b := list[..k], list[k..];
    FillMembersAppend(a + [p], b, g, []);
    FillMembersAppend(a, [p], g, []);
    FillMembersAppend(a, b, g, []);
    SingleMembers(p, g);
    assert list == a + b;
  }

  /** Leaving out a process in a notification is the same as removing it. */
  lemma {:induction false} RemoveMembers(list: seq<Process>, p: Process, g: Group)
    ensures Members(Remove(list, p), g) ==
            if g == p.group then FillMembers(list, g, [MemberOf(p)]) else Members(list, g)
  {
    if list != [] {
      var k := |list| - 1;
      RemoveMembers(list[..k], p, g);
      FillMembersAppend(Remove(list[..k], p), if list[k] == p then [] else [list[k]], g, []);
      SingleMembers(list[k], g);
    }
  }

  lemma SingleMembers(p: Process, g: Group)
    ensures FillMembers([p], g, []) == if p.group == g then [MemberOf(p)] else []
    ensures FillMembers([], g, []) == []
  {
    assert [p][..0] == [];
  }

  // ---- the members of a group do not depend on the history of the list ----

  ghost predicate Before(a: Member, b: Member) {
    a.nodeid < b.nodeid || (a.nodeid == b.nodeid && a.pid < b.pid)
  }

  ghost predicate Ordered(ms: seq<Member>) {
    forall i, j :: 0 <= i < j < |ms| ==> Before(ms[i], ms[j])
  }

  /** In a good list the members of a group are strictly ordered. */
  lemma {:induction false} MembersOrdered(list: seq<Process>, g: Group)
    requires ListOk(list)
    ensures Ordered(Members(list, g))
  {
    if list != [] {
      var k := |list| - 1;
      MembersOrdered(list[..k], g);
      var pre := Members(list[..k], g);
      forall i | 0 <= i < |pre| && list[k].group == g
        ensures Before(pre[i], MemberOf(list[k]))
      {
        MembersElements(list[..k], g, pre[i]);
        assert pre[i] in pre;
        var q := Process(pre[i].nodeid, pre[i].pid, g);
        var j :| 0 <= j < k && list[..k][j] == q;
        assert list[j] == q;
      }
    }
  }

  lemma {:induction false} OrderedUnique(a: seq<Member>, b: seq<Member>)
    requires Ordered(a) && Ordered(b)
    requires forall m :: m in a <==> m in b
    ensures a == b
  {
    forall i | 0 <= i < |a|
      ensures a[i] in b
    {
      assert a[i] in a;
    }
    forall i | 0 <= i < |b|
      ensures b[i] in a
    {
      assert b[i] in b;
    }
    assert b != [] ==> b[0] in a;
    assert a != [] ==> a[0] in b;
    if a != [] {
      var ka, kb := |a| - 1, |b| - 1;
      assert a[ka] == b[kb];
      var a', b' := a[..ka], b[..kb];
      forall m
        ensures m in a' <==> m in b'
      {
        if m in a' {
          assert m in b;
        }
        if m in b' {
          assert m in a;
        }
      }
      OrderedUnique(a', b');
      assert a == a' + [a[ka]] && b == b' + [b[kb]];
    }
  }

  /** Two good lists with the same processes give every group the same members in
      the same order. */
  lemma SameProcessesSameMembers(a: seq<Process>, b: seq<Process>, g: Group)
    requires ListOk(a) && ListOk(b)
    requires forall p :: p in a <==> p in b
    ensures Members(a, g) == Members(b, g)
  {
    MembersOrdered(a, g);
    MembersOrdered(b, g);
    forall m
      ensures m in Members(a, g) <==> m in Members(b, g)
    {
      MembersElements(a, g, m);
      MembersElements(b, g, m);
    }
    OrderedUnique(Members(a, g), Members(b, g));
  }

  /** The members of a group are reported in ascending order of node and process id, each
      once. */
  lemma {:induction false} MembersAscend(list: seq<Process>, g: Group)
    requires ListOk(list)
    ensures var ms := Members(list, g);
            forall i, j :: 0 <= i < j < |ms| ==>
              ms[i].nodeid < ms[j].nodeid || (ms[i].nodeid == ms[j].nodeid && ms[i].pid < ms[j].pid)
  {
    if list != [] {
      var k := |list| - 1;
      assert ListOk(list[..k]);
      MembersAscend(list[..k], g);
      var ms := Members(list[..k], g);
      if list[k].group == g {
        forall i | 0 <= i < |ms|
          ensures ms[i].nodeid < list[k].nodeid || (ms[i].nodeid == list[k].nodeid && ms[i].pid < list[k].pid)
        {
          MembersElements(list[..k], g, ms[i]);
          var p := Process(ms[i].nodeid, ms[i].pid, g);
          var j :| 0 <= j < k && list[j] == p;
          assert !Greater(list[j], list[k]) && list[j] != list[k];
        }
      }
    }
  }
}
