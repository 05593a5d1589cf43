/** The copy of the process list that an iteration over groups works on (exec/cpg.c):
    every group in one piece, the group found last at the front. */
module CpgIteration {
  import opened Wrappers
  import opened Sync
  import opened Cpg

  datatype IterationType = NAME_ONLY | ONE_GROUP | ALL

  /** The first entry of a group. */
  function FindGroup(items: seq<Process>, g: Group): (k: nat)
    ensures k <= |items|
    ensures k < |items| ==> items[k].group == g
    ensures forall i :: 0 <= i < k ==> items[i].group != g
  {
    if items == [] || items[0].group == g then 0 else 1 + FindGroup(items[1..], g)
  }

  /** A new entry goes behind the first one of its group, or else to the front. */
  function AddGrouped(items: seq<Process>, p: Process): seq<Process> {
    var k := FindGroup(items, p.group);
    if k < |items| then items[..k + 1] + [p] + items[k + 1..] else [p] + items
  }

  /** What is copied of an entry, if anything. */
  function Pick(items: seq<Process>, p: Process, t: IterationType, g: Group): Option<Process> {
    match t
    case NAME_ONLY => if FindGroup(items, p.group) < |items| then None else Some(Process(0, 0, p.group))
    case ONE_GROUP => if p.group == g then Some(p) else None
    case ALL => Some(p)
  }

  function Copy(list: seq<Process>, t: IterationType, g: Group): seq<Process> {
    if list == [] then []
    else
      var k := |list| - 1;
      var items := Copy(list[..k], t, g);
      match Pick(items, list[k], t, g)
      case None => items
      case Some(p) => AddGrouped(items, p)
  }

  /** `message_handler_req_lib_cpg_iteration_initialize`, the copying. */
  method IterationInitialize(list: seq<Process>, t: IterationType, g: Group) returns (items: seq<Process>)
    ensures items == Copy(list, t, g)
  {
    items := [];
    var n := 0;
    while n < |list|
      invariant 0 <= n <= |list| && items == Copy(list[..n], t, g)
    {
      var pi := list[n];
      assert list[..n + 1][..n] == list[..n];
      n := n + 1;
      var newPi := pi;
      if t == NAME_ONLY {
        var found := SearchGroup(items, pi.group);
        if found < |items| {
          continue;
        }
        newPi := Process(0, 0, pi.group);
      } else if t == ONE_GROUP && pi.group != g {
        continue;
      }
      var k := SearchGroup(items, pi.group);
      if k < |items| {
        items := items[..k + 1] + [newPi] + items[k + 1..];
      } else {
        items := [newPi] + items;
      }
    }
    assert list[..n] == list;
  }

  method SearchGroup(items: seq<Process>, g: Group) returns (k: nat)
    ensures k == FindGroup(items, g)
  {
    k := 0;
    while k < |items|
      invariant 0 <= k <= |items| && forall i :: 0 <= i < k ==> items[i].group != g
    {
      if items[k].group == g {
        return;
      }
      k := k + 1;
    }
  }

  // ---- what the copy is ----

  /** Entries of a group are next to each other. */
  ghost predicate Contiguous(items: seq<Process>) {
    forall i, j, k :: 0 <= i < j < k < |items| && items[i].group == items[k].group ==> items[j].group == items[i].group
  }

  /** Where the group of an entry was before the insertion behind index `k`. */
  function Source(k: nat, i: nat): nat {
    if i <= k then i else i - 1
  }

  lemma GroupAt(items: seq<Process>, p: Process, i: nat)
    requires FindGroup(items, p.group) < |items| && i <= |items|
    ensures |AddGrouped(items, p)| == |items| + 1 && Source(FindGroup(items, p.group), i) < |items|
    ensures AddGrouped(items, p)[i].group == items[Source(FindGroup(items, p.group), i)].group
  {
    hide FindGroup;
  }

  lemma AddContiguous(items: seq<Process>, p: Process)
    requires Contiguous(items)
    ensures Contiguous(AddGrouped(items, p))
  {
    var k := FindGroup(items, p.group);
    var r := AddGrouped(items, p);
    forall a, b, c | 0 <= a < b < c < |r| && r[a].group == r[c].group
      ensures r[b].group == r[a].group
    {
      AddBetween(items, p, a, b, c);
    }
  }

  lemma AddBetween(items: seq<Process>, p: Process, a: nat, b: nat, c: nat)
    requires Contiguous(items) && a < b < c < |AddGrouped(items, p)|
    requires AddGrouped(items, p)[a].group == AddGrouped(items, p)[c].group
    ensures AddGrouped(items, p)[b].group == AddGrouped(items, p)[a].group
  {
    var k := FindGroup(items, p.group);
    if k < |items| {
      GroupAt(items, p, a);
      GroupAt(items, p, b);
      GroupAt(items, p, c);
      hide AddGrouped, FindGroup;
      var x, y, z := Source(k, a), Source(k, b), Source(k, c);
      assert x <= y <= z;
    } else {
      hide FindGroup;
    }
  }

  lemma AddPermutes(items: seq<Process>, p: Process)
    ensures multiset(AddGrouped(items, p)) == multiset(items) + multiset{p}
  {
    hide FindGroup;
    var k := FindGroup(items, p.group);
    if k < |items| {
      assert items == items[..k + 1] + items[k + 1..];
    }
  }

  function OfGroup(list: seq<Process>, g: Group): seq<Process> {
    if list == [] then []
    else
      var k := |list| - 1;
      OfGroup(list[..k], g) + if list[k].group == g then [list[k]] else []
  }

  lemma NoneContiguous()
    ensures Contiguous([])
  {
  }

  /** The full copy is a permutation of the list with every group in one piece. */
  lemma {:induction false} FullCopy(list: seq<Process>, g: Group)
    ensures multiset(Copy(list, ALL, g)) == multiset(list)
    ensures Contiguous(Copy(list, ALL, g))
  {
    hide AddGrouped, Contiguous;
    if list == [] {
      NoneContiguous();
    } else {
      var k := |list| - 1;
      FullCopy(list[..k], g);
      AddContiguous(Copy(list[..k], ALL, g), list[k]);
      AddPermutes(Copy(list[..k], ALL, g), list[k]);
      assert list == list[..k] + [list[k]];
    }
  }

  /** The copy of one group is a permutation of that group. */
  lemma {:induction false} GroupCopy(list: seq<Process>, g: Group)
    ensures multiset(Copy(list, ONE_GROUP, g)) == multiset(OfGroup(list, g))
    ensures Contiguous(Copy(list, ONE_GROUP, g))
  {
    hide AddGrouped, Contiguous;
    if list == [] {
      NoneContiguous();
    } else {
      var k := |list| - 1;
      GroupCopy(list[..k], g);
      AddContiguous(Copy(list[..k], ONE_GROUP, g), list[k]);
      AddPermutes(Copy(list[..k], ONE_GROUP, g), list[k]);
      assert OfGroup(list[..k], g) + [] == OfGroup(list[..k], g);
    }
  }

  ghost predicate HasGroup(list: seq<Process>, g: Group) {
    exists i :: 0 <= i < |list| && list[i].group == g
  }

  /** Bare names, each once. */
  ghost predicate NamesOnce(items: seq<Process>) {
    && (forall i, j :: 0 <= i < j < |items| ==> items[i].group != items[j].group)
    && (forall i :: 0 <= i < |items| ==> items[i].nodeid == 0 && items[i].pid == 0)
  }

  /** The copy of the names has every name of the list exactly once. */
  lemma {:induction false} NameCopy(list: seq<Process>, g: Group)
    ensures NamesOnce(Copy(list, NAME_ONLY, g))
    ensures forall h :: HasGroup(Copy(list, NAME_ONLY, g), h) <==> HasGroup(list, h)
  {
    hide FindGroup, HasGroup, NamesOnce;
    if list == [] {
      NoGroups();
    } else {
      var k := |list| - 1;
      NameCopy(list[..k], g);
      var before, items := Copy(list[..k], NAME_ONLY, g), Copy(list, NAME_ONLY, g);
      var p := Process(0, 0, list[k].group);
      assert items == if FindGroup(before, p.group) < |before| then before else [p] + before;
      NamesCons(before, p);
      forall h
        ensures HasGroup(items, h) <==> HasGroup(list, h)
      {
        assert HasGroup(before, h) <==> HasGroup(list[..k], h);
        HasGroupCons(p, before, h);
        HasGroupSnoc(list[..k], list[k], h);
        assert list == list[..k] + [list[k]];
      }
    }
  }

  lemma NoGroups()
    ensures NamesOnce([]) && forall h :: !HasGroup([], h)
  {
  }

  lemma NamesCons(items: seq<Process>, p: Process)
    requires NamesOnce(items) && p.nodeid == 0 && p.pid == 0
    ensures FindGroup(items, p.group) < |items| <==> HasGroup(items, p.group)
    ensures FindGroup(items, p.group) == |items| ==> NamesOnce([p] + items)
  {
    hide FindGroup;
    var all := [p] + items;
    assert forall i :: 0 < i < |all| ==> all[i] == items[i - 1];
  }

  lemma HasGroupCons(p: Process, items: seq<Process>, h: Group)
    ensures HasGroup([p] + items, h) <==> p.group == h || HasGroup(items, h)
  {
    var all := [p] + items;
    if HasGroup(items, h) {
      var i :| 0 <= i < |items| && items[i].group == h;
      assert all[i + 1].group == h;
    }
    if p.group == h {
      assert all[0].group == h;
    }
    if HasGroup(all, h) {
      var i :| 0 <= i < |all| && all[i].group == h;
      if i > 0 {
        assert items[i - 1].group == h;
      }
    }
  }

  lemma HasGroupSnoc(items: seq<Process>, p: Process, h: Group)
    ensures HasGroup(items + [p], h) <==> HasGroup(items, h) || p.group == h
  {
    var all := items + [p];
    if HasGroup(items, h) {
      var i :| 0 <= i < |items| && items[i].group == h;
      assert all[i].group == h;
    }
    if p.group == h {
      assert all[|items|].group == h;
    }
    if HasGroup(all, h) {
      var i :| 0 <= i < |all| && all[i].group == h;
      if i < |items| {
        assert items[i].group == h;
      }
    }
  }
}
