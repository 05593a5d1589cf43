/** Facts about the lists of exec/sync.c: the merged service list is strictly
    increasing and holds exactly the ids that were merged. */
module SyncLists {
  import opened Sync

  ghost predicate Increasing(services: seq<Service>) {
    forall i, j :: 0 <= i < j < |services| ==> services[i].id < services[j].id
  }

  ghost predicate IncreasingIds(ids: seq<ServiceId>) {
    forall i, j :: 0 <= i < j < |ids| ==> ids[i] < ids[j]
  }

  function Ids(services: seq<Service>): (r: seq<ServiceId>)
    ensures |r| == |services|
    ensures forall i :: 0 <= i < |r| ==> r[i] == services[i].id
  {
    seq(|services|, i requires 0 <= i < |services| => services[i].id)
  }

  function ToSet(ids: seq<ServiceId>): (r: set<ServiceId>)
    ensures forall x :: x in r <==> x in ids
  {
    set x | x in ids
  }

  function IdSet(services: seq<Service>): (r: set<ServiceId>)
    ensures forall x :: x in r <==> HasService(services, x)
  {
    set i | 0 <= i < |services| :: services[i].id
  }

  // ---- sorting ----

  lemma {:induction false} InsertElements(sorted: seq<Service>, s: Service)
    ensures forall x :: x in InsertService(sorted, s) <==> x in sorted || x == s
  {
    if !(sorted == [] || sorted[|sorted| - 1].id <= s.id) {
      var k := |sorted| - 1;
      InsertElements(sorted[..k], s);
      assert sorted == sorted[..k] + [sorted[k]];
    }
  }

  lemma {:induction false} InsertIncreasing(sorted: seq<Service>, s: Service)
    requires Increasing(sorted) && !HasService(sorted, s.id)
    ensures Increasing(InsertService(sorted, s))
  {
    if !(sorted == [] || sorted[|sorted| - 1].id <= s.id) {
      var k := |sorted| - 1;
      var r := InsertService(sorted[..k], s);
      InsertIncreasing(sorted[..k], s);
      InsertElements(sorted[..k], s);
      forall i | 0 <= i < |r|
        ensures r[i].id < sorted[k].id
      {
        assert r[i] in r;
        if r[i] != s {
          assert r[i] in sorted[..k];
        }
      }
    } else if sorted != [] {
      assert sorted[|sorted| - 1].id != s.id;
    }
  }

  /** Sorting keeps the entries and makes distinct ids strictly increasing. */
  lemma {:induction false} SortIncreasing(services: seq<Service>)
    requires Distinct(services)
    ensures forall x :: x in SortServices(services) <==> x in services
    ensures Increasing(SortServices(services))
  {
    if services != [] {
      var k := |services| - 1;
      var pre := SortServices(services[..k]);
      SortIncreasing(services[..k]);
      InsertElements(pre, services[k]);
      assert services == services[..k] + [services[k]];
      forall i | 0 <= i < |pre|
        ensures pre[i].id != services[k].id
      {
        assert pre[i] in services[..k];
      }
      InsertIncreasing(pre, services[k]);
    }
  }

  // ---- merging ----

  /** Ids are distinct. */
  ghost predicate Distinct(services: seq<Service>) {
    forall i, j :: 0 <= i < j < |services| ==> services[i].id != services[j].id
  }

  lemma {:induction false} AddUnknownIds(services: seq<Service>, ids: seq<ServiceId>)
    requires Distinct(services)
    ensures Distinct(AddUnknown(services, ids))
    ensures forall x :: HasService(AddUnknown(services, ids), x) <==> HasService(services, x) || x in ids
    ensures forall i :: |services| <= i < |AddUnknown(services, ids)| ==>
              !AddUnknown(services, ids)[i].loaded && !AddUnknown(services, ids)[i].activated
    ensures |AddUnknown(services, ids)| == |services| ==> forall x :: x in ids ==> HasService(services, x)
  {
    if ids != [] {
      var k := |ids| - 1;
      AddUnknownIds(services, ids[..k]);
      assert ids == ids[..k] + [ids[k]];
      var pre := AddUnknown(services, ids[..k]);
      var r := AddUnknown(services, ids);
      if !HasService(pre, ids[k]) {
        assert r[|pre|].id == ids[k];
        forall x
          ensures HasService(r, x) <==> HasService(pre, x) || x == ids[k]
        {
          if HasService(pre, x) {
            var i :| 0 <= i < |pre| && pre[i].id == x;
            assert r[i].id == x;
          }
        }
      }
    }
  }

  lemma SameElements(a: seq<Service>, b: seq<Service>, x: ServiceId)
    requires forall s :: s in a <==> s in b
    ensures HasService(a, x) <==> HasService(b, x)
  {
    if HasService(a, x) {
      var i :| 0 <= i < |a| && a[i].id == x;
      assert a[i] in b;
    }
    if HasService(b, x) {
      var i :| 0 <= i < |b| && b[i].id == x;
      assert b[i] in a;
    }
  }

  /** The service list a node has merged: increasing, the given ids, own callbacks
      for its own services, the first `idx` of them activated. */
  ghost predicate Merged(services: seq<Service>, ids: set<ServiceId>, own: set<ServiceId>, idx: nat) {
    && Increasing(services)
    && IdSet(services) == ids
    && (forall i :: 0 <= i < |services| ==> (services[i].loaded <==> services[i].id in own))
    && (forall i :: 0 <= i < |services| ==> (services[i].activated <==> i < idx))
  }

  /** What `sync_service_build_handler` does to the list. */
  function MergeList(services: seq<Service>, ids: seq<ServiceId>): seq<Service> {
    var added := AddUnknown(services, ids);
    if |added| > |services| then SortServices(added) else services
  }

  lemma MergeMore(services: seq<Service>, ids: set<ServiceId>, own: set<ServiceId>, more: seq<ServiceId>)
    requires Merged(services, ids, own, 0) && own <= ids
    ensures Merged(MergeList(services, more), ids + ToSet(more), own, 0)
  {
    var added := AddUnknown(services, more);
    var r := MergeList(services, more);
    AddUnknownIds(services, more);
    assert forall x :: HasService(added, x) <==> x in ids + ToSet(more);
    if |added| > |services| {
      SortIncreasing(added);
      forall x
        ensures HasService(r, x) <==> HasService(added, x)
      {
        SameElements(added, r, x);
      }
      forall i | 0 <= i < |added|
        ensures (added[i].loaded <==> added[i].id in own) && !added[i].activated
      {
        if i >= |services| {
          forall j | 0 <= j < |services|
            ensures services[j].id != added[i].id
          {
            assert added[j].id != added[i].id;
          }
          assert !HasService(services, added[i].id);
        }
      }
      forall i | 0 <= i < |r|
        ensures (r[i].loaded <==> r[i].id in own) && !r[i].activated
      {
        assert r[i] in added;
      }
    } else {
      assert added == services;
    }
    assert forall x :: x in IdSet(r) <==> x in ids + ToSet(more);
  }

  lemma OwnMerged(loaded: seq<ServiceId>)
    requires IncreasingIds(loaded)
    ensures Merged(OwnServices(loaded), ToSet(loaded), ToSet(loaded), 0)
  {
    var s := OwnServices(loaded);
    assert forall i :: 0 <= i < |loaded| ==> s[i].id == loaded[i] && loaded[i] in loaded;
  }

  // ---- the canonical list of a set of ids ----

  lemma EmptyOrNot(s: set<ServiceId>)
    ensures s == {} || exists x :: x in s
  {
    if !exists x :: x in s {
      assert s == {};
    }
  }

  lemma {:induction false} HasMinimum(s: set<ServiceId>)
    requires s != {}
    ensures exists m :: m in s && forall x :: x in s ==> m <= x
  {
    EmptyOrNot(s);
    var a :| a in s;
    var rest := s - {a};
    if rest == {} {
      assert s == {a};
      assert a in s && forall x :: x in s ==> a <= x;
    } else {
      HasMinimum(rest);
      var b :| b in rest && forall x :: x in rest ==> b <= x;
      var m := if a <= b then a else b;
      assert m in s && forall x :: x in s ==> m <= x by {
        assert forall x :: x in s ==> x == a || x in rest;
      }
    }
  }

  ghost function Sorted(s: set<ServiceId>): (r: seq<ServiceId>)
    ensures IncreasingIds(r)
    ensures forall x :: x in r <==> x in s
  {
    if s == {} then []
    else
      HasMinimum(s);
      var m :| m in s && forall x :: x in s ==> m <= x;
      var rest := Sorted(s - {m});
      assert forall i :: 0 <= i < |rest| ==> rest[i] in rest;
      [m] + rest
  }

  /** Two increasing lists with the same elements are equal. */
  lemma {:induction false} IncreasingUnique(a: seq<ServiceId>, b: seq<ServiceId>)
    requires IncreasingIds(a) && IncreasingIds(b)
    requires forall x :: x in a <==> x in b
    ensures a == b
  {
    forall i | 0 <= i < |a|
      ensures a[i] in b
    {
      assert a[i] in a;
    }
    forall i | 0 <= i < |b|
      ensures b[i] in a
    {
      assert b[i] in b;
    }
    assert b != [] ==> b[0] in a;
    assert a != [] ==> a[0] in b;
    if a != [] {
      assert a[|a| - 1] in a;
      assert a[|a| - 1] in b;
      var k := |b| - 1;
      assert b[k] in b;
      assert b[k] in a;
      assert a[|a| - 1] == b[k];
      var a', b' := a[..|a| - 1], b[..k];
      forall x
        ensures x in a' <==> x in b'
      {
        if x in a' {
          assert x in b;
        }
        if x in b' {
          assert x in a;
        }
      }
      IncreasingUnique(a', b');
      assert a == a' + [a[|a| - 1]] && b == b' + [b[k]];
    }
  }

  /** A merged list is the canonical list of its ids. */
  lemma MergedIsSorted(services: seq<Service>, ids: set<ServiceId>, own: set<ServiceId>, idx: nat)
    requires Merged(services, ids, own, idx)
    ensures Ids(services) == Sorted(ids)
  {
    var a := Ids(services);
    forall x
      ensures x in a <==> x in Sorted(ids)
    {
      if x in a {
        var i :| 0 <= i < |a| && a[i] == x;
        assert services[i].id == x;
        assert HasService(services, x);
      }
      if x in Sorted(ids) {
        assert HasService(services, x);
        var i :| 0 <= i < |services| && services[i].id == x;
        assert a[i] == x;
      }
    }
    IncreasingUnique(a, Sorted(ids));
  }
}
