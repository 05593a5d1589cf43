/** The order in which map iterators return keys, and the merge of two sorted key
    lists by which exec/cfg.c finds deleted entries. */
module KeyOrder {
  import opened Wrappers
  import opened Icmap

  /** `strcmp` of two keys: negative, zero or positive. */
  function StrCmp(a: Key, b: Key): int {
    if a == [] then (if b == [] then 0 else -1)
    else if b == [] then 1
    else if a[0] < b[0] then -1
    else if a[0] > b[0] then 1
    else StrCmp(a[1..], b[1..])
  }

  predicate Less(a: Key, b: Key) {
    StrCmp(a, b) < 0
  }

  lemma {:induction false} CmpSign(a: Key, b: Key)
    ensures StrCmp(a, b) == 0 <==> a == b
    ensures StrCmp(a, b) > 0 <==> Less(b, a)
  {
    if a != [] && b != [] && a[0] == b[0] {
      CmpSign(a[1..], b[1..]);
      assert a == [a[0]] + a[1..] && b == [b[0]] + b[1..];
    }
  }

  lemma {:induction false} LessTrans(a: Key, b: Key, c: Key)
    requires Less(a, b) && Less(b, c)
    ensures Less(a, c)
  {
    if a != [] && b != [] && c != [] && a[0] == b[0] == c[0] {
      LessTrans(a[1..], b[1..], c[1..]);
    }
  }

  /** The order of bytes: at the first difference, or by length if there is none. */
  lemma {:induction false} LessMeans(a: Key, b: Key)
    ensures Less(a, b) <==> exists i :: Differ(a, b, i)
  {
    if a == [] || b == [] || a[0] != b[0] {
      if Less(a, b) {
        assert Differ(a, b, 0);
      }
    } else {
      LessMeans(a[1..], b[1..]);
      if Less(a, b) {
        var i :| Differ(a[1..], b[1..], i);
        assert Differ(a, b, i + 1);
      }
      if exists i :: Differ(a, b, i) {
        var i :| Differ(a, b, i);
        assert Differ(a[1..], b[1..], i - 1);
      }
    }
  }

  /** The keys are the same up to `i`, where the first one ends or has the smaller byte. */
  ghost predicate Differ(a: Key, b: Key, i: int) {
    && 0 <= i <= |a| && i < |b|
    && (forall j :: 0 <= j < i ==> a[j] == b[j])
    && (i == |a| || a[i] < b[i])
  }

  ghost predicate Increasing(keys: seq<Key>) {
    forall i, j :: 0 <= i < j < |keys| ==> Less(keys[i], keys[j])
  }

  /** `nullcheck_strcmp`: an exhausted list counts as smaller. */
  function NullCheckStrcmp(left: Option<Key>, right: Option<Key>): int {
    if left.None? && right.Some? then -1
    else if left.Some? && right.None? then 1
    else if left.None? && right.None? then 0
    else StrCmp(left.value, right.value)
  }

  /** What an iterator returns after `i` calls; it keeps returning nothing at the end. */
  function Next(keys: seq<Key>, i: nat): Option<Key> {
    if i < |keys| then Some(keys[i]) else None
  }

  // ---- iterators ----

  function IsPrefix(prefix: Key, k: Key): bool {
    prefix <= k
  }

  /** A key has a prefix if and only if it is the prefix and something behind it. */
  lemma PrefixMeans(prefix: Key, k: Key)
    ensures IsPrefix(prefix, k) <==> exists rest :: k == prefix + rest
    ensures IsPrefix(prefix, k) <==> |prefix| <= |k| && forall i :: 0 <= i < |prefix| ==> k[i] == prefix[i]
  {
    if IsPrefix(prefix, k) {
      assert k == prefix + k[|prefix|..];
    }
  }

  /** The keys an iterator returns: all keys with the prefix, in order. */
  ghost predicate IsIteration(items: map<Key, Item>, prefix: Key, keys: seq<Key>) {
    && Increasing(keys)
    && forall k :: k in keys <==> k in items && IsPrefix(prefix, k)
  }

  /** Insert a key at its place. */
  method InsertKey(keys: seq<Key>, k: Key) returns (r: seq<Key>)
    requires Increasing(keys) && k !in keys
    ensures Increasing(r) && forall x :: x in r <==> x in keys || x == k
  {
    var i := 0;
    while i < |keys| && StrCmp(keys[i], k) < 0
      invariant 0 <= i <= |keys|
      invariant forall j :: 0 <= j < i ==> Less(keys[j], k)
    {
      i := i + 1;
    }
    r := keys[..i] + [k] + keys[i..];
    forall j | i <= j < |keys|
      ensures Less(k, keys[j])
    {
      CmpSign(keys[i], k);
      if i < j {
        LessTrans(k, keys[i], keys[j]);
      }
    }
  }

  /** `icmap_iter_init_r` and `icmap_iter_next` until the end. */
  method Iterate(items: map<Key, Item>, prefix: Key) returns (keys: seq<Key>)
    ensures IsIteration(items, prefix, keys)
  {
    var todo := set k | k in items && IsPrefix(prefix, k);
    ghost var all := todo;
    keys := [];
    while todo != {}
      invariant todo <= all && Increasing(keys)
      invariant forall k :: k in keys <==> k in all && k !in todo
      decreases |todo|
    {
      var k :| k in todo;
      keys := InsertKey(keys, k);
      todo := todo - {k};
    }
  }

  // ---- the merge ----

  /** The two lists split at the iterators: what was returned is below what is left. */
  ghost predicate Below(a: seq<Key>, i: nat, b: seq<Key>, j: nat) {
    forall x, y :: 0 <= x < i && x < |a| && j <= y < |b| ==> Less(a[x], b[y])
  }

  ghost predicate Merging(olds: seq<Key>, o: nat, news: seq<Key>, n: nat) {
    o <= |olds| && n <= |news| && Below(olds, o, news, n) && Below(news, n, olds, o)
  }

  /** The keys among the first `o` old ones that have no new counterpart. */
  ghost function Gone(olds: seq<Key>, o: nat, news: seq<Key>): set<Key>
    requires o <= |olds|
  {
    set k | k in olds[..o] && k !in news
  }

  /** A smaller old key is in no place of the new list, and can be passed. */
  lemma PassOld(olds: seq<Key>, o: nat, news: seq<Key>, n: nat)
    requires Increasing(olds) && Increasing(news) && Merging(olds, o, news, n)
    requires o < |olds| && (n < |news| ==> Less(olds[o], news[n]))
    ensures Merging(olds, o + 1, news, n)
    ensures Gone(olds, o + 1, news) == Gone(olds, o, news) + {olds[o]} && olds[o] !in Gone(olds, o, news)
  {
    CmpSign(olds[o], olds[o]);
    forall y | n <= y < |news|
      ensures Less(olds[o], news[y])
    {
      if n < y {
        LessTrans(olds[o], news[n], news[y]);
      }
    }
    forall y | 0 <= y < |news|
      ensures news[y] != olds[o]
    {
      CmpSign(news[y], olds[o]);
      CmpSign(olds[o], news[y]);
    }
    assert olds[..o + 1] == olds[..o] + [olds[o]];
  }

  /** A smaller new key can be passed. */
  lemma PassNew(olds: seq<Key>, o: nat, news: seq<Key>, n: nat)
    requires Increasing(olds) && Increasing(news) && Merging(olds, o, news, n)
    requires n < |news| && (o < |olds| ==> Less(news[n], olds[o]))
    ensures Merging(olds, o, news, n + 1)
  {
    forall y | o <= y < |olds|
      ensures Less(news[n], olds[y])
    {
      if o < y {
        LessTrans(news[n], olds[o], olds[y]);
      }
    }
  }

  /** Equal keys are passed together. */
  lemma PassBoth(olds: seq<Key>, o: nat, news: seq<Key>, n: nat)
    requires Increasing(olds) && Increasing(news) && Merging(olds, o, news, n)
    requires o < |olds| && n < |news| && olds[o] == news[n]
    ensures Merging(olds, o + 1, news, n + 1)
    ensures Gone(olds, o + 1, news) == Gone(olds, o, news)
  {
    assert olds[..o + 1] == olds[..o] + [olds[o]];
  }

  /** The iterators stand on these keys. */
  ghost predicate Standing(olds: seq<Key>, o: nat, news: seq<Key>, n: nat, oldKey: Option<Key>, newKey: Option<Key>) {
    Merging(olds, o, news, n) && oldKey == Next(olds, o) && newKey == Next(news, n)
  }

  lemma Compared(olds: seq<Key>, o: nat, news: seq<Key>, n: nat, oldKey: Option<Key>, newKey: Option<Key>)
    requires Standing(olds, o, news, n, oldKey, newKey)
    ensures var ret := NullCheckStrcmp(oldKey, newKey);
            && (ret < 0 && oldKey.Some? ==> o < |olds| && n < |news| && Less(olds[o], news[n]))
            && (ret > 0 && newKey.Some? ==> o < |olds| && n < |news| && Less(news[n], olds[o]))
            && (ret == 0 <==> oldKey == newKey)
  {
    if o < |olds| && n < |news| {
      CmpSign(olds[o], news[n]);
    }
  }

  /** The first inner loop: delete old keys until the old one is not smaller. */
  method DeleteSmaller(live: Map, olds: seq<Key>, o: nat, news: seq<Key>, n: nat, oldKey: Option<Key>,
                       newKey: Option<Key>)
    returns (o': nat, oldKey': Option<Key>, ret: int)
    requires MapOk(live.items) && Increasing(olds) && Increasing(news)
    requires Standing(olds, o, news, n, oldKey, newKey)
    requires o < |olds| && (n < |news| ==> Less(olds[o], news[n]))
    modifies live
    ensures MapOk(live.items) && o < o' && Standing(olds, o', news, n, oldKey', newKey)
    ensures ret == NullCheckStrcmp(oldKey', newKey)
    ensures live.items == old(live.items) - (Gone(olds, o', news) - Gone(olds, o, news))
  {
    hide MapOk, Increasing, Below, StrCmp, Less;
    ghost var before, gone := live.items, Gone(olds, o, news);
    o', oldKey', ret := o, oldKey, -1;
    var again := true;
    while again
      invariant again ==> o' < |olds| && (n < |news| ==> Less(olds[o'], news[n]))
      invariant MapOk(live.items) && Standing(olds, o', news, n, oldKey', newKey)
      invariant o <= o' && (!again ==> o < o' && ret == NullCheckStrcmp(oldKey', newKey))
      invariant live.items == before - (Gone(olds, o', news) - gone)
      decreases again, |olds| - o'
    {
      PassOld(olds, o', news, n);
      DeleteGone(before, gone, olds, o', news);
      var _ := live.Delete(oldKey'.value);
      o' := o' + 1;
      oldKey' := Next(olds, o');
      ret := NullCheckStrcmp(oldKey', newKey);
      Compared(olds, o', news, n, oldKey', newKey);
      again := ret < 0 && oldKey'.Some?;
    }
  }

  /** The second inner loop: pass new keys until the new one is not smaller. */
  method PassSmaller(olds: seq<Key>, o: nat, news: seq<Key>, n: nat, oldKey: Option<Key>, newKey: Option<Key>)
    returns (n': nat, newKey': Option<Key>, ret: int)
    requires Increasing(olds) && Increasing(news)
    requires Standing(olds, o, news, n, oldKey, newKey)
    requires n < |news| && (o < |olds| ==> Less(news[n], olds[o]))
    ensures n < n' && Standing(olds, o, news, n', oldKey, newKey')
    ensures ret == NullCheckStrcmp(oldKey, newKey')
  {
    hide Increasing, Below, StrCmp, Less;
    n', newKey', ret := n, newKey, 1;
    var again := true;
    while again
      invariant again ==> n' < |news| && (o < |olds| ==> Less(news[n'], olds[o]))
      invariant Standing(olds, o, news, n', oldKey, newKey')
      invariant n <= n' && (!again ==> n < n' && ret == NullCheckStrcmp(oldKey, newKey'))
      decreases again, |news| - n'
    {
      PassNew(olds, o, news, n');
      n' := n' + 1;
      newKey' := Next(news, n');
      ret := NullCheckStrcmp(oldKey, newKey');
      Compared(olds, o, news, n', oldKey, newKey');
      again := ret > 0 && newKey'.Some?;
    }
  }

  /** `remove_deleted_entries`: with any two sorted lists it terminates and deletes
      exactly the old keys that are not new. */
  method RemoveDeletedEntries(live: Map, olds: seq<Key>, news: seq<Key>)
    requires MapOk(live.items) && Increasing(olds) && Increasing(news)
    modifies live
    ensures MapOk(live.items)
    ensures live.items == old(live.items) - (set k | k in olds && k !in news)
  {
    hide MapOk, Increasing, StrCmp, Less, Below, Gone;
    ghost var before := live.items;
    var o, n := 0, 0;
    MergeStart(before, olds, news);
    var oldKey, newKey := Next(olds, o), Next(news, n);
    while oldKey.Some? || newKey.Some?
      invariant Standing(olds, o, news, n, oldKey, newKey) && MapOk(live.items)
      invariant live.items == before - Gone(olds, o, news)
      decreases |olds| - o + |news| - n
    {
      var ret := NullCheckStrcmp(oldKey, newKey);
      Compared(olds, o, news, n, oldKey, newKey);
      ghost var o0 := o;
      if (ret < 0 && oldKey.Some?) || newKey.None? {
        o, oldKey, ret := DeleteSmaller(live, olds, o, news, n, oldKey, newKey);
        GoneGrows(before, olds, o0, o, news);
      } else if (ret > 0 && newKey.Some?) || oldKey.None? {
        n, newKey, ret := PassSmaller(olds, o, news, n, oldKey, newKey);
      }
      Compared(olds, o, news, n, oldKey, newKey);
      if ret == 0 {
        if oldKey.Some? {
          PassBoth(olds, o, news, n);
          o, n := o + 1, n + 1;
        }
        newKey := Next(news, n);
        oldKey := Next(olds, o);
      }
    }
    MergeEnd(olds, news);
  }

  lemma GoneGrows(items: map<Key, Item>, olds: seq<Key>, o: nat, o': nat, news: seq<Key>)
    requires o <= o' <= |olds|
    ensures items - Gone(olds, o, news) - (Gone(olds, o', news) - Gone(olds, o, news)) == items - Gone(olds, o', news)
  {
    assert olds[..o] == olds[..o'][..o];
    assert Gone(olds, o, news) <= Gone(olds, o', news);
  }

  lemma MergeEnd(olds: seq<Key>, news: seq<Key>)
    ensures Gone(olds, |olds|, news) == set k | k in olds && k !in news
  {
    assert olds[..|olds|] == olds;
  }

  lemma MergeStart(items: map<Key, Item>, olds: seq<Key>, news: seq<Key>)
    ensures Merging(olds, 0, news, 0) && items - Gone(olds, 0, news) == items
  {
  }

  lemma DeleteGone(items: map<Key, Item>, gone: set<Key>, olds: seq<Key>, o: nat, news: seq<Key>)
    requires o < |olds| && gone <= Gone(olds, o, news) && olds[o] !in gone
    requires Gone(olds, o + 1, news) == Gone(olds, o, news) + {olds[o]}
    ensures items - (Gone(olds, o, news) - gone) - {olds[o]} == items - (Gone(olds, o + 1, news) - gone)
  {
  }
}
