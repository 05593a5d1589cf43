/** The configuration reload of exec/cfg.c on its success path: entries deleted from
    the file are removed, entries that cannot change at run time are held back, and
    the rest of the new file is copied into the live map. */
module ConfigReload {
  import opened Wrappers
  import opened Bytes
  import opened Icmap
  import opened KeyOrder

  type Items = map<Key, Item>

  const RELOADED: seq<Key> := ["logging.", "totem.", "nodelist.", "quorum.", "uidgid.config.", "nozzle."]

  const CRYPTO_KEYS: seq<Key> :=
    ["totem.secauth", "totem.crypto_hash", "totem.crypto_cipher", "totem.keyfile", "totem.key"]

  const FIXED_KEYS: seq<Key> :=
    ["totem.version", "totem.threads", "totem.ip_version", "totem.ip_dscp", "totem.netmtu",
     "totem.interface.bindnetaddr", "totem.interface.mcastaddr", "totem.interface.broadcast",
     "totem.interface.mcastport", "totem.interface.ttl", "totem.transport", "totem.cluster_name",
     "quorum.provider", "system.move_to_root_cgroup", "system.allow_knet_handle_fallback",
     "system.sched_rr", "system.priority", "system.qb_ipc_type", "system.state_dir"]

  /** The keys that `remove_ro_entries` guards; those of the encryption only when the
      transport cannot change them. */
  function ReadOnly(cryptoReconf: bool): seq<Key> {
    (if cryptoReconf then [] else CRYPTO_KEYS) + FIXED_KEYS
  }

  const ERROR_MESSAGE: Key := "config.reload_error_message"
  const TOTEM_IN_PROGRESS: Key := "config.totemconfig_reload_in_progress"
  const IN_PROGRESS: Key := "config.reload_in_progress"
  const RELOAD_STATUS: Key := "config.reload_status"

  /** The keys by which a reload reports on itself. */
  predicate Bookkeeping(k: Key) {
    k == ERROR_MESSAGE || k == TOTEM_IN_PROGRESS || k == IN_PROGRESS || k == RELOAD_STATUS
  }

  predicate UnderReloaded(k: Key, n: nat)
    requires n <= |RELOADED|
  {
    exists i :: 0 <= i < n && IsPrefix(RELOADED[i], k)
  }

  // ---- removing deleted entries ----

  /** The live map without the keys under the first `n` prefixes that the file lacks. */
  ghost function Pruned(live: Items, file: Items, n: nat): Items
    requires n <= |RELOADED|
  {
    map k | k in live && !(UnderReloaded(k, n) && k !in file) :: live[k]
  }

  lemma PrunedNext(live: Items, file: Items, n: nat, olds: seq<Key>, news: seq<Key>)
    requires n < |RELOADED|
    requires IsIteration(Pruned(live, file, n), RELOADED[n], olds) && IsIteration(file, RELOADED[n], news)
    ensures Pruned(live, file, n) - (set k | k in olds && k !in news) == Pruned(live, file, n + 1)
  {
    var a, b := Pruned(live, file, n) - (set k | k in olds && k !in news), Pruned(live, file, n + 1);
    forall k
      ensures k in a <==> k in b
    {
      assert UnderReloaded(k, n + 1) <==> UnderReloaded(k, n) || IsPrefix(RELOADED[n], k);
    }
  }

  method RemoveDeleted(live: Map, temp: Map)
    requires live != temp && MapOk(live.items) && MapOk(temp.items)
    modifies live
    ensures MapOk(live.items) && live.items == Pruned(old(live.items), temp.items, |RELOADED|)
  {
    hide MapOk, IsIteration, Pruned;
    ghost var before := live.items;
    PrunedNone(before, temp.items);
    var n := 0;
    while n < |RELOADED|
      invariant 0 <= n <= |RELOADED| && MapOk(live.items)
      invariant live.items == Pruned(before, temp.items, n)
    {
      var olds := Iterate(live.items, RELOADED[n]);
      var news := Iterate(temp.items, RELOADED[n]);
      PrunedNext(before, temp.items, n, olds, news);
      IterationIncreasing(live.items, RELOADED[n], olds);
      IterationIncreasing(temp.items, RELOADED[n], news);
      RemoveDeletedEntries(live, olds, news);
      n := n + 1;
    }
  }

  lemma IterationIncreasing(items: Items, prefix: Key, keys: seq<Key>)
    requires IsIteration(items, prefix, keys)
    ensures Increasing(keys)
  {
  }

  lemma PrunedNone(live: Items, file: Items)
    ensures Pruned(live, file, 0) == live
  {
  }

  // ---- read-only entries ----

  /** The file without the first `n` guarded keys whose value is not the live one. */
  ghost function Guarded(file: Items, live: Items, ro: seq<Key>): Items {
    map k | k in file && !(k in ro && Lookup(live, k) != Some(file[k])) :: file[k]
  }

  lemma GuardedNext(file: Items, live: Items, ro: seq<Key>, i: nat)
    requires i < |ro|
    ensures var g := Guarded(file, live, ro[..i]);
            Guarded(file, live, ro[..i + 1]) ==
            if ro[i] in g && ro[i] in live && g[ro[i]] == live[ro[i]] then g else g - {ro[i]}
  {
    assert ro[..i + 1] == ro[..i] + [ro[i]];
  }

  /** `delete_and_notify_if_changed`. */
  method DeleteIfChanged(temp: Map, live: Map, key: Key)
    requires live != temp && MapOk(live.items) && MapOk(temp.items)
    modifies temp
    ensures MapOk(temp.items)
    ensures var t := old(temp.items);
            temp.items == if key in t && key in live.items && t[key] == live.items[key] then t else t - {key}
  {
    var eq := temp.KeyValueEq(key, live);
    if !eq {
      var _ := temp.Delete(key);
    }
  }

  /** `remove_ro_entries`. */
  method RemoveRoEntries(temp: Map, live: Map, cryptoReconf: bool)
    requires live != temp && MapOk(live.items) && MapOk(temp.items)
    modifies temp
    ensures MapOk(temp.items) && temp.items == Guarded(old(temp.items), live.items, ReadOnly(cryptoReconf))
  {
    hide MapOk, Guarded, ReadOnly;
    ghost var file := temp.items;
    var ro := ReadOnly(cryptoReconf);
    GuardedNone(file, live.items, ro);
    var i := 0;
    while i < |ro|
      invariant 0 <= i <= |ro| && MapOk(temp.items)
      invariant temp.items == Guarded(file, live.items, ro[..i])
    {
      GuardedNext(file, live.items, ro, i);
      DeleteIfChanged(temp, live, ro[i]);
      i := i + 1;
    }
    assert ro[..|ro|] == ro;
  }

  lemma GuardedNone(file: Items, live: Items, ro: seq<Key>)
    ensures Guarded(file, live, ro[..0]) == file
  {
  }

  // ---- the composition ----

  /** What a reload does to a key, from the old live map and the new file. */
  ghost function Expected(live: Items, file: Items, k: Key, cryptoReconf: bool): Option<Item> {
    if k in file then
      if k in ReadOnly(cryptoReconf) then Lookup(live, k) else Some(file[k])
    else if UnderReloaded(k, |RELOADED|) then None
    else Lookup(live, k)
  }

  /** Pruning, guarding and copying, in this order, do what is expected of every key. */
  lemma Composition(live: Items, file: Items, cryptoReconf: bool, k: Key)
    ensures Lookup(Reloaded(live, file, cryptoReconf), k) == Expected(live, file, k, cryptoReconf)
  {
  }

  /** Guarding before pruning gives the same. */
  lemma OrderDoesNotMatter(live: Items, file: Items, cryptoReconf: bool)
    ensures Guarded(file, Pruned(live, file, |RELOADED|), ReadOnly(cryptoReconf))
            == Guarded(file, live, ReadOnly(cryptoReconf))
  {
  }

  // ---- the same, spelled out ----

  /** A key of one of the sections that are reloaded. */
  ghost predicate InSection(k: Key) {
    || "logging." <= k || "totem." <= k || "nodelist." <= k
    || "quorum." <= k || "uidgid.config." <= k || "nozzle." <= k
  }

  lemma SectionsSpelled(k: Key)
    ensures UnderReloaded(k, |RELOADED|) <==> InSection(k)
    ensures InSection(k) ==> !Bookkeeping(k)
  {
    hide IsPrefix;
    forall i | 0 <= i < |RELOADED|
      ensures IsPrefix(RELOADED[i], k) <==> RELOADED[i] <= k
    {
      PrefixMeans(RELOADED[i], k);
    }
    assert RELOADED[0] == "logging." && RELOADED[1] == "totem." && RELOADED[2] == "nodelist.";
    assert RELOADED[3] == "quorum." && RELOADED[4] == "uidgid.config." && RELOADED[5] == "nozzle.";
    FirstLetters();
    if InSection(k) {
      assert k[0] == 'l' || k[0] == 't' || k[0] == 'n' || k[0] == 'q' || k[0] == 'u';
    }
  }

  lemma SectionsHold(rest: Key)
    ensures InSection("logging." + rest) && InSection("totem." + rest) && InSection("nodelist." + rest)
    ensures InSection("quorum." + rest) && InSection("uidgid.config." + rest) && InSection("nozzle." + rest)
  {
  }

  /** The keys whose change a reload refuses, without and with the means to change the
      encryption of a running cluster. */
  lemma GuardedSpelled(k: Key)
    ensures k in ReadOnly(true) <==>
            k in {"totem.version", "totem.threads", "totem.ip_version", "totem.ip_dscp", "totem.netmtu",
                  "totem.interface.bindnetaddr", "totem.interface.mcastaddr", "totem.interface.broadcast",
                  "totem.interface.mcastport", "totem.interface.ttl", "totem.transport", "totem.cluster_name",
                  "quorum.provider", "system.move_to_root_cgroup", "system.allow_knet_handle_fallback",
                  "system.sched_rr", "system.priority", "system.qb_ipc_type", "system.state_dir"}
    ensures k in ReadOnly(false) <==>
            || k in ReadOnly(true)
            || k in {"totem.secauth", "totem.crypto_hash", "totem.crypto_cipher", "totem.keyfile", "totem.key"}
  {
    assert ReadOnly(true) == FIXED_KEYS;
  }

  /** What the sections are before and after a reload of a file. */
  ghost predicate SectionsReloaded(before: Items, file: Items, after: Items) {
    && (forall rest ::
          && ("logging." + rest !in file ==> "logging." + rest !in after)
          && ("totem." + rest !in file ==> "totem." + rest !in after)
          && ("nodelist." + rest !in file ==> "nodelist." + rest !in after)
          && ("quorum." + rest !in file ==> "quorum." + rest !in after)
          && ("uidgid.config." + rest !in file ==> "uidgid.config." + rest !in after)
          && ("nozzle." + rest !in file ==> "nozzle." + rest !in after))
    && (forall k :: !InSection(k) && !Bookkeeping(k) && k !in file ==> Lookup(after, k) == Lookup(before, k))
  }

  lemma ReloadSpelled(before: Items, file: Items, after: Items, cryptoReconf: bool)
    requires forall k :: !Bookkeeping(k) ==> Lookup(after, k) == Expected(before, file, k, cryptoReconf)
    ensures SectionsReloaded(before, file, after)
  {
    hide Bookkeeping, InSection, UnderReloaded, ReadOnly;
    forall k
      ensures InSection(k) && k !in file ==> k !in after
      ensures !InSection(k) && !Bookkeeping(k) && k !in file ==> Lookup(after, k) == Lookup(before, k)
    {
      SectionsSpelled(k);
    }
    forall rest {
      SectionsHold(rest);
    }
  }

  /** What is copied, and the live map after pruning and copying. */
  ghost function Staged(live: Items, file: Items, cryptoReconf: bool): Items {
    Guarded(file, Pruned(live, file, |RELOADED|), ReadOnly(cryptoReconf))
  }

  ghost function Reloaded(live: Items, file: Items, cryptoReconf: bool): Items {
    Pruned(live, file, |RELOADED|) + Staged(live, file, cryptoReconf)
  }

  /** A second reload of the same file copies the same entries, so it succeeds as the
      first did, and changes nothing. */
  lemma ReloadTwice(live: Items, file: Items, cryptoReconf: bool)
    ensures var once := Reloaded(live, file, cryptoReconf);
            && Staged(once, file, cryptoReconf) == Staged(live, file, cryptoReconf)
            && Reloaded(once, file, cryptoReconf) == once
  {
    hide ReadOnly;
    var once := Reloaded(live, file, cryptoReconf);
    OrderDoesNotMatter(live, file, cryptoReconf);
    OrderDoesNotMatter(once, file, cryptoReconf);
    forall k
      ensures Lookup(once, k) == Expected(live, file, k, cryptoReconf)
      ensures Lookup(Reloaded(once, file, cryptoReconf), k) == Expected(once, file, k, cryptoReconf)
    {
      Composition(live, file, cryptoReconf, k);
      Composition(once, file, cryptoReconf, k);
    }
    SameItems(Reloaded(once, file, cryptoReconf), once);
  }

  lemma SameItems(a: Items, b: Items)
    requires forall k :: Lookup(a, k) == Lookup(b, k)
    ensures a == b
  {
    forall k
      ensures k in a <==> k in b
    {
      assert Lookup(a, k) == Lookup(b, k);
    }
    forall k | k in a
      ensures a[k] == b[k]
    {
      assert Lookup(a, k) == Lookup(b, k);
    }
  }

  method SetUint8(live: Map, key: Key, n: Byte)
    requires MapOk(live.items) && NameOk(key)
    modifies live
    ensures MapOk(live.items) && live.items == old(live.items)[key := Item(UINT8, [n])]
  {
    var _ := live.Set(key, [n], 1, UINT8);
    assert [n][..1] == [n];
  }

  method SetInt32(live: Map, key: Key, n: Byte)
    requires MapOk(live.items) && NameOk(key)
    modifies live
    ensures MapOk(live.items) && live.items == old(live.items)[key := Item(INT32, [n, 0, 0, 0])]
  {
    var _ := live.Set(key, [n, 0, 0, 0], 4, INT32);
    assert [n, 0, 0, 0][..4] == [n, 0, 0, 0];
  }

  /** The result codes as `config.reload_status` shows them. */
  function Code(status: Status): Byte {
    match status
    case OK => 1
    case INVALID_PARAM => 7
    case NOT_EXIST => 12
    case NAME_TOO_LONG => 13
  }

  /** Two maps agree on all keys but those of the reload itself. */
  ghost predicate Agree(a: Items, b: Items) {
    forall k :: !Bookkeeping(k) ==> Lookup(a, k) == Lookup(b, k)
  }

  lemma ReadOnlyIsNoBookkeeping(k: Key, cryptoReconf: bool)
    requires k in ReadOnly(cryptoReconf)
    ensures !Bookkeeping(k)
  {
    FirstLetters();
    assert k in CRYPTO_KEYS || k in FIXED_KEYS;
  }

  lemma FirstLetters()
    ensures forall i :: 0 <= i < |CRYPTO_KEYS| ==> CRYPTO_KEYS[i] != [] && CRYPTO_KEYS[i][0] != 'c'
    ensures forall i :: 0 <= i < |FIXED_KEYS| ==> FIXED_KEYS[i] != [] && FIXED_KEYS[i][0] != 'c'
    ensures ERROR_MESSAGE[0] == TOTEM_IN_PROGRESS[0] == IN_PROGRESS[0] == RELOAD_STATUS[0] == 'c'
  {
  }

  /** What the reload reports on itself does not influence it. */
  lemma ExpectedAgrees(a: Items, b: Items, file: Items, cryptoReconf: bool)
    requires Agree(a, b)
    ensures forall k :: !Bookkeeping(k) ==> Expected(a, file, k, cryptoReconf) == Expected(b, file, k, cryptoReconf)
    ensures Guarded(file, a, ReadOnly(cryptoReconf)) == Guarded(file, b, ReadOnly(cryptoReconf))
  {
    hide Bookkeeping, UnderReloaded, ReadOnly;
    forall k | k in ReadOnly(cryptoReconf)
      ensures Lookup(a, k) == Lookup(b, k)
    {
      ReadOnlyIsNoBookkeeping(k, cryptoReconf);
    }
  }

  /** No value is too long to be copied. */
  ghost predicate Fits(items: Items) {
    forall k :: k in items ==> |items[k].value| <= MAX_VALUE_LEN
  }

  lemma ReportKeys()
    ensures NameOk(TOTEM_IN_PROGRESS) && NameOk(IN_PROGRESS) && NameOk(RELOAD_STATUS)
    ensures TOTEM_IN_PROGRESS != IN_PROGRESS && IN_PROGRESS != RELOAD_STATUS && RELOAD_STATUS != TOTEM_IN_PROGRESS
  {
    assert |TOTEM_IN_PROGRESS| == 37 && |IN_PROGRESS| == 25 && |RELOAD_STATUS| == 20;
  }

  method Begin(live: Map)
    requires MapOk(live.items)
    modifies live
    ensures MapOk(live.items) && Agree(live.items, old(live.items))
  {
    ReportKeys();
    hide NameOk, MapOk;
    var _ := live.Delete(ERROR_MESSAGE);
    SetUint8(live, TOTEM_IN_PROGRESS, 1);
    SetUint8(live, IN_PROGRESS, 1);
  }

  method End(live: Map, status: Status)
    requires MapOk(live.items)
    modifies live
    ensures MapOk(live.items) && Agree(live.items, old(live.items))
    ensures Lookup(live.items, RELOAD_STATUS) == Some(Item(INT32, [Code(status), 0, 0, 0]))
    ensures Lookup(live.items, IN_PROGRESS) == Lookup(live.items, TOTEM_IN_PROGRESS) == Some(Item(UINT8, [0]))
  {
    ReportKeys();
    hide NameOk, MapOk;
    SetInt32(live, RELOAD_STATUS, Code(status));
    SetUint8(live, TOTEM_IN_PROGRESS, 0);
    SetUint8(live, IN_PROGRESS, 0);
  }

  /** An iteration over a whole map copies the whole map, unless a value is too long. */
  lemma CopiedAll(items: Items, keys: seq<Key>)
    requires IsIteration(items, "", keys)
    ensures CopiedKeys(items, keys) == |keys| <==> Fits(items)
    ensures Fits(items) ==> Restrict(items, keys[..CopiedKeys(items, keys)]) == items
    ensures forall k :: k in keys ==> k in items
  {
    assert keys[..|keys|] == keys;
    if CopiedKeys(items, keys) == |keys| {
      forall k | k in items
        ensures |items[k].value| <= MAX_VALUE_LEN
      {
        assert k in keys;
      }
    }
  }

  /** The middle of a reload: remove, guard, copy. */
  method Swap(live: Map, temp: Map, cryptoReconf: bool) returns (status: Status)
    requires live != temp && MapOk(live.items) && MapOk(temp.items)
    modifies live, temp
    ensures MapOk(live.items)
    ensures var pruned := Pruned(old(live.items), old(temp.items), |RELOADED|);
            var staged := Guarded(old(temp.items), pruned, ReadOnly(cryptoReconf));
            && (status == OK <==> Fits(staged))
            && (status == OK ==> live.items == Reloaded(old(live.items), old(temp.items), cryptoReconf))
            && forall k :: Lookup(live.items, k) == Lookup(pruned, k) || Lookup(live.items, k) == Lookup(staged, k)
  {
    hide MapOk, Pruned, Guarded, CopiedKeys, IsIteration, Fits, Restrict, ReadOnly;
    RemoveDeleted(live, temp);
    RemoveRoEntries(temp, live, cryptoReconf);
    ghost var pruned, staged := live.items, temp.items;
    var keys := Iterate(temp.items, "");
    CopiedAll(staged, keys);
    status := live.CopyFrom(temp, keys);
    CopiedSome(pruned, staged, keys[..CopiedKeys(staged, keys)]);
  }

  lemma CopiedSome(dst: Items, src: Items, keys: seq<Key>)
    ensures forall k :: var r := Lookup(dst + Restrict(src, keys), k); r == Lookup(dst, k) || r == Lookup(src, k)
  {
  }

  /** `message_handler_req_exec_cfg_reload_config` once the new file is in the staging
      map and nothing is found wrong with it. It succeeds exactly when all values it
      has to copy are below the limit. */
  method Reload(live: Map, temp: Map, cryptoReconf: bool) returns (status: Status)
    requires live != temp && MapOk(live.items) && MapOk(temp.items)
    modifies live, temp
    ensures MapOk(live.items)
    ensures status == OK <==> Fits(Guarded(old(temp.items), old(live.items), ReadOnly(cryptoReconf)))
    ensures status == OK ==>
              forall k :: !Bookkeeping(k) ==>
                Lookup(live.items, k) == Expected(old(live.items), old(temp.items), k, cryptoReconf)
    ensures status == OK ==> SectionsReloaded(old(live.items), old(temp.items), live.items)
    ensures Lookup(live.items, "config.reload_status") == Some(Item(INT32, [Code(status), 0, 0, 0]))
    ensures Lookup(live.items, "config.reload_in_progress") == Some(Item(UINT8, [0]))
    ensures Lookup(live.items, "config.totemconfig_reload_in_progress") == Some(Item(UINT8, [0]))
  {
    hide MapOk, Pruned, Guarded, Fits, ReadOnly, Bookkeeping, Expected, SectionsReloaded;
    ghost var before, file := live.items, temp.items;
    Begin(live);
    ghost var started := live.items;
    ExpectedAgrees(started, before, file, cryptoReconf);
    OrderDoesNotMatter(started, file, cryptoReconf);
    status := Swap(live, temp, cryptoReconf);
    forall k
      ensures Lookup(Reloaded(started, file, cryptoReconf), k) == Expected(started, file, k, cryptoReconf)
    {
      Composition(started, file, cryptoReconf, k);
    }
    End(live, status);
    if status == OK {
      ReloadSpelled(before, file, live.items, cryptoReconf);
    }
  }
}
