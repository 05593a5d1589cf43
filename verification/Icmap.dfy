/** The configuration map of exec/icmap.c: typed values under checked key names. */
module Icmap {
  import opened Wrappers
  import opened Bytes

  type Key = string

  datatype ValueType =
    INT8 | UINT8 | INT16 | UINT16 | INT32 | UINT32 | INT64 | UINT64 | FLOAT | DOUBLE | STRING | BINARY

  datatype Item = Item(kind: ValueType, value: seq<Byte>)

  datatype Status = OK | INVALID_PARAM | NAME_TOO_LONG | NOT_EXIST

  const MAX_VALUE_LEN := 16 * 1024
  const KEYNAME_MINLEN := 3
  const KEYNAME_MAXLEN := 255

  predicate NameChar(c: char) {
    || 'a' <= c <= 'z' || 'A' <= c <= 'Z' || '0' <= c <= '9'
    || c == '.' || c == '_' || c == '-' || c == '/' || c == ':'
  }

  /** `icmap_check_key_name`. */
  predicate NameOk(key: Key) {
    KEYNAME_MINLEN <= |key| <= KEYNAME_MAXLEN && forall i :: 0 <= i < |key| ==> NameChar(key[i])
  }

  /** `icmap_get_valuetype_len`. */
  function TypeLen(t: ValueType): nat {
    match t
    case INT8 => 1 case UINT8 => 1
    case INT16 => 2 case UINT16 => 2
    case INT32 => 4 case UINT32 => 4
    case INT64 => 8 case UINT64 => 8
    case FLOAT => 4 case DOUBLE => 8
    case STRING => 0 case BINARY => 0
  }

  /** The names that are legal, spelled out. */
  lemma NamesSpelled(key: Key)
    ensures NameOk(key) <==>
            && 3 <= |key| <= 255
            && forall i :: 0 <= i < |key| ==>
                 || key[i] in "abcdefghijklmnopqrstuvwxyz" || key[i] in "ABCDEFGHIJKLMNOPQRSTUVWXYZ"
                 || key[i] in "0123456789" || key[i] in "._-/:"
    ensures NameOk("nodelist.node.0.ring0_addr")
  {
    hide NameChar;
    forall c {
      CharSpelled(c);
    }
    var name := "nodelist.node.0.ring0_addr";
    forall i | 0 <= i < |name|
      ensures NameChar(name[i])
    {
      NameExample(i);
    }
  }

  lemma NameExample(i: nat)
    requires i < |"nodelist.node.0.ring0_addr"|
    ensures NameChar("nodelist.node.0.ring0_addr"[i])
  {
  }

  lemma CharSpelled(c: char)
    ensures NameChar(c) <==>
            || c in "abcdefghijklmnopqrstuvwxyz" || c in "ABCDEFGHIJKLMNOPQRSTUVWXYZ"
            || c in "0123456789" || c in "._-/:"
  {
    Lower(c);
    Upper(c);
    Digit(c);
    Sign(c);
  }

  lemma Lower(c: char)
    ensures 'a' <= c <= 'z' <==> c in "abcdefghijklmnopqrstuvwxyz"
  {
    var s := "abcdefghijklmnopqrstuvwxyz";
    assert 'a' <= c <= 'z' ==> s[c as int - 'a' as int] == c;
  }

  lemma Upper(c: char)
    ensures 'A' <= c <= 'Z' <==> c in "ABCDEFGHIJKLMNOPQRSTUVWXYZ"
  {
    var s := "ABCDEFGHIJKLMNOPQRSTUVWXYZ";
    assert 'A' <= c <= 'Z' ==> s[c as int - 'A' as int] == c;
  }

  lemma Digit(c: char)
    ensures '0' <= c <= '9' <==> c in "0123456789"
  {
    var s := "0123456789";
    assert '0' <= c <= '9' ==> s[c as int - '0' as int] == c;
  }

  lemma Sign(c: char)
    ensures c == '.' || c == '_' || c == '-' || c == '/' || c == ':' <==> c in "._-/:"
  {
    var s := "._-/:";
    assert s[0] == '.' && s[1] == '_' && s[2] == '-' && s[3] == '/' && s[4] == ':';
  }

  /** `strlen`, in a buffer that holds a terminator. */
  function StrLen(buf: seq<Byte>): (n: nat)
    ensures n <= |buf|
    ensures forall i :: 0 <= i < n ==> buf[i] != 0
    ensures n < |buf| ==> buf[n] == 0
  {
    if buf == [] || buf[0] == 0 then 0 else 1 + StrLen(buf[1..])
  }

  /** What a caller has to pass: memory of the given length, or a C string. */
  predicate Readable(buf: seq<Byte>, len: nat, t: ValueType) {
    if t == STRING then StrLen(buf) < |buf| else len <= |buf|
  }

  /** `icmap_check_value_len`. */
  predicate LenOk(buf: seq<Byte>, len: nat, t: ValueType) {
    && len <= MAX_VALUE_LEN
    && match t
       case STRING => len <= StrLen(buf) + 1
       case BINARY => true
       case _ => len == TypeLen(t)
  }

  function Min(a: nat, b: nat): nat {
    if a < b then a else b
  }

  /** The item that `icmap_set_r` makes of its arguments. */
  function Stored(buf: seq<Byte>, len: nat, t: ValueType): Item
    requires Readable(buf, len, t) && LenOk(buf, len, t)
  {
    if t == STRING then Item(t, buf[..Min(StrLen(buf), len)] + [0]) else Item(t, buf[..len])
  }

  /** `icmap_item_eq`. */
  predicate ItemEq(item: Item, buf: seq<Byte>, len: nat, t: ValueType) {
    && item.kind == t
    && |item.value| == (if t == STRING then Min(StrLen(buf), len) + 1 else len)
    && len <= |item.value| && len <= |buf| && item.value[..len] == buf[..len]
  }

  /** Items as they are found in a map. */
  predicate ItemOk(item: Item) {
    match item.kind
    case STRING => |item.value| <= MAX_VALUE_LEN + 1 && StrLen(item.value) + 1 == |item.value|
    case BINARY => |item.value| <= MAX_VALUE_LEN
    case _ => |item.value| == TypeLen(item.kind)
  }

  /** Which lengths a value may have: the width of its type, or for a text without zero
      bytes at most its length and the terminator; never more than 16384. */
  lemma LengthsSpelled(text: seq<Byte>, len: nat)
    requires forall i :: 0 <= i < |text| ==> text[i] != 0
    ensures LenOk(text + [0], len, STRING) <==> len <= |text| + 1 && len <= 16384
    ensures LenOk(text, len, BINARY) <==> len <= 16384
    ensures (LenOk(text, len, INT8) <==> len == 1) && (LenOk(text, len, UINT8) <==> len == 1)
    ensures (LenOk(text, len, INT16) <==> len == 2) && (LenOk(text, len, UINT16) <==> len == 2)
    ensures (LenOk(text, len, INT32) <==> len == 4) && (LenOk(text, len, UINT32) <==> len == 4)
    ensures (LenOk(text, len, INT64) <==> len == 8) && (LenOk(text, len, UINT64) <==> len == 8)
    ensures (LenOk(text, len, FLOAT) <==> len == 4) && (LenOk(text, len, DOUBLE) <==> len == 8)
  {
    Terminated(text);
  }

  /** What is stored of a text of which `len` bytes are given. */
  lemma TextStored(text: seq<Byte>, len: nat)
    requires (forall i :: 0 <= i < |text| ==> text[i] != 0) && len <= 16384 && len <= |text| + 1
    ensures Readable(text + [0], len, STRING) && LenOk(text + [0], len, STRING)
    ensures Stored(text + [0], len, STRING) == Item(STRING, (if len < |text| then text[..len] else text) + [0])
  {
    Terminated(text);
    assert (text + [0])[..|text|] == text;
    assert len < |text| ==> (text + [0])[..len] == text[..len];
  }

  lemma StoredOk(buf: seq<Byte>, len: nat, t: ValueType)
    requires Readable(buf, len, t) && LenOk(buf, len, t)
    ensures ItemOk(Stored(buf, len, t))
  {
    if t == STRING {
      Terminated(buf[..Min(StrLen(buf), len)]);
    }
  }

  lemma {:induction false} Terminated(s: seq<Byte>)
    requires forall i :: 0 <= i < |s| ==> s[i] != 0
    ensures StrLen(s + [0]) == |s|
  {
    if s != [] {
      Terminated(s[1..]);
      assert (s + [0])[1..] == s[1..] + [0];
    }
  }

  /** The comparison that decides whether a value has changed is exact. */
  lemma EqIsIdentity(item: Item, buf: seq<Byte>, len: nat, t: ValueType)
    requires ItemOk(item) && Readable(buf, len, t) && LenOk(buf, len, t)
    ensures ItemEq(item, buf, len, t) <==> item == Stored(buf, len, t)
  {
    if t == STRING && ItemEq(item, buf, len, t) {
      var n := Min(StrLen(buf), len);
      assert item.value[..n] == item.value[..len][..n] == buf[..len][..n] == buf[..n];
      assert item.value == item.value[..n] + [item.value[n]];
    }
  }

  /** Comparing two items, as `icmap_key_value_eq` does. */
  lemma ItemsEq(a: Item, b: Item)
    requires ItemOk(a) && ItemOk(b)
    ensures ItemEq(a, b.value, |b.value|, b.kind) <==> a == b
  {
    if ItemEq(a, b.value, |b.value|, b.kind) {
      assert a.value[..|b.value|] == a.value && b.value[..|b.value|] == b.value;
    }
  }

  /** An item can be copied into another map unless it is one byte too long, and the
      copy is the item. */
  lemma CopyOfItem(item: Item)
    requires ItemOk(item)
    ensures Readable(item.value, |item.value|, item.kind)
    ensures LenOk(item.value, |item.value|, item.kind) <==> |item.value| <= MAX_VALUE_LEN
    ensures LenOk(item.value, |item.value|, item.kind) ==> Stored(item.value, |item.value|, item.kind) == item
  {
    var n := |item.value|;
    assert item.value[..n] == item.value;
    if item.kind == STRING {
      assert item.value == item.value[..n - 1] + [item.value[n - 1]];
    }
  }

  /** A string of 16384 characters can be set but not copied: its item, with the
      terminator, is over the limit that `icmap_set_r` checks. */
  lemma LongestStringIsNotCopied(s: seq<Byte>)
    requires |s| == MAX_VALUE_LEN && forall i :: 0 <= i < |s| ==> s[i] != 0
    ensures LenOk(s + [0], |s|, STRING) && Readable(s + [0], |s|, STRING)
    ensures var item := Stored(s + [0], |s|, STRING);
            ItemOk(item) && !LenOk(item.value, |item.value|, item.kind)
  {
    Terminated(s);
    StoredOk(s + [0], |s|, STRING);
    assert (s + [0])[..|s|] == s;
  }

  ghost predicate MapOk(items: map<Key, Item>) {
    forall k :: k in items ==> NameOk(k) && ItemOk(items[k])
  }

  function Lookup(items: map<Key, Item>, k: Key): Option<Item> {
    if k in items then Some(items[k]) else None
  }

  /** How many of the items under the keys are copied before one is too long. */
  function CopiedKeys(items: map<Key, Item>, keys: seq<Key>): (n: nat)
    ensures n <= |keys|
    ensures forall i :: 0 <= i < n && keys[i] in items ==> |items[keys[i]].value| <= MAX_VALUE_LEN
    ensures n < |keys| ==> keys[n] in items && |items[keys[n]].value| > MAX_VALUE_LEN
  {
    if keys == [] || (keys[0] in items && |items[keys[0]].value| > MAX_VALUE_LEN) then 0
    else 1 + CopiedKeys(items, keys[1..])
  }

  /** The entries of a map under some keys. */
  ghost function Restrict(items: map<Key, Item>, keys: seq<Key>): map<Key, Item> {
    map k | k in items && k in keys :: items[k]
  }

  class Map {
    var items: map<Key, Item>

    constructor ()
      ensures items == map[]
    {
      items := map[];
    }

    /** `icmap_set_r`: nothing is replaced when the value has not changed, which makes
        no difference to the map. */
    method Set(key: Key, buf: seq<Byte>, len: nat, t: ValueType) returns (status: Status)
      requires MapOk(items) && Readable(buf, len, t)
      modifies this
      ensures MapOk(items)
      ensures status == if !LenOk(buf, len, t) then INVALID_PARAM
                        else if key !in old(items) && !NameOk(key) then NAME_TOO_LONG else OK
      ensures status != OK ==> items == old(items)
      ensures status == OK ==> items == old(items)[key := Stored(buf, len, t)]
    {
      if !LenOk(buf, len, t) {
        return INVALID_PARAM;
      }
      StoredOk(buf, len, t);
      if key in items {
        EqIsIdentity(items[key], buf, len, t);
        if ItemEq(items[key], buf, len, t) {
          assert items == items[key := Stored(buf, len, t)];
          return OK;
        }
      } else if !NameOk(key) {
        return NAME_TOO_LONG;
      }
      items := items[key := Stored(buf, len, t)];
      return OK;
    }

    /** `icmap_delete_r`. */
    method Delete(key: Key) returns (status: Status)
      requires MapOk(items)
      modifies this
      ensures MapOk(items) && items == old(items) - {key}
      ensures status == if key in old(items) then OK else NOT_EXIST
    {
      if key !in items {
        assert items - {key} == items;
        return NOT_EXIST;
      }
      items := items - {key};
      return OK;
    }

    /** `icmap_key_value_eq`, for the same key of two maps. */
    method KeyValueEq(key: Key, other: Map) returns (eq: bool)
      requires MapOk(items) && MapOk(other.items)
      ensures eq <==> key in items && key in other.items && items[key] == other.items[key]
    {
      if key !in items || key !in other.items {
        return false;
      }
      var item := other.items[key];
      ItemsEq(items[key], item);
      return ItemEq(items[key], item.value, |item.value|, item.kind);
    }

    /** One round of `icmap_copy_map`: an item of another map is set here. */
    method CopyItem(key: Key, item: Item) returns (status: Status)
      requires MapOk(items) && NameOk(key) && ItemOk(item)
      modifies this
      ensures MapOk(items)
      ensures status == if |item.value| <= MAX_VALUE_LEN then OK else INVALID_PARAM
      ensures items == if status == OK then old(items)[key := item] else old(items)
    {
      CopyOfItem(item);
      status := Set(key, item.value, |item.value|, item.kind);
    }

    /** `icmap_copy_map`, over the keys in iteration order: it stops at the first item
        it cannot copy. */
    method CopyFrom(src: Map, keys: seq<Key>) returns (status: Status)
      requires src != this && MapOk(items) && MapOk(src.items)
      requires forall k :: k in keys ==> k in src.items
      modifies this
      ensures MapOk(items)
      ensures var n := CopiedKeys(src.items, keys);
              && status == (if n == |keys| then OK else INVALID_PARAM)
              && items == old(items) + Restrict(src.items, keys[..n])
    {
      hide NameOk, ItemOk, Restrict, CopiedKeys;
      var i := 0;
      ghost var before := items;
      RestrictNone(before, src.items, keys);
      while i < |keys|
        invariant 0 <= i <= CopiedKeys(src.items, keys) && MapOk(items)
        invariant items == before + Restrict(src.items, keys[..i])
      {
        assert keys[i] in keys;
        status := CopyItem(keys[i], src.items[keys[i]]);
        if status != OK {
          return;
        }
        RestrictNext(before, src.items, keys, i);
        i := i + 1;
      }
      status := OK;
    }
  }

  lemma RestrictNone(dst: map<Key, Item>, items: map<Key, Item>, keys: seq<Key>)
    ensures dst + Restrict(items, keys[..0]) == dst
  {
  }

  lemma RestrictNext(dst: map<Key, Item>, items: map<Key, Item>, keys: seq<Key>, i: nat)
    requires i < |keys| && keys[i] in items
    ensures dst + Restrict(items, keys[..i + 1]) == (dst + Restrict(items, keys[..i]))[keys[i] := items[keys[i]]]
  {
    assert keys[..i + 1] == keys[..i] + [keys[i]];
  }
}
