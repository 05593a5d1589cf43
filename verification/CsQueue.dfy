/** The ring buffer of exec/cs_queue.h. One slot stays unused, so `tail` (the slot
    before the oldest item) and `head` (the next free slot) meet only when the
    buffer is full. */
module CsQueue {
  import opened Wrappers

  /** Where an index lands when it is taken modulo the size once. */
  function Wrap(i: int, size: int): (r: int)
    requires 0 < size && 0 <= i < 2 * size
    ensures 0 <= r < size && r == i % size
  {
    WrapIsMod(i, size);
    if i < size then i else i - size
  }

  lemma WrapIsMod(i: int, size: int)
    requires 0 < size && 0 <= i < 2 * size
    ensures i % size == if i < size then i else i - size
  {
    if i >= size {
      assert i == size * 1 + (i - size);
    }
  }

  lemma MultipleBelow(d: int, size: int, x: int)
    requires 0 < size && d * size == x && -size < x < size
    ensures d == 0
  {
    assert d >= 1 ==> d * size >= size;
    assert d <= -1 ==> d * size <= -size;
  }

  lemma OneTurn(i: int, size: int)
    requires 0 < size
    ensures (i + size) % size == i % size
  {
    var q, q' := i / size, (i + size) / size;
    assert i == q * size + i % size && i + size == q' * size + (i + size) % size;
    assert (q' - q - 1) * size == i % size - (i + size) % size;
    MultipleBelow(q' - q - 1, size, i % size - (i + size) % size);
  }

  lemma {:induction false} TurnsDoNotMatter(i: int, n: int, size: int)
    requires 0 < size && 0 <= i && 0 <= n
    ensures (i + n) % size == (i + n % size) % size
    decreases n
  {
    if n < size {
      WrapIsMod(n, size);
    } else {
      var m := n - size;
      TurnsDoNotMatter(i, m, size);
      calc {
        (i + n) % size;
        { assert i + n == (i + m) + size; OneTurn(i + m, size); }
        (i + m) % size;
        (i + m % size) % size;
        { assert n == m + size; OneTurn(m, size); }
        (i + n % size) % size;
      }
    }
  }

  /** The slot that a tail moved by `n` reaches is the head exactly if `n` is one more
      than the items, up to whole turns. So the checks of tail against head refuse to
      add to a full buffer, to remove from an empty one, and to remove nothing from a
      full one; but they let through the removal of more than one item too many. */
  lemma TailMeetsHead(tail: int, used: int, size: int, n: int)
    requires 0 <= tail < size && 0 <= used < size && 0 <= n
    ensures (tail + n) % size == (tail + 1 + used) % size <==> n % size == (used + 1) % size
    ensures n <= used + 1 ==> (n % size == (used + 1) % size <==> n == used + 1 || (n == 0 && used == size - 1))
  {
    TurnsDoNotMatter(tail, n, size);
    TurnsDoNotMatter(tail, 1 + used, size);
    WrapIsMod(tail + n % size, size);
    WrapIsMod(tail + (1 + used) % size, size);
    WrapIsMod(used + 1, size);
    if n <= used + 1 {
      WrapIsMod(n, size);
    }
  }

  /** Where `n` advances lead to. */
  function Place(n: int, size: int): int
    requires 0 < size
  {
    n % size
  }

  /** The items of a ring buffer, oldest first. */
  function Window<T>(items: seq<T>, tail: int, used: int): (s: seq<T>)
    requires 0 <= tail < |items| && 0 <= used < |items|
    ensures |s| == used
    ensures forall i :: 0 <= i < used ==> s[i] == items[Wrap(tail + 1 + i, |items|)]
  {
    seq(used, i requires 0 <= i < used => items[Wrap(tail + 1 + i, |items|)])
  }

  class Queue<T> {
    var head: int
    var tail: int
    var used: int
    var usedhw: int
    var cursor: int
    const size: int
    var items: array<T>

    ghost predicate Valid()
      reads this
    {
      && 0 < size && items.Length == size
      && 0 <= tail < size && 0 <= used < size
      && head == Wrap(tail + 1 + used, size)
      && used <= usedhw < size
    }

    ghost function Contents(): (s: seq<T>)
      requires Valid()
      reads this, items
      ensures |s| == used
    {
      Window(items[..], tail, used)
    }

    /** `cs_queue_init`; the zeroed memory is a given filler. */
    constructor (count: int, zero: T)
      requires 0 < count
      ensures Valid() && fresh(items) && size == count && Contents() == [] && usedhw == 0
    {
      head := 0;
      tail := count - 1;
      used := 0;
      usedhw := 0;
      cursor := 0;
      size := count;
      items := new T[count](_ => zero);
    }

    /** `cs_queue_reinit`. */
    method Reinit(zero: T)
      requires Valid()
      modifies this, items
      ensures Valid() && Contents() == [] && usedhw == 0 && items == old(items)
    {
      head := 0;
      tail := size - 1;
      used := 0;
      usedhw := 0;
      var i := 0;
      while i < items.Length
        invariant 0 <= i <= items.Length
        modifies items
      {
        items[i] := zero;
        i := i + 1;
      }
    }

    method IsFull() returns (full: bool)
      requires Valid()
      ensures full <==> |Contents()| == size - 1
    {
      full := size - 1 == used;
    }

    method IsEmpty() returns (empty: bool)
      requires Valid()
      ensures empty <==> Contents() == []
    {
      empty := used == 0;
    }

    /** `cs_queue_item_add`. */
    method Add(item: T)
      requires Valid() && |Contents()| < size - 1
      modifies this, items
      ensures Valid() && items == old(items) && Contents() == old(Contents()) + [item]
      ensures usedhw == if old(usedhw) < |Contents()| then |Contents()| else old(usedhw)
    {
      ghost var before := Contents();
      items[head] := item;
      TailMeetsHead(tail, used, size, 0);
      assert tail != head;
      head := (head + 1) % size;
      WrapIsMod(old(head) + 1, size);
      used := used + 1;
      if used > usedhw {
        usedhw := used;
      }
      assert Contents() == before + [item];
    }

    /** `cs_queue_item_get`: the oldest item. */
    method Get() returns (item: T)
      requires Valid() && Contents() != []
      ensures item == Contents()[0]
    {
      WrapIsMod(tail + 1, size);
      item := items[(tail + 1) % size];
      assert item == Contents()[0];
    }

    /** `cs_queue_item_remove`. */
    method Remove()
      requires Valid() && Contents() != []
      modifies this
      ensures Valid() && items == old(items) && usedhw == old(usedhw) && Contents() == old(Contents())[1..]
    {
      ghost var before := Contents();
      TailMeetsHead(tail, used, size, 1);
      WrapIsMod(tail + 1, size);
      tail := (tail + 1) % size;
      assert tail != head;
      used := used - 1;
      assert used >= 0;
      assert Contents() == before[1..];
    }

    /** `cs_queue_items_remove`; removing nothing is refused for a full buffer. */
    method RemoveMany(n: int)
      requires Valid() && 0 <= n <= |Contents()| && (n > 0 || |Contents()| < size - 1)
      modifies this
      ensures Valid() && items == old(items) && usedhw == old(usedhw) && Contents() == old(Contents())[n..]
    {
      ghost var before := Contents();
      TailMeetsHead(tail, used, size, n);
      WrapIsMod(tail + n, size);
      tail := (tail + n) % size;
      assert tail != head;
      used := used - n;
      assert Contents() == before[n..];
    }

    /** `cs_queue_avail`: its check that the answer is not negative holds exactly when
        the buffer is not full. */
    method Avail() returns (avail: int)
      requires Valid()
      ensures avail == size - 2 - |Contents()|
      ensures avail >= 0 <==> |Contents()| < size - 1
    {
      avail := size - used - 2;
    }

    // ---- the iterator ----

    /** The iterator has been advanced `k` times. */
    ghost predicate Advanced(k: int)
      requires Valid()
      reads this
    {
      0 <= k && cursor == Place(tail + 1 + k, size)
    }

    method IteratorInit()
      requires Valid()
      modifies this`cursor
      ensures Valid() && Advanced(0)
    {
      cursor := (tail + 1) % size;
    }

    /** The item the iterator stands on, or nothing at the head. Behind the head the
        iterator goes on over free slots and comes round to the items again. */
    method IteratorGet(ghost k: int) returns (item: Option<T>)
      requires Valid() && Advanced(k)
      ensures item.None? <==> Place(k, size) == |Contents()|
      ensures 0 <= Place(k, size) < |Contents()| ==> item == Some(Contents()[Place(k, size)])
      ensures k <= |Contents()| ==> item == if k < |Contents()| then Some(Contents()[k]) else None
    {
      if k <= used {
        WrapIsMod(k, size);
      }
      TailMeetsHead(tail, used, size, k + 1);
      TurnsDoNotMatter(tail + 1, k, size);
      TurnsDoNotMatter(1, k, size);
      WrapIsMod(1 + k % size, size);
      WrapIsMod(used + 1, size);
      if cursor == head {
        item := None;
      } else {
        WrapIsMod(cursor, size);
        item := Some(items[cursor % size]);
      }
    }

    /** Advance; the answer says whether the iterator is at the head now. */
    method IteratorNext(ghost k: int) returns (last: bool)
      requires Valid() && Advanced(k)
      modifies this`cursor
      ensures Valid() && Advanced(k + 1)
      ensures last <==> Place(k + 1, size) == |Contents()|
    {
      TurnsDoNotMatter(1, tail + 1 + k, size);
      TailMeetsHead(tail, used, size, k + 2);
      TurnsDoNotMatter(1, k + 1, size);
      WrapIsMod(1 + (k + 1) % size, size);
      WrapIsMod(used + 1, size);
      cursor := (cursor + 1) % size;
      last := cursor == head;
    }

    /** A pass of the iterator sees every item once, in order. */
    method Visit() returns (seen: seq<T>)
      requires Valid()
      modifies this`cursor
      ensures Valid() && seen == old(Contents()) && Contents() == old(Contents())
    {
      hide Place;
      IteratorInit();
      ghost var k := 0;
      seen := [];
      var item := IteratorGet(k);
      while item.Some?
        invariant Valid() && Advanced(k) && Contents() == old(Contents()) && k <= |Contents()|
                  && seen == Contents()[..k]
        invariant item == if k < |Contents()| then Some(Contents()[k]) else None
        decreases used - k
      {
        seen := seen + [item.value];
        var last := IteratorNext(k);
        k := k + 1;
        item := IteratorGet(k);
      }
    }
  }
}
