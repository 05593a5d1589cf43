/** Byte strings, scatter/gather lists of them, and the little-endian 16-bit
    numbers that corosync puts in front of packed messages. */
module Bytes {

  type Byte = b: int | 0 <= b < 256

  type Chunk = seq<Byte>

  /** The bytes of a scatter/gather list, in order. */
  function Flatten(chunks: seq<Chunk>): Chunk {
    if chunks == [] then [] else chunks[0] + Flatten(chunks[1..])
  }

  lemma {:induction false} FlattenAppend(a: seq<Chunk>, b: seq<Chunk>)
    ensures Flatten(a + b) == Flatten(a) + Flatten(b)
  {
    if a == [] {
      assert a + b == b;
    } else {
      FlattenAppend(a[1..], b);
      assert (a + b)[1..] == a[1..] + b && (a + b)[0] == a[0];
      assert a[0] + (Flatten(a[1..]) + Flatten(b)) == a[0] + Flatten(a[1..]) + Flatten(b);
    }
  }

  lemma FlattenSnoc(a: seq<Chunk>, c: Chunk)
    ensures Flatten(a + [c]) == Flatten(a) + c
  {
    FlattenAppend(a, [c]);
    assert Flatten([c]) == c;
  }

  /** Chunks that carry at least one byte. */
  function NonEmpty(chunks: seq<Chunk>): (r: seq<Chunk>)
    ensures forall i :: 0 <= i < |r| ==> r[i] != []
  {
    if chunks == [] then []
    else if chunks[0] == [] then NonEmpty(chunks[1..])
    else [chunks[0]] + NonEmpty(chunks[1..])
  }

  lemma {:induction false} NonEmptySnoc(a: seq<Chunk>, c: Chunk)
    ensures NonEmpty(a + [c]) == if c == [] then NonEmpty(a) else NonEmpty(a) + [c]
  {
    if a == [] {
      assert a + [c] == [c] && [c][1..] == [];
    } else {
      NonEmptySnoc(a[1..], c);
      assert (a + [c])[1..] == a[1..] + [c];
    }
  }

  lemma {:induction false} FlattenNonEmpty(chunks: seq<Chunk>)
    ensures Flatten(NonEmpty(chunks)) == Flatten(chunks)
  {
    if chunks != [] {
      FlattenNonEmpty(chunks[1..]);
      var rest := NonEmpty(chunks[1..]);
      if chunks[0] == [] {
        assert chunks[0] + Flatten(chunks[1..]) == Flatten(chunks[1..]);
      } else {
        assert ([chunks[0]] + rest)[1..] == rest;
      }
    }
  }

  /** The lengths of the chunks of a list. */
  function Lens(segs: seq<Chunk>): (r: seq<nat>)
    ensures |r| == |segs| && forall i :: 0 <= i < |segs| ==> r[i] == |segs[i]|
  {
    seq(|segs|, i requires 0 <= i < |segs| => |segs[i]|)
  }

  function Sum(lens: seq<nat>): nat {
    if lens == [] then 0 else lens[0] + Sum(lens[1..])
  }

  lemma {:induction false} SumAppend(a: seq<nat>, b: seq<nat>)
    ensures Sum(a + b) == Sum(a) + Sum(b)
  {
    if a == [] {
      assert a + b == b;
    } else {
      SumAppend(a[1..], b);
      assert (a + b)[1..] == a[1..] + b;
    }
  }

  lemma {:induction false} SumLens(segs: seq<Chunk>)
    ensures Sum(Lens(segs)) == |Flatten(segs)|
  {
    if segs != [] {
      SumLens(segs[1..]);
      assert Lens(segs)[1..] == Lens(segs[1..]);
    }
  }

  /** Where the k-th chunk lies in the flattened bytes. */
  lemma {:induction false} FlattenSlice(segs: seq<Chunk>, k: nat)
    requires k < |segs|
    ensures Sum(Lens(segs)[..k]) + |segs[k]| <= |Flatten(segs)|
    ensures Flatten(segs)[Sum(Lens(segs)[..k])..Sum(Lens(segs)[..k]) + |segs[k]|] == segs[k]
  {
    assert segs == segs[..k] + segs[k..];
    FlattenAppend(segs[..k], segs[k..]);
    SumLens(segs[..k]);
    assert Lens(segs)[..k] == Lens(segs[..k]);
    assert Flatten(segs[k..]) == segs[k] + Flatten(segs[k..][1..]);
  }

  // ---- 16-bit little-endian numbers ----

  function Le16(n: nat): (r: Chunk)
    ensures |r| == 2
  {
    [n % 256, n / 256 % 256]
  }

  function FromLe16(b: Chunk): nat
    requires |b| >= 2
  {
    (b[0] as int) + 256 * (b[1] as int)
  }

  lemma Le16RoundTrip(n: nat)
    requires n < 65536
    ensures FromLe16(Le16(n)) == n
  {
  }

  lemma FromLe16RoundTrip(b: Chunk)
    requires |b| == 2
    ensures FromLe16(b) < 65536
    ensures Le16(FromLe16(b)) == b
  {
  }

  function Le16s(ns: seq<nat>): (r: Chunk)
    ensures |r| == 2 * |ns|
  {
    if ns == [] then [] else Le16(ns[0]) + Le16s(ns[1..])
  }

  function FromLe16s(b: Chunk, count: nat): (r: seq<nat>)
    requires |b| >= 2 * count
    ensures |r| == count
    ensures forall i :: 0 <= i < count ==> r[i] == FromLe16(b[2 * i..])
    decreases count
  {
    if count == 0 then []
    else
      var rest := FromLe16s(b[2..], count - 1);
      assert forall i :: 1 <= i < count ==> b[2..][2 * (i - 1)..] == b[2 * i..];
      [FromLe16(b)] + rest
  }

  lemma FirstPair(b: Chunk, c: Chunk)
    requires |c| == 2 && |b| >= 2 && b[..2] == c
    ensures FromLe16(b) == FromLe16(c)
  {
    assert b[0] == c[0] && b[1] == c[1];
  }

  lemma {:induction false} Le16sRoundTrip(ns: seq<nat>, rest: Chunk)
    requires forall i :: 0 <= i < |ns| ==> ns[i] < 65536
    ensures FromLe16s(Le16s(ns) + rest, |ns|) == ns
  {
    if ns != [] {
      Le16sRoundTrip(ns[1..], rest);
      hide Le16, FromLe16;
      var b := Le16s(ns) + rest;
      assert b[2..] == Le16s(ns[1..]) + rest;
      assert b[..2] == Le16(ns[0]);
      Le16RoundTrip(ns[0]);
      FirstPair(b, Le16(ns[0]));
    }
  }

  lemma {:induction false} FromLe16sRoundTrip(b: Chunk, count: nat)
    requires |b| >= 2 * count
    ensures Le16s(FromLe16s(b, count)) == b[..2 * count]
    ensures forall i :: 0 <= i < count ==> FromLe16s(b, count)[i] < 65536
    decreases count
  {
    if count > 0 {
      FromLe16sRoundTrip(b[2..], count - 1);
      FromLe16RoundTrip(b[..2]);
      var ns := FromLe16s(b, count);
      assert ns[0] == FromLe16(b[..2]);
      assert ns[1..] == FromLe16s(b[2..], count - 1);
      assert b[..2 * count] == b[..2] + b[2..][..2 * (count - 1)];
    }
  }
}
