/** The receiving side of exec/totempg.c as functions on values: one assembly
    buffer with its index, the expected fragment number and the throw-away mode,
    and the proof that a buffer that is in step with a stream of packets delivers
    what the stream means. */
module Reassembly {
  import opened Bytes
  import opened Packing
  import opened Stream

  /** `struct assembly`: a fixed buffer, how much of it holds the message under
      assembly, the fragment number of the last packet and the throw-away mode. */
  datatype Assembly = Assembly(data: Chunk, index: nat, lastFragment: Byte, throwAway: bool)

  /** A received packet after the header has been taken apart. */
  datatype Frame = Frame(fragmented: Byte, continuation: Byte, lens: seq<nat>, data: Chunk)

  /** What one packet does: the capacity assertion fails, or messages are
      delivered and the assembly is kept, or released to the free list. */
  datatype Outcome =
    | AssertFails
    | Done(assembly: Assembly, released: bool, delivered: seq<Chunk>)

  /** The lengths add up to the data, and a packet that ends in a fragment has one. */
  ghost predicate FrameOk(f: Frame) {
    && Sum(f.lens) == |f.data|
    && (f.lens == [] ==> f.fragmented == 0)
  }

  function FrameSize(f: Frame): nat {
    HEADER_SIZE + 2 * |f.lens| + |f.data|
  }

  function Fresh(data: Chunk): Assembly {
    Assembly(data, 0, 0, false)
  }

  /** `memcpy` into a buffer. */
  function Write(buf: Chunk, at: nat, bytes: Chunk): (r: Chunk)
    requires at + |bytes| <= |buf|
    ensures |r| == |buf|
    ensures forall i :: 0 <= i < |buf| ==>
              r[i] == if at <= i < at + |bytes| then bytes[i - at] else buf[i]
  {
    buf[..at] + bytes + buf[at + |bytes|..]
  }

  lemma {:induction false} SumPrefix(lens: seq<nat>, i: nat)
    requires i < |lens|
    ensures Sum(lens[..i + 1]) == Sum(lens[..i]) + lens[i]
    ensures Sum(lens[..i + 1]) <= Sum(lens)
  {
    assert lens[..i + 1] == lens[..i] + [lens[i]];
    SumAppend(lens[..i], [lens[i]]);
    assert lens == lens[..i + 1] + lens[i + 1..];
    SumAppend(lens[..i + 1], lens[i + 1..]);
  }

  /** Where the i-th packed message ends when the first one starts at 0 and its
      first `index` bytes came with earlier packets. */
  function End(index: nat, lens: seq<nat>, i: nat): nat
    requires i <= |lens|
  {
    index + Sum(lens[..i])
  }

  /** The first `count` packed messages of the buffer. */
  function Cut(buf: Chunk, index: nat, lens: seq<nat>, count: nat): (r: seq<Chunk>)
    requires count <= |lens|
    requires index + Sum(lens) <= |buf|
    ensures |r| == count
  {
    if count == 0 then []
    else
      SumPrefix(lens, count - 1);
      var from := if count == 1 then 0 else End(index, lens, count - 1);
      Cut(buf, index, lens, count - 1) + [buf[from..End(index, lens, count)]]
  }

  /** Messages of the packet that can be complete: all but a trailing fragment. */
  function CompleteCount(f: Frame): (n: nat)
    requires f.lens == [] ==> f.fragmented == 0
    ensures n <= |f.lens|
  {
    if f.fragmented != 0 then |f.lens| - 1 else |f.lens|
  }

  /** The packet's data is in the buffer: deliver complete messages if the packet
      continues the last one, else start throwing away; while throwing away, fragment
      number 0 or 1 ends that mode. */
  function Absorb(a: Assembly, f: Frame): (r: (Assembly, seq<Chunk>))
    requires FrameOk(f) && a.index + |f.data| <= |a.data|
    ensures r.0.data == a.data
    ensures r.0.index <= a.index + Sum(f.lens)
    ensures |f.lens| > 1 && f.fragmented != 0 ==> r.0.index <= a.index + Sum(f.lens[..|f.lens| - 1])
  {
    if a.throwAway then
      if f.fragmented == 0 || f.fragmented == 1 then
        if f.lens == [] then (a.(throwAway := false), [])
        else
          SumPrefix(f.lens, 0);
          SumMonotone(f.lens, 1, if |f.lens| > 1 then |f.lens| - 1 else 1);
          (a.(throwAway := false, index := a.index + f.lens[0]), [])
      else (a, [])
    else if f.continuation == a.lastFragment then
      var count := CompleteCount(f);
      SumMonotone(f.lens, count, |f.lens|);
      assert f.lens[..|f.lens|] == f.lens;
      (a.(index := End(a.index, f.lens, count), lastFragment := f.fragmented),
       Cut(a.data, a.index, f.lens, count))
    else (a.(throwAway := true), [])
  }

  lemma {:induction false} SumMonotone(lens: seq<nat>, a: nat, b: nat)
    requires a <= b <= |lens|
    ensures Sum(lens[..a]) <= Sum(lens[..b]) <= Sum(lens)
  {
    assert lens[..b] == lens[..a] + lens[a..b];
    SumAppend(lens[..a], lens[a..b]);
    assert lens == lens[..b] + lens[b..];
    SumAppend(lens[..b], lens[b..]);
  }

  /** `totempg_deliver_fn` on the assembly of the sending node. */
  function Deliver(a: Assembly, f: Frame): (o: Outcome)
    requires FrameOk(f)
    ensures o.Done? <==> a.index + FrameSize(f) < |a.data|
    ensures o.Done? ==> |o.assembly.data| == |a.data|
  {
    if a.index + FrameSize(f) >= |a.data| then AssertFails
    else
      var (a1, delivered) := Absorb(a.(data := Write(a.data, a.index, f.data)), f);
      if f.fragmented == 0
      then Done(a1.(lastFragment := 0, index := 0), true, delivered)
      else Done(KeepFragment(a1, f.lens, a.index), false, delivered)
  }

  /** Keep the unfinished last piece at the front of the buffer. */
  function KeepFragment(a: Assembly, lens: seq<nat>, ghost start: nat): (r: Assembly)
    requires lens != []
    requires start + Sum(lens) <= |a.data|
    requires |lens| > 1 ==> a.index <= start + Sum(lens[..|lens| - 1])
    ensures |r.data| == |a.data| && r.lastFragment == a.lastFragment && r.throwAway == a.throwAway
  {
    var last := lens[|lens| - 1];
    SumPrefix(lens, |lens| - 1);
    assert lens[..|lens|] == lens;
    if |lens| > 1 then
      a.(data := Write(a.data, 0, a.data[a.index..a.index + last]), index := last)
    else
      a.(index := a.index + last)
  }

  // ---- in step with a stream ----

  /** A packet as its receiver sees it. */
  function FrameOf(p: Packet): (f: Frame)
    requires p.segs != []
    ensures FrameOk(f)
    ensures FrameSize(f) == PacketSize(p)
  {
    SumLens(p.segs);
    Frame(p.fragmented, p.continuation, Lens(p.segs), Flatten(p.segs))
  }

  /** The assembly holds exactly the bytes of the unfinished message. */
  ghost predicate InStep(a: Assembly, partial: Chunk, fragment: Byte) {
    && !a.throwAway
    && a.lastFragment == fragment
    && a.index == |partial| <= |a.data|
    && a.data[..a.index] == partial
  }

  /** The last message that is cut out of the buffer is the last piece. */
  lemma LastCut(buf: Chunk, partial: Chunk, segs: seq<Chunk>, k: nat)
    requires k < |segs|
    requires Sum(Lens(segs)) == |Flatten(segs)|
    requires |partial| + |Flatten(segs)| <= |buf|
    requires buf[..|partial| + |Flatten(segs)|] == partial + Flatten(segs)
    ensures var from := if k == 0 then 0 else End(|partial|, Lens(segs), k);
            && from <= End(|partial|, Lens(segs), k + 1) <= |buf|
            && buf[from..End(|partial|, Lens(segs), k + 1)] == Join(partial, segs)[k]
  {
    var lens := Lens(segs);
    SumPrefix(lens, k);
    FlattenSlice(segs, k);
    PieceInBuffer(buf, partial, Flatten(segs), Sum(lens[..k]), |segs[k]|);
    if k == 0 {
      assert lens[..0] == [];
    }
  }

  /** Cutting the buffer gives back the pieces, the first one glued to what was
      already there. */
  lemma {:induction false} CutIsJoin(buf: Chunk, partial: Chunk, segs: seq<Chunk>, count: nat)
    requires segs != [] && count <= |segs|
    requires Sum(Lens(segs)) == |Flatten(segs)|
    requires |partial| + |Flatten(segs)| <= |buf|
    requires buf[..|partial| + |Flatten(segs)|] == partial + Flatten(segs)
    ensures Cut(buf, |partial|, Lens(segs), count) == Join(partial, segs)[..count]
  {
    hide End, Join, Flatten, Sum;
    if count > 0 {
      CutIsJoin(buf, partial, segs, count - 1);
      LastCut(buf, partial, segs, count - 1);
      var j := Join(partial, segs);
      assert j[..count] == j[..count - 1] + [j[count - 1]];
    }
  }

  lemma PieceInBuffer(buf: Chunk, partial: Chunk, flat: Chunk, from: nat, len: nat)
    requires from + len <= |flat|
    requires |partial| + |flat| <= |buf|
    requires buf[..|partial| + |flat|] == partial + flat
    ensures buf[|partial| + from..|partial| + from + len] == flat[from..from + len]
    ensures from == 0 ==> buf[0..|partial| + len] == partial + flat[0..len]
  {
    forall i | 0 <= i < |partial| + |flat|
      ensures buf[i] == (partial + flat)[i]
    {
      assert buf[..|partial| + |flat|][i] == buf[i];
    }
  }

  /** A packet in step: complete messages are delivered, and the assembly holds
      the unfinished one. */
  lemma DeliverInStep(a: Assembly, partial: Chunk, p: Packet)
    requires p.segs != []
    requires InStep(a, partial, p.continuation)
    requires a.index + PacketSize(p) < |a.data|
    ensures var o := Deliver(a, FrameOf(p));
            var j := Join(partial, p.segs);
            && o.Done?
            && (p.fragmented == 0 ==> o.released && o.delivered == j)
            && (p.fragmented != 0 ==>
                  && !o.released
                  && o.delivered == j[..|j| - 1]
                  && InStep(o.assembly, j[|j| - 1], p.fragmented))
  {
    var f := FrameOf(p);
    var buf := Write(a.data, a.index, f.data);
    var n := |p.segs|;
    SumLens(p.segs);
    assert buf[..|partial| + |f.data|] == partial + f.data by {
      assert forall i :: 0 <= i < |partial| ==> a.data[i] == a.data[..a.index][i];
    }
    if p.fragmented == 0 {
      CutIsJoin(buf, partial, p.segs, n);
      assert Join(partial, p.segs)[..n] == Join(partial, p.segs);
    } else {
      CutIsJoin(buf, partial, p.segs, n - 1);
      LastPieceKept(buf, partial, p);
    }
  }

  lemma LastPieceKept(buf: Chunk, partial: Chunk, p: Packet)
    requires p.segs != [] && p.fragmented != 0
    requires |partial| + |Flatten(p.segs)| <= |buf|
    requires buf[..|partial| + |Flatten(p.segs)|] == partial + Flatten(p.segs)
    ensures var lens := Lens(p.segs);
            Sum(lens) == |Flatten(p.segs)| &&
            var a1 := Assembly(buf, End(|partial|, lens, |lens| - 1), p.fragmented, false);
            InStep(KeepFragment(a1, lens, |partial|), Join(partial, p.segs)[|p.segs| - 1], p.fragmented)
  {
    hide Flatten, Sum;
    var lens := Lens(p.segs);
    var k := |p.segs| - 1;
    SumLens(p.segs);
    LastCut(buf, partial, p.segs, k);
    SumPrefix(lens, k);
    var a1 := Assembly(buf, End(|partial|, lens, k), p.fragmented, false);
    var a2 := KeepFragment(a1, lens, |partial|);
    if k == 0 {
      NoPrefix(lens);
      assert a2.data[..a2.index] == buf[0..|partial| + |p.segs[0]|];
    } else {
      assert a2.data[..a2.index] == buf[a1.index..a1.index + lens[k]];
    }
  }

  lemma NoPrefix(lens: seq<nat>)
    ensures Sum(lens[..0]) == 0
  {
  }

  // ---- out of step: the throw-away mode ----

  /** The assembly has lost the beginning of the message: it expects a message
      start, whatever its mode. */
  ghost predicate Lost(a: Assembly) {
    a.lastFragment == 0
  }

  /** A packet that continues a message whose beginning was lost delivers nothing.
      If it ends a message the assembly is released, otherwise it stays lost: the
      switch back on fragment number 1 never lets a piece through. */
  lemma DeliverLost(a: Assembly, f: Frame)
    requires FrameOk(f) && f.lens != []
    requires Lost(a) && f.continuation != 0
    requires a.index + FrameSize(f) < |a.data|
    ensures var o := Deliver(a, f);
            && o.Done? && o.delivered == []
            && (f.fragmented == 0 ==> o.released)
            && (f.fragmented != 0 ==> !o.released && Lost(o.assembly))
  {
  }
}
