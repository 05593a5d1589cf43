/** What the sender of exec/totempg.c decides: which messages wait in the staging buffer,
    how full the packets are that it sends, and how it numbers fragments. */
module Fragments {
  import opened Bytes
  import opened Packing

  /** The copy loop sends nothing exactly if all that is left fits. */
  lemma {:induction false} LoopStages(payload: nat, st: Stage, chunks: seq<Chunk>)
    requires StageOk(payload, st) && AllNonEmpty(chunks) && chunks != []
    ensures var (st', out) := Pack(payload, st, chunks, 0);
            && (out == [] <==> Size(st) + |Flatten(chunks)| < Room(payload, st) - 2)
            && (out == [] ==> st'.segs == st.segs && st'.cur == st.cur + Flatten(chunks))
    decreases |chunks|
  {
    hide Pack;
    var c := chunks[0];
    assert Flatten(chunks) == c + Flatten(chunks[1..]) && c[0..] == c;
    if |c| + Size(st) < Room(payload, st) - 2 {
      PackFits(payload, st, chunks, 0);
      var st1 := st.(cur := st.cur + c, next := 1);
      if chunks[1..] == [] {
        PackNothing(payload, st1);
        assert st.cur + (c + []) == st.cur + c;
      } else {
        LoopStages(payload, st1, chunks[1..]);
        assert st.cur + c + Flatten(chunks[1..]) == st.cur + (c + Flatten(chunks[1..]));
      }
    } else {
      PackSends(payload, st, chunks, 0);
    }
  }

  /** A message waits in the staging buffer, and no packet is sent, exactly if it fits
      behind what is staged: with a length field for every message and more than two
      bytes to spare. */
  lemma StagedExactly(payload: nat, st: Stage, chunks: seq<Chunk>)
    requires StageOk(payload, st) && st.cur == [] && Flatten(chunks) != []
    ensures var (st', out) := Mcast(payload, st, chunks);
            && (out == [] <==>
                  |Flatten(st.segs)| + |Flatten(chunks)| + 2 * (|st.segs| + 1) + 2 < payload)
            && (out == [] ==> st'.segs == st.segs + [Flatten(chunks)] && st'.cur == [])
  {
    hide Pack;
    FlattenNonEmpty(chunks);
    NonEmptyHasBytes(chunks);
    LoopStages(payload, st, NonEmpty(chunks));
    assert [] + Flatten(chunks) == Flatten(chunks);
  }

  lemma NonEmptyHasBytes(chunks: seq<Chunk>)
    requires Flatten(NonEmpty(chunks)) != []
    ensures NonEmpty(chunks) != []
  {
  }

  /** The number of the i-th fragment behind number `first`: 1 follows 255. */
  function Numbered(first: Byte, i: nat): (r: int)
    requires first > 0
    ensures 1 <= r <= 255
  {
    1 + (first - 1 + i) % 255
  }

  /** The packets of one buffer: all but a last one that ends it are full to the byte and
      numbered one after the other, and from the second on they carry nothing else. */
  ghost predicate CutInto(payload: nat, out: seq<Packet>, first: Byte)
    requires first > 0
  {
    forall i :: 0 <= i < |out| ==>
      && (out[i].fragmented == 0 ==> i == |out| - 1)
      && (out[i].fragmented != 0 ==>
            out[i].fragmented == Numbered(first, i) && PacketSize(out[i]) == 8 + payload)
      && (i > 0 ==> |out[i].segs| == 1)
  }

  lemma {:induction false} BufferIsCut(payload: nat, st: Stage, c: Chunk, base: nat)
    requires StageOk(payload, st) && base < |c|
    ensures var out := Pack(payload, st, [c], base).1;
            && CutInto(payload, out, FragmentNumber(st.next))
            && (st.segs == [] ==> forall i :: 0 <= i < |out| ==> |out[i].segs| == 1)
    decreases |c| - base
  {
    hide Pack;
    assert [c][1..] == [];
    if |c| + Size(st) < Room(payload, st) - 2 {
      PackFits(payload, st, [c], base);
      PackNothing(payload, st.(cur := st.cur + c[base..], next := 1));
    } else {
      var n := CopyLen(payload, st, c, base);
      var (p, st') := Emit(payload, st, [c], base);
      PackSends(payload, st, [c], base);
      FlattenSnoc(st.segs, st.cur + c[base..base + n]);
      if base + n == |c| {
        PackNothing(payload, st');
      } else {
        BufferIsCut(payload, st', c, base + n);
        NextNumber(payload, p, Pack(payload, st', [c], base + n).1, FragmentNumber(st.next));
      }
    }
  }

  lemma NextNumber(payload: nat, p: Packet, rest: seq<Packet>, first: Byte)
    requires first > 0 && p.fragmented == first && PacketSize(p) == 8 + payload
    requires CutInto(payload, rest, FragmentNumber((first + 1) % 256))
    requires forall i :: 0 <= i < |rest| ==> |rest[i].segs| == 1
    ensures CutInto(payload, [p] + rest, first)
  {
    var out := [p] + rest;
    forall i | 1 <= i < |out| && out[i].fragmented != 0
      ensures out[i].fragmented == Numbered(first, i)
    {
      assert out[i] == rest[i - 1];
    }
  }
}
