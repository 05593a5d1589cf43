/** The byte format of a packet (`struct totempg_mcast`, exec/totempg.c:136-147):
    version and type, the fragment numbers, the number of packed messages, their
    lengths, and the data; and the length checks of the receiver. */
module Wire {
  import opened Wrappers
  import opened Bytes
  import opened Packing
  import opened Reassembly
  import opened Delivery

  /** Lengths and counts are 16-bit numbers on the wire. */
  ghost predicate Encodable(p: Packet) {
    && 0 < |p.segs| < 65536
    && forall i :: 0 <= i < |p.segs| ==> |p.segs[i]| < 65536
  }

  /** The part after version and type. */
  function Tail(f: Frame): Chunk {
    [f.fragmented, f.continuation] + Le16(|f.lens|) + Le16s(f.lens) + f.data
  }

  function Encode(p: Packet): (r: Chunk)
    requires p.segs != []
    ensures |r| == PacketSize(p)
  {
    [0, 0, 0, 0] + Tail(FrameOf(p))
  }

  /** Take a packet apart; a packet whose length does not fit its header is ignored. */
  function Decode(b: Chunk): (r: Option<Frame>)
    ensures r.Some? ==> Sum(r.value.lens) == |r.value.data| && FrameSize(r.value) == |b|
  {
    if |b| < HEADER_SIZE then None
    else
      var count := FromLe16(b[6..]);
      var datasize := HEADER_SIZE + 2 * count;
      if |b| < datasize then None
      else
        var lens := FromLe16s(b[HEADER_SIZE..], count);
        if |b| != datasize + Sum(lens) then None
        else Some(Frame(b[4], b[5], lens, b[datasize..]))
  }

  lemma DecodeTail(head: Chunk, f: Frame)
    requires |head| == 4
    requires |f.lens| < 65536 && (forall i :: 0 <= i < |f.lens| ==> f.lens[i] < 65536)
    requires Sum(f.lens) == |f.data|
    ensures Decode(head + Tail(f)) == Some(f)
  {
    var b := head + Tail(f);
    var n := |f.lens|;
    assert b == head + [f.fragmented, f.continuation] + Le16(n) + (Le16s(f.lens) + f.data);
    assert b[6..][..2] == Le16(n);
    Le16RoundTrip(n);
    assert b[HEADER_SIZE..] == Le16s(f.lens) + f.data;
    Le16sRoundTrip(f.lens, f.data);
    assert b[HEADER_SIZE + 2 * n..] == f.data;
  }

  /** The receiver reads back what the sender wrote. */
  lemma DecodeEncode(p: Packet)
    requires Encodable(p)
    ensures Decode(Encode(p)) == Some(FrameOf(p))
  {
    DecodeTail([0, 0, 0, 0], FrameOf(p));
  }

  /** The bytes of a packet, one by one: four zero bytes, the fragment numbers, the number
      of pieces and the length of each with the low byte first, and the pieces. */
  lemma Layout(p: Packet)
    requires Encodable(p)
    ensures var b, n := Encode(p), |p.segs|;
            && |b| == 8 + 2 * n + |Flatten(p.segs)|
            && b[..4] == [0, 0, 0, 0] && b[4] == p.fragmented && b[5] == p.continuation
            && (b[6] as int) + 256 * (b[7] as int) == n
            && (forall i :: 0 <= i < n ==> (b[8 + 2 * i] as int) + 256 * (b[9 + 2 * i] as int) == |p.segs[i]|)
            && b[8 + 2 * n..] == Flatten(p.segs)
  {
    hide Decode, Encode;
    var b, f := Encode(p), FrameOf(p);
    DecodeEncode(p);
    DecodedLayout(b);
    EncodeStarts(p);
  }

  lemma EncodeStarts(p: Packet)
    requires p.segs != []
    ensures Encode(p)[..4] == [0, 0, 0, 0]
  {
  }

  lemma DecodedLayout(b: Chunk)
    requires Decode(b).Some?
    ensures var f := Decode(b).value;
            && |b| == 8 + 2 * |f.lens| + |f.data|
            && b[4] == f.fragmented && b[5] == f.continuation && (b[6] as int) + 256 * (b[7] as int) == |f.lens|
            && (forall i :: 0 <= i < |f.lens| ==> (b[8 + 2 * i] as int) + 256 * (b[9 + 2 * i] as int) == f.lens[i])
            && b[8 + 2 * |f.lens|..] == f.data
  {
    var f := Decode(b).value;
    forall i | 0 <= i < |f.lens|
      ensures (b[8 + 2 * i] as int) + 256 * (b[9 + 2 * i] as int) == f.lens[i]
    {
      assert f.lens[i] == FromLe16(b[HEADER_SIZE..][2 * i..]);
    }
  }

  /** Whatever passes the length checks is, after version and type, exactly the
      encoding of the frame that was read: no byte is skipped or invented. */
  lemma DecodeIsExact(b: Chunk)
    ensures Decode(b).Some? ==> b == b[..4] + Tail(Decode(b).value)
    ensures Decode(b).Some? <==> exists head, f :: HeadedFrame(b, head, f)
  {
    hide Decode, Tail;
    if Decode(b).Some? {
      DecodedFrame(b);
    }
    forall head, f | HeadedFrame(b, head, f)
      ensures Decode(b).Some?
    {
      DecodeTail(head, f);
    }
  }

  lemma DecodedFrame(b: Chunk)
    requires Decode(b).Some?
    ensures HeadedFrame(b, b[..4], Decode(b).value)
  {
    var f := Decode(b).value;
    var count := |f.lens|;
    FromLe16RoundTrip(b[6..8]);
    assert FromLe16(b[6..]) == FromLe16(b[6..8]) == count;
    FromLe16sRoundTrip(b[HEADER_SIZE..], count);
    var datasize := HEADER_SIZE + 2 * count;
    assert b[HEADER_SIZE..][..2 * count] == b[HEADER_SIZE..datasize];
    FourParts(b, datasize);
    assert b[4..6] == [f.fragmented, f.continuation];
    Grouped(b[..4], b[4..6], b[6..8], b[HEADER_SIZE..datasize], b[datasize..]);
  }

  lemma FourParts(b: Chunk, datasize: nat)
    requires HEADER_SIZE <= datasize <= |b|
    ensures b == b[..4] + b[4..6] + b[6..8] + b[HEADER_SIZE..datasize] + b[datasize..]
  {
  }

  lemma Grouped(head: Chunk, x: Chunk, y: Chunk, z: Chunk, w: Chunk)
    ensures head + x + y + z + w == head + (x + y + z + w)
  {
  }

  ghost predicate HeadedFrame(b: Chunk, head: Chunk, f: Frame) {
    && |head| == 4
    && |f.lens| < 65536 && (forall i :: 0 <= i < |f.lens| ==> f.lens[i] < 65536)
    && Sum(f.lens) == |f.data|
    && b == head + Tail(f)
  }

  /** Packets that respect the packet size are encodable. */
  lemma PacketEncodable(payload: nat, p: Packet)
    requires PacketOk(payload, p) && payload < 65536
    ensures Encodable(p)
  {
    SumLens(p.segs);
    forall i | 0 <= i < |p.segs|
      ensures |p.segs[i]| < 65536
    {
      FlattenSlice(p.segs, i);
    }
  }

  // ---- the receiver on bytes ----

  /** `totempg_deliver_fn` on what arrives from the network. Nothing can be said about
      a packet that trips the capacity assertion, or that has a fragment number but no
      message, for which the program reads beside its array. */
  function ReceiveBytes(t: Table, node: NodeId, b: Chunk): Reception {
    match Decode(b)
    case None => Received(Ref(t, node), [])
    case Some(f) => if f.lens == [] && f.fragmented != 0 then Crash else Receive(t, node, f)
  }

  /** A packet that fails the length checks delivers nothing, and leaves every assembly as
      it was; a sender that had none has an empty one then. */
  lemma MalformedIsIgnored(t: Table, node: NodeId, b: Chunk)
    requires TableOk(t) && Decode(b).None?
    ensures var r := ReceiveBytes(t, node, b);
            && r.Received? && r.delivered == []
            && (forall m :: m != node || Entry(t, m).Some? ==> Entry(r.table, m) == Entry(t, m))
            && (Entry(t, node).None? ==>
                  && Entry(r.table, node).Some?
                  && var a := Entry(r.table, node).value; a == Fresh(a.data))
  {
    hide Decode;
    RefEntry(t, node);
  }

  type ByteLog = seq<(NodeId, Chunk)>

  function RunBytes(t: Table, log: ByteLog): RunResult {
    if log == [] then Ran(t, [])
    else
      match RunBytes(t, log[..|log| - 1])
      case RunCrash => RunCrash
      case Ran(t1, out) =>
        var (node, b) := log[|log| - 1];
        match ReceiveBytes(t1, node, b)
        case Crash => RunCrash
        case Received(t2, delivered) => Ran(t2, out + Tag(node, delivered))
  }
}
