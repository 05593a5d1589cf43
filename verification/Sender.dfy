/** The sending side of exec/totempg.c in its own form: a staging buffer, an array
    of lengths and four static counters, updated in place. Every method is proved
    against the functions of `Packing`. */
module Sender {
  import opened Bytes
  import opened Packing
  import opened Reassembly
  import opened RoundTrip
  import opened Delivery
  import opened Wire

  class PacketSender {
    const payload: nat                      // TOTEMPG_PACKET_SIZE
    const fragmentationData: array<Byte>
    const packedLens: array<nat>            // mcast_packed_msg_lens
    var packedCount: nat                    // mcast_packed_msg_count
    var fragmentSize: nat
    var fragmentContinuation: Byte
    var nextFragment: Byte
    var queue: seq<Chunk>                   // what totemsrp_mcast was given

    ghost var segs: seq<Chunk>              // the staged pieces
    ghost var cur: Chunk                    // the staged part of the current message
    ghost var wire: seq<Packet>             // the packets in the queue

    ghost function View(): Stage
      reads this
    {
      Stage(segs, cur, fragmentContinuation, nextFragment)
    }

    /** Arrays and counters hold the staged pieces; lengths fit 16 bits. */
    ghost predicate Buffered()
      reads this, fragmentationData, packedLens
    {
      && PayloadOk(payload)
      && fragmentationData.Length >= payload
      && packedLens.Length == KNET_MAX_PACKET_SIZE
      && packedCount == |segs| < packedLens.Length
      && (forall i :: 0 <= i < |segs| ==> packedLens[i] == |segs[i]|)
      && packedLens[packedCount] == |cur|
      && fragmentSize == |Flatten(segs) + cur| <= payload
      && fragmentationData[..fragmentSize] == Flatten(segs) + cur
      && AllNonEmpty(segs)
      && |queue| == |wire|
      && (forall i :: 0 <= i < |wire| ==> PacketOk(payload, wire[i]) && queue[i] == Encode(wire[i]))
    }

    ghost predicate Valid()
      reads this, fragmentationData, packedLens
    {
      && Buffered()
      && StageOk(payload, View())
      && cur == []
    }

    constructor (payload: nat)
      requires PayloadOk(payload)
      ensures Valid() && this.payload == payload
      ensures View() == EMPTY_STAGE && wire == []
      ensures fresh(fragmentationData) && fresh(packedLens)
    {
      this.payload := payload;
      fragmentationData := new Byte[payload];
      packedLens := new nat[KNET_MAX_PACKET_SIZE](_ => 0);
      packedCount, fragmentSize, fragmentContinuation, nextFragment := 0, 0, 0, 1;
      queue := [];
      segs, cur, wire := [], [], [];
    }

    /** `memcpy` into the staging buffer and account for the length. */
    method Copy(bytes: Chunk)
      requires Buffered()
      requires fragmentSize + |bytes| <= payload - 2 * (packedCount + 1)
      modifies this`fragmentSize, this`cur, fragmentationData, packedLens
      ensures Buffered()
      ensures cur == old(cur) + bytes
    {
      var k := 0;
      while k < |bytes|
        invariant 0 <= k <= |bytes|
        invariant forall i :: 0 <= i < fragmentSize ==> fragmentationData[i] == old(fragmentationData[i])
        invariant forall i :: 0 <= i < k ==> fragmentationData[fragmentSize + i] == bytes[i]
        modifies fragmentationData
      {
        fragmentationData[fragmentSize + k] := bytes[k];
        k := k + 1;
      }
      ghost var was := old(fragmentationData[..fragmentSize]);
      assert fragmentationData[..fragmentSize] == was;
      assert fragmentationData[fragmentSize..fragmentSize + |bytes|] == bytes;
      assert fragmentationData[..fragmentSize + |bytes|] == was + bytes;
      assert was + bytes == Flatten(segs) + (cur + bytes);
      fragmentSize := fragmentSize + |bytes|;
      packedLens[packedCount] := packedLens[packedCount] + |bytes|;
      cur := cur + bytes;
    }

    /** Hand the first `count` staged pieces, which are `pieces`, to totemsrp and
        empty the staging buffer. `data` is the staging buffer or, for a packet
        filled by a single piece, the caller's memory. */
    method Transmit(fragmented: Byte, continuation: Byte, data: Chunk, ghost pieces: seq<Chunk>)
      requires PayloadOk(payload) && packedLens.Length == KNET_MAX_PACKET_SIZE
      requires 0 < packedCount == |pieces| <= packedLens.Length
      requires forall i :: 0 <= i < packedCount ==> packedLens[i] == |pieces[i]|
      requires data == Flatten(pieces)
      requires fragmentationData.Length >= payload
      requires PacketOk(payload, Packet(fragmented, continuation, pieces))
      requires |queue| == |wire|
      requires forall i :: 0 <= i < |wire| ==> PacketOk(payload, wire[i]) && queue[i] == Encode(wire[i])
      modifies this`packedCount, this`fragmentSize, this`queue, this`segs, this`cur, this`wire, packedLens
      ensures Buffered()
      ensures segs == [] && cur == []
      ensures wire == old(wire) + [Packet(fragmented, continuation, pieces)]
    {
      var lens := packedLens[..packedCount];
      assert lens == Lens(pieces);
      queue := queue + [[0, 0, 0, 0] + Tail(Frame(fragmented, continuation, lens, data))];
      ghost var p := Packet(fragmented, continuation, pieces);
      assert FrameOf(p) == Frame(fragmented, continuation, lens, data);
      wire := wire + [p];
      packedLens[0] := 0;
      packedCount := 0;
      fragmentSize := 0;
      segs, cur := [], [];
    }

    /** Number a packet: 0 if its last message is complete, else the next fragment
        number, which skips 0 and wraps around. */
    method Number(more: bool) returns (fragmented: Byte)
      requires Buffered()
      modifies this`fragmentContinuation, this`nextFragment
      ensures Buffered()
      ensures fragmented == fragmentContinuation == if more then FragmentNumber(old(nextFragment)) else 0
      ensures nextFragment == if more then (FragmentNumber(old(nextFragment)) + 1) % 256 else old(nextFragment)
    {
      fragmented := 0;
      if more {
        if nextFragment == 0 {
          nextFragment := 1;
        }
        fragmentContinuation := nextFragment;
        fragmented := nextFragment;
        nextFragment := (nextFragment + 1) % 256;
        assert fragmentContinuation != 0 && fragmented != 0;
      } else {
        fragmentContinuation := 0;
      }
    }

    /** The send branch of the copy loop for `iovec[i]` at `copyBase`. */
    method SendWhatFits(iovec: seq<Chunk>, i: nat, copyBase: nat, maxPacketSize: nat) returns (copyLen: nat)
      requires Buffered() && StageOk(payload, View())
      requires i < |iovec| && copyBase < |iovec[i]|
      requires maxPacketSize == payload - 2 * (packedCount + 1)
      modifies this, fragmentationData, packedLens
      ensures Buffered() && StageOk(payload, View())
      ensures packedCount == 0
      ensures copyLen == CopyLen(payload, old(View()), iovec[i], copyBase)
      ensures var (p, st) := Emit(payload, old(View()), iovec[i..], copyBase);
              View() == st && wire == old(wire) + [p]
    {
      hide Flatten, PacketOk, Encode, AllNonEmpty;
      ghost var st0 := View();
      EmitOk(payload, st0, iovec[i..], copyBase);
      var continuation := fragmentContinuation;
      copyLen := Min(|iovec[i]| - copyBase, maxPacketSize - fragmentSize);
      var piece := iovec[i][copyBase..copyBase + copyLen];
      var direct := copyLen == maxPacketSize;
      assert direct ==> Flatten(segs) + cur == [];
      Copy(piece);
      assert direct ==> fragmentationData[..fragmentSize] == piece;
      var data := if direct then piece else fragmentationData[..fragmentSize];
      var fragmented := Number(i < |iovec| - 1 || copyBase + copyLen < |iovec[i]|);
      ghost var pieces := segs + [cur];
      FlattenSnoc(segs, cur);
      assert Packet(fragmented, continuation, pieces) == Emit(payload, st0, iovec[i..], copyBase).0;
      packedCount := packedCount + 1;
      Transmit(fragmented, continuation, data, pieces);
    }

    /** Drop zero-length iovecs. */
    method RemoveEmpty(iovecIn: seq<Chunk>) returns (iovec: seq<Chunk>)
      ensures iovec == NonEmpty(iovecIn)
    {
      iovec := [];
      for src := 0 to |iovecIn|
        invariant iovec == NonEmpty(iovecIn[..src])
      {
        NonEmptySnoc(iovecIn[..src], iovecIn[src]);
        assert iovecIn[..src + 1] == iovecIn[..src] + [iovecIn[src]];
        if |iovecIn[src]| > 0 {
          iovec := iovec + [iovecIn[src]];
        }
      }
      assert iovecIn[..|iovecIn|] == iovecIn;
    }

    /** `mcast_msg`; `space` is the answer of the queue-space test. */
    method McastMsg(iovecIn: seq<Chunk>, space: bool) returns (res: int)
      requires Valid()
      modifies this, fragmentationData, packedLens
      ensures Valid()
      ensures res == (if space then 0 else -1)
      ensures !space ==> View() == old(View()) && wire == old(wire)
      ensures space ==>
                var (st, out) := Mcast(payload, old(View()), iovecIn);
                View() == st && wire == old(wire) + out
    {
      var iovec := RemoveEmpty(iovecIn);
      packedLens[packedCount] := 0;
      if !space {
        return -1;
      }
      CopyLoop(iovec);
      if packedLens[packedCount] != 0 {
        CountMessage();
      }
      res := 0;
    }

    /** The branch of the copy loop for what fits. */
    method StageRest(bytes: Chunk)
      requires Buffered() && fragmentSize + |bytes| <= payload - 2 * (packedCount + 1)
      modifies this, fragmentationData, packedLens
      ensures Buffered() && wire == old(wire)
      ensures View() == Stage(old(segs), old(cur) + bytes, old(fragmentContinuation), 1)
    {
      Copy(bytes);
      nextFragment := 1;
    }

    lemma Counted()
      requires Buffered()
      ensures fragmentSize == Size(View()) && packedCount == |segs|
    {
    }

    /** The copy loop. */
    method CopyLoop(iovec: seq<Chunk>)
      requires Valid() && AllNonEmpty(iovec)
      modifies this, fragmentationData, packedLens
      ensures Buffered() && StageOk(payload, View())
      ensures var (st, out) := Pack(payload, old(View()), iovec, 0);
              View() == st && wire == old(wire) + out
    {
      hide Pack, Flatten, PacketOk, Encode, Emit, Buffered, StageOk;
      var i: nat, copyBase: nat := 0, 0;
      var maxPacketSize := payload - 2 * (packedCount + 1);
      ghost var sent: seq<Packet> := [];
      assert iovec[0..] == iovec && sent + Pack(payload, View(), iovec, 0).1 == Pack(payload, View(), iovec, 0).1;
      while i < |iovec|
        invariant 0 <= i <= |iovec|
        invariant if i == |iovec| then copyBase == 0 else copyBase < |iovec[i]|
        invariant Buffered() && StageOk(payload, View())
        invariant maxPacketSize == payload - 2 * (packedCount + 1)
        invariant wire == old(wire) + sent
        invariant AllNonEmpty(iovec[i..])
        invariant var (st, out) := Pack(payload, View(), iovec[i..], copyBase);
                  Pack(payload, old(View()), iovec, 0) == (st, sent + out)
        decreases |iovec| - i, if i < |iovec| then |iovec[i]| - copyBase else 0
      {
        ghost var rest := iovec[i..];
        assert rest[0] == iovec[i] && rest[1..] == iovec[i + 1..];
        Counted();
        FitTestDoesNotWrap(payload, View());
        if |iovec[i]| + fragmentSize < maxPacketSize - 2 {
          PackFits(payload, View(), rest, copyBase);
          StageRest(iovec[i][copyBase..]);
          copyBase := 0;
          i := i + 1;
        } else {
          ghost var st0 := View();
          ghost var (p, st1) := Emit(payload, st0, rest, copyBase);
          PackSends(payload, st0, rest, copyBase);
          var copyLen := SendWhatFits(iovec, i, copyBase, maxPacketSize);
          maxPacketSize := payload - 2;
          ghost var sent0 := sent;
          sent := sent + [p];
          if copyBase + copyLen == |iovec[i]| {
            copyBase := 0;
            i := i + 1;
          } else {
            copyBase := copyBase + copyLen;
          }
          ghost var out := Pack(payload, View(), iovec[i..], copyBase).1;
          assert sent0 + ([p] + out) == sent + out;
        }
      }
      PackNothing(payload, View());
      assert iovec[i..] == [];
    }

    /** A message ended in the staging buffer: count it. */
    method CountMessage()
      requires Buffered() && StageOk(payload, View()) && cur != []
      modifies this`packedCount, this`segs, this`cur, packedLens
      ensures Valid()
      ensures View() == Close(old(View())) && wire == old(wire)
    {
      CloseOk(payload, View());
      FlattenSnoc(segs, cur);
      PiecesBounded(segs);
      packedCount := packedCount + 1;
      packedLens[packedCount] := 0;
      segs, cur := segs + [cur], [];
      assert Flatten(segs) + [] == Flatten(segs);
    }

    /** `callback_token_received_fn`; `space` says whether totemsrp has room. */
    method TokenReceived(space: bool)
      requires Valid()
      modifies this, packedLens
      ensures Valid()
      ensures View() == if space then Flush(old(View())).0 else old(View())
      ensures wire == old(wire) + if space then Flush(old(View())).1 else []
      ensures space ==> packedCount == 0 && fragmentSize == 0
      ensures !space || old(packedCount) == 0 ==> queue == old(queue)
      ensures space && old(packedCount) > 0 ==> |queue| == |old(queue)| + 1 && old(queue) <= queue
    {
      if packedCount == 0 || !space {
        assert wire == wire + [];
        return;
      }
      FlushOk(payload, View());
      FlushBounds(payload, View());
      var continuation := fragmentContinuation;
      fragmentContinuation := 0;
      assert Flatten(segs) + [] == Flatten(segs);
      assert PacketOk(payload, Flush(old(View())).1[0]);
      Transmit(0, continuation, fragmentationData[..fragmentSize], segs);
    }
  }
}
