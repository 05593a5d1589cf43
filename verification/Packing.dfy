/** The sending side of exec/totempg.c as functions on values: messages are
    staged, several are packed into one packet, and a message that does not fit
    is split over packets that carry wrap-around fragment numbers. */
module Packing {
  import opened Bytes

  /** One multicast packet: fragment number of the last packed message (0 when it
      is complete), fragment number that the first packed message continues (0
      when it starts here), and the packed pieces. */
  datatype Packet = Packet(fragmented: Byte, continuation: Byte, segs: seq<Chunk>)

  /** The static staging state between two iterations of the copy loop: completed
      pieces, the piece of the message being copied, `fragment_continuation` and
      `next_fragment`. */
  datatype Stage = Stage(segs: seq<Chunk>, cur: Chunk, continuation: Byte, next: Byte)

  const EMPTY_STAGE := Stage([], [], 0, 1)

  const HEADER_SIZE := 8

  /** The smallest payload for which the packing loop is sound: one length field,
      the two spare bytes of the fit test. */
  const PAYLOAD_MIN := 4

  /** `fragment_size`. */
  function Size(st: Stage): nat {
    |Flatten(st.segs)| + |st.cur|
  }

  /** `max_packet_size`: the payload minus one length field for every piece. */
  function Room(payload: nat, st: Stage): int {
    payload - 2 * (|st.segs| + 1)
  }

  ghost predicate AllNonEmpty(segs: seq<Chunk>) {
    forall i :: 0 <= i < |segs| ==> segs[i] != []
  }

  ghost predicate StageOk(payload: nat, st: Stage) {
    && payload >= PAYLOAD_MIN
    && AllNonEmpty(st.segs)
    && Size(st) < Room(payload, st)
    && (st.cur != [] ==> Size(st) < Room(payload, st) - 2)
  }

  /** `next_fragment` after the skip over 0. */
  function FragmentNumber(next: Byte): (r: Byte)
    ensures r != 0
  {
    if next == 0 then 1 else next
  }

  function Min(a: int, b: int): int {
    if a <= b then a else b
  }

  /** Staged pieces are not empty, so there are no more of them than bytes. */
  lemma {:induction false} PiecesBounded(segs: seq<Chunk>)
    requires AllNonEmpty(segs)
    ensures |segs| <= |Flatten(segs)|
  {
    if segs != [] {
      PiecesBounded(segs[1..]);
    }
  }

  /** The subtraction in the fit test (exec/totempg.c:939-940) is an unsigned one;
      it never wraps. */
  lemma FitTestDoesNotWrap(payload: nat, st: Stage)
    requires StageOk(payload, st)
    ensures Room(payload, st) >= 2
    ensures 2 * |st.segs| + 2 <= payload
  {
    PiecesBounded(st.segs);
  }

  /** The copy loop from iovec `chunks[0]` at offset `base` to the end. */
  function Pack(payload: nat, st: Stage, chunks: seq<Chunk>, base: nat): (r: (Stage, seq<Packet>))
    requires StageOk(payload, st)
    requires AllNonEmpty(chunks)
    requires if chunks == [] then base == 0 else base < |chunks[0]|
    ensures StageOk(payload, r.0)
    decreases |chunks|, if chunks == [] then 0 else |chunks[0]| - base
  {
    if chunks == [] then (st, [])
    else
      var c := chunks[0];
      if |c| + Size(st) < Room(payload, st) - 2 then
        Pack(payload, st.(cur := st.cur + c[base..], next := 1), chunks[1..], 0)
      else
        var n := CopyLen(payload, st, c, base);
        var (p, st') := Emit(payload, st, chunks, base);
        var rest := if base + n == |c|
                    then Pack(payload, st', chunks[1..], 0)
                    else Pack(payload, st', chunks, base + n);
        (rest.0, [p] + rest.1)
  }

  /** How much of the iovec goes into the packet that is about to be sent. */
  function CopyLen(payload: nat, st: Stage, c: Chunk, base: nat): (n: nat)
    requires StageOk(payload, st)
    requires base < |c|
    ensures 0 < n && base + n <= |c|
  {
    Min(|c| - base, Room(payload, st) - Size(st))
  }

  /** Send what fits: the packet and the emptied staging state. */
  function Emit(payload: nat, st: Stage, chunks: seq<Chunk>, base: nat): (r: (Packet, Stage))
    requires StageOk(payload, st)
    requires chunks != [] && base < |chunks[0]|
    ensures StageOk(payload, r.1)
  {
    var c := chunks[0];
    var n := CopyLen(payload, st, c, base);
    var more := |chunks| > 1 || base + n < |c|;
    var num := FragmentNumber(st.next);
    (Packet(if more then num else 0, st.continuation, st.segs + [st.cur + c[base..base + n]]),
     Stage([], [], if more then num else 0, if more then (num + 1) % 256 else st.next))
  }

  // One turn of the copy loop, branch by branch.

  lemma PackNothing(payload: nat, st: Stage)
    requires StageOk(payload, st)
    ensures Pack(payload, st, [], 0) == (st, [])
  {
  }

  lemma PackFits(payload: nat, st: Stage, chunks: seq<Chunk>, base: nat)
    requires StageOk(payload, st) && AllNonEmpty(chunks)
    requires chunks != [] && base < |chunks[0]|
    requires |chunks[0]| + Size(st) < Room(payload, st) - 2
    ensures StageOk(payload, st.(cur := st.cur + chunks[0][base..], next := 1))
    ensures Pack(payload, st, chunks, base) ==
            Pack(payload, st.(cur := st.cur + chunks[0][base..], next := 1), chunks[1..], 0)
  {
  }

  lemma PackSends(payload: nat, st: Stage, chunks: seq<Chunk>, base: nat)
    requires StageOk(payload, st) && AllNonEmpty(chunks)
    requires chunks != [] && base < |chunks[0]|
    requires |chunks[0]| + Size(st) >= Room(payload, st) - 2
    ensures var n := CopyLen(payload, st, chunks[0], base);
            var (p, st') := Emit(payload, st, chunks, base);
            var rest := if base + n == |chunks[0]|
                        then Pack(payload, st', chunks[1..], 0)
                        else Pack(payload, st', chunks, base + n);
            Pack(payload, st, chunks, base) == (rest.0, [p] + rest.1)
  {
  }

  /** A message that ended in the staging buffer is counted as packed. */
  function Close(st: Stage): Stage {
    if st.cur == [] then st else st.(segs := st.segs + [st.cur], cur := [])
  }

  /** `mcast_msg` when the queue has room. */
  function Mcast(payload: nat, st: Stage, chunks: seq<Chunk>): (r: (Stage, seq<Packet>))
    requires StageOk(payload, st)
    ensures r.0.cur == []
  {
    var (st', out) := Pack(payload, st, NonEmpty(chunks), 0);
    (Close(st'), out)
  }

  lemma CloseOk(payload: nat, st: Stage)
    requires StageOk(payload, st)
    ensures StageOk(payload, Close(st))
  {
    if st.cur != [] {
      FlattenSnoc(st.segs, st.cur);
    }
  }

  /** `callback_token_received_fn` when the queue has room. */
  function Flush(st: Stage): (Stage, seq<Packet>) {
    if st.segs == [] then (st, [])
    else (st.(segs := [], continuation := 0), [Packet(0, st.continuation, st.segs)])
  }

  lemma FlushOk(payload: nat, st: Stage)
    requires StageOk(payload, st) && st.cur == []
    ensures StageOk(payload, Flush(st).0) && Flush(st).0.cur == []
  {
    PiecesBounded(st.segs);
  }

  // ---- what is on the wire ----

  /** Bytes of the packet on the wire: header, one length per piece, the pieces. */
  function PacketSize(p: Packet): nat {
    HEADER_SIZE + 2 * |p.segs| + |Flatten(p.segs)|
  }

  /** At least one data byte, at most `net_mtu` bytes, no empty piece. */
  ghost predicate PacketOk(payload: nat, p: Packet) {
    && p.segs != []
    && AllNonEmpty(p.segs)
    && PacketSize(p) <= HEADER_SIZE + payload
  }

  ghost predicate AllPacketsOk(payload: nat, packets: seq<Packet>) {
    forall i :: 0 <= i < |packets| ==> PacketOk(payload, packets[i])
  }

  lemma EmitOk(payload: nat, st: Stage, chunks: seq<Chunk>, base: nat)
    requires StageOk(payload, st)
    requires chunks != [] && base < |chunks[0]|
    ensures PacketOk(payload, Emit(payload, st, chunks, base).0)
  {
    var n := CopyLen(payload, st, chunks[0], base);
    var seg := st.cur + chunks[0][base..base + n];
    FlattenSnoc(st.segs, seg);
  }

  /** Packet bounds: every packet of a call is within `net_mtu` and not empty. */
  lemma {:induction false} PackBounds(payload: nat, st: Stage, chunks: seq<Chunk>, base: nat)
    requires StageOk(payload, st)
    requires AllNonEmpty(chunks)
    requires if chunks == [] then base == 0 else base < |chunks[0]|
    ensures AllPacketsOk(payload, Pack(payload, st, chunks, base).1)
    decreases |chunks|, if chunks == [] then 0 else |chunks[0]| - base
  {
    if chunks != [] {
      var c := chunks[0];
      if |c| + Size(st) < Room(payload, st) - 2 {
        PackBounds(payload, st.(cur := st.cur + c[base..], next := 1), chunks[1..], 0);
      } else {
        EmitOk(payload, st, chunks, base);
        var n := CopyLen(payload, st, c, base);
        var st' := Emit(payload, st, chunks, base).1;
        if base + n == |c| {
          PackBounds(payload, st', chunks[1..], 0);
        } else {
          PackBounds(payload, st', chunks, base + n);
        }
      }
    }
  }

  lemma FlushBounds(payload: nat, st: Stage)
    requires StageOk(payload, st) && st.cur == []
    ensures AllPacketsOk(payload, Flush(st).1)
  {
  }
}
