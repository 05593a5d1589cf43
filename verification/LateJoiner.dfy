/** Receivers that start in the middle of a sender's stream: what they deliver, when
    their buffers are large enough, and a stream for which they are not. */
module LateJoiner {
  import opened Bytes
  import opened Packing
  import opened Stream
  import opened Delivery
  import opened RoundTrip

  /** A stream that stops at a message boundary can be cut there. */
  lemma {:induction false} MeaningSplit(a: seq<Packet>, b: seq<Packet>)
    requires HasPieces(a + b) && HasPieces(a) && HasPieces(b) && LastFragment(a) == 0
    ensures Meaning(a + b) == (Meaning(a).0 + Meaning(b).0, Meaning(b).1)
    decreases |b|
  {
    hide Meaning;
    if b == [] {
      assert a + b == a;
      MeaningAtBoundary(a);
    } else {
      var b', p := b[..|b| - 1], b[|b| - 1];
      assert a + b == (a + b') + [p] && b == b' + [p];
      MeaningSplit(a, b');
      MeaningSnoc(a + b', p);
      MeaningSnoc(b', p);
      var j := Join(Meaning(b').1, p.segs);
      assert Meaning(a).0 + Meaning(b').0 + j == Meaning(a).0 + (Meaning(b').0 + j);
      assert Meaning(a).0 + Meaning(b').0 + j[..|j| - 1] == Meaning(a).0 + (Meaning(b').0 + j[..|j| - 1]);
    }
  }

  lemma MeaningAtBoundary(a: seq<Packet>)
    requires HasPieces(a) && LastFragment(a) == 0
    ensures Meaning(a) == (Meaning(a).0 + Meaning([]).0, Meaning([]).1)
  {
    assert Meaning(a).0 + [] == Meaning(a).0;
  }

  lemma {:induction false} FollowSplit(a: seq<Packet>, b: seq<Packet>)
    requires HasPieces(a + b) && HasPieces(a) && HasPieces(b)
    requires Follow(a) == (Following([], 0), [])
    ensures Follow(a + b) == Follow(b)
    decreases |b|
  {
    if b == [] {
      assert a + b == a;
    } else {
      var b' := b[..|b| - 1];
      assert (a + b)[..|a + b| - 1] == a + b';
      FollowSplit(a, b');
    }
  }

  /** First packet from `j` on that a receiver starting at `j` can use: `j` itself
      if a message starts there, else the one after the next message end. */
  function Resume(wire: seq<Packet>, j: nat): (k: nat)
    requires j <= |wire|
    ensures j <= k <= |wire|
  {
    if j < |wire| && wire[j].continuation == 0 then j else AfterEnd(wire, j)
  }

  function AfterEnd(wire: seq<Packet>, j: nat): (k: nat)
    requires j <= |wire|
    ensures j <= k <= |wire|
    ensures k < |wire| ==> k > j && wire[k - 1].fragmented == 0
    ensures forall i :: j <= i < k - 1 ==> wire[i].fragmented != 0
    decreases |wire| - j
  {
    if j == |wire| then j
    else if wire[j].fragmented == 0 then j + 1
    else AfterEnd(wire, j + 1)
  }

  /** While no message ends, a receiver that missed the beginning waits. */
  lemma {:induction false} FollowWaits(ps: seq<Packet>)
    requires HasPieces(ps) && LateChained(ps) && ps != [] && ps[0].continuation != 0
    requires forall i :: 0 <= i < |ps| - 1 ==> ps[i].fragmented != 0
    ensures Follow(ps).1 == []
    ensures if ps[|ps| - 1].fragmented == 0 then Follow(ps).0 == Following([], 0) else Follow(ps).0.Waiting?
  {
    var pre := ps[..|ps| - 1];
    if pre != [] {
      FollowWaits(pre);
    }
  }

  /** A receiver that starts at packet `j` of a sender's stream. */
  lemma FollowLate(wire: seq<Packet>, j: nat)
    requires HasPieces(wire) && Chained(wire) && j <= |wire|
    ensures var k := Resume(wire, j);
            && Follow(wire[j..]).1 == Meaning(wire[k..]).0
            && Meaning(wire).0 == Meaning(wire[..k]).0 + Meaning(wire[k..]).0
  {
    hide Follow, Meaning, Chained, LastFragment;
    var k := Resume(wire, j);
    if k == |wire| {
      FollowNever(wire, j);
    } else {
      if k == j {
        FollowHere(wire, k);
      } else {
        FollowResumes(wire, j, k);
      }
      assert wire == wire[..k] + wire[k..];
      MeaningSplit(wire[..k], wire[k..]);
    }
  }

  lemma FollowHere(wire: seq<Packet>, k: nat)
    requires HasPieces(wire) && Chained(wire) && k < |wire| && wire[k].continuation == 0
    ensures Follow(wire[k..]).1 == Meaning(wire[k..]).0
    ensures LastFragment(wire[..k]) == 0
  {
    BoundaryBefore(wire, k);
    ChainedSuffix(wire, k);
    FollowIsMeaning(wire[k..]);
  }

  lemma BoundaryBefore(wire: seq<Packet>, k: nat)
    requires Chained(wire) && k < |wire| && (wire[k].continuation == 0 || (k > 0 && wire[k - 1].fragmented == 0))
    ensures LastFragment(wire[..k]) == 0 && wire[k].continuation == 0
  {
  }

  /** No message ends after `j`: nothing is delivered. */
  lemma FollowNever(wire: seq<Packet>, j: nat)
    requires HasPieces(wire) && Chained(wire) && j <= |wire|
    requires Resume(wire, j) == |wire|
    ensures Follow(wire[j..]).1 == [] == Meaning(wire[|wire|..]).0
    ensures Meaning(wire).0 == Meaning(wire[..|wire|]).0 + []
  {
    assert wire[..|wire|] == wire;
    if j < |wire| {
      LateChainedSuffix(wire, j);
      FollowWaits(wire[j..]);
    }
  }

  /** A message ends at packet `k - 1`: from `k` on the stream is followed. */
  lemma FollowResumes(wire: seq<Packet>, j: nat, k: nat)
    requires HasPieces(wire) && Chained(wire) && j < k < |wire| && wire[j].continuation != 0
    requires wire[k - 1].fragmented == 0
    requires forall i :: j <= i < k - 1 ==> wire[i].fragmented != 0
    ensures Follow(wire[j..]).1 == Meaning(wire[k..]).0
    ensures LastFragment(wire[..k]) == 0
  {
    hide Follow, Meaning, Chained, LastFragment;
    BoundaryBefore(wire, k);
    var a, b := wire[j..k], wire[k..];
    assert wire[j..] == a + b;
    assert wire[..k][j..] == a;
    ChainedPrefix(wire, k);
    LateChainedSuffix(wire[..k], j);
    FollowWaits(a);
    FollowSplit(a, b);
    ChainedSuffix(wire, k);
    FollowIsMeaning(b);
  }

  lemma LateChainedSuffix(wire: seq<Packet>, j: nat)
    requires Chained(wire) && j <= |wire|
    ensures LateChained(wire[j..])
  {
    ChainedIsLateChained(wire);
    var s := wire[j..];
    forall i | 1 <= i < |s|
      ensures s[i].continuation == s[i - 1].fragmented
    {
      assert wire[j + i].continuation == wire[j + i - 1].fragmented;
    }
  }

  lemma ChainedSuffix(wire: seq<Packet>, k: nat)
    requires Chained(wire) && k < |wire| && wire[k].continuation == 0
    ensures Chained(wire[k..])
  {
    LateChainedSuffix(wire, k);
    var s := wire[k..];
    forall i | 0 <= i < |s|
      ensures s[i].continuation == LastFragment(s[..i])
    {
      if i > 0 {
        assert s[..i][i - 1] == s[i - 1];
      }
    }
  }

  // ---- logs of which the receiver sees an end only ----

  /** Every node's packets in the log are packets of its schedule from some place on. */
  ghost predicate LateLog(log: Log, payloads: NodeId -> Payload, schedules: NodeId -> seq<Event>,
                          starts: NodeId -> nat)
  {
    forall n :: LateStream(StreamOf(log, n), RunSender(payloads(n), schedules(n)).1, starts(n))
  }

  ghost predicate LateStream(s: seq<Packet>, wire: seq<Packet>, j: nat) {
    j <= |wire| && s <= wire[j..]
  }

  lemma LateStreamFacts(s: seq<Packet>, payload: nat, events: seq<Event>, j: nat)
    requires PayloadOk(payload) && LateStream(s, RunSender(payload, events).1, j)
    ensures HasPieces(s) && LateChained(s)
    ensures var w := RunSender(payload, events).1[..j + |s|];
            w[j..] == s && HasPieces(w) && Chained(w)
  {
    hide RunSender, Chained, Meaning, Pending, Accepted;
    var wire := RunSender(payload, events).1;
    StreamConservation(payload, events);
    var w := wire[..j + |s|];
    assert w[j..] == wire[j..][..|s|] == s;
    ChainedPrefix(wire, j + |s|);
    LateChainedSuffix(w, j);
  }

  lemma LateLogFacts(log: Log, payloads: NodeId -> Payload, schedules: NodeId -> seq<Event>, starts: NodeId -> nat)
    requires LateLog(log, payloads, schedules, starts)
    ensures LogHasPieces(log) && AllLateChained(log)
  {
    hide HasPieces, LateChained, RunSender, StreamOf, LateStream;
    forall n
      ensures HasPieces(StreamOf(log, n)) && LateChained(StreamOf(log, n))
    {
      LateStreamFacts(StreamOf(log, n), payloads(n), schedules(n), starts(n));
    }
    LogPieces(log);
  }

  /** Late joiner. A receiver with no assembly in use sees the streams of the senders
      from arbitrary places on. The capacity assertion holds exactly if every packet
      finds room. Then, for every sender, it has delivered exactly the messages that
      start at or after the packet where it can resume: a contiguous part of the
      accepted messages, never a truncated or misjoined one, and all of the rest once
      all packets have arrived. */
  lemma LateJoinerSuffix(t: Table, log: Log, payloads: NodeId -> Payload, schedules: NodeId -> seq<Event>,
                         starts: NodeId -> nat)
    requires TableOk(t) && Active(t) == []
    requires LateLog(log, payloads, schedules, starts)
    ensures LogHasPieces(log)
    ensures Run(t, log).Ran? <==> AllHaveRoom(log)
    ensures Run(t, log).Ran? ==>
              forall n :: Resumes(FromNode(Run(t, log).out, n), StreamOf(log, n), payloads(n), schedules(n), starts(n))
  {
    hide Run, RunSender, StreamOf, FromNode, Follow, TableOk, AllHaveRoom, Agrees, Entry, LateChained, Resumes;
    LateLogFacts(log, payloads, schedules, starts);
    RunsExactly(t, log);
    if Run(t, log).Ran? {
      RunAgrees(t, log);
      forall n
        ensures Resumes(FromNode(Run(t, log).out, n), StreamOf(log, n), payloads(n), schedules(n), starts(n))
      {
        ResumesThere(StreamOf(log, n), payloads(n), schedules(n), starts(n));
      }
    }
  }

  /** What was delivered from a stream seen from packet `j` on: the messages behind
      those that end before the place of resumption. */
  ghost predicate Resumes(got: seq<Chunk>, s: seq<Packet>, payload: nat, events: seq<Event>, j: nat)
    requires payload >= PAYLOAD_MIN
  {
    var (st, wire) := RunSender(payload, events);
    && HasPieces(wire) && j + |s| <= |wire|
    && var seen := wire[..j + |s|];
       var skipped := |Meaning(seen[..Resume(seen, j)]).0|;
       && skipped + |got| <= |Accepted(events)|
       && got == Accepted(events)[skipped..skipped + |got|]
       && (s == wire[j..] && (Flushed(events) || st.segs == []) ==> got == Accepted(events)[skipped..])
  }

  lemma ResumesThere(s: seq<Packet>, payload: nat, events: seq<Event>, j: nat)
    requires PayloadOk(payload) && LateStream(s, RunSender(payload, events).1, j) && HasPieces(s)
    ensures Resumes(Follow(s).1, s, payload, events, j)
  {
    hide Follow, Meaning, Chained, Pending, RunSender, Accepted;
    var (st, wire) := RunSender(payload, events);
    StreamConservation(payload, events);
    LateStreamFacts(s, payload, events, j);
    var seen := wire[..j + |s|];
    FollowLate(seen, j);
    MeaningGrows(wire, j + |s|);
    var skip, got := Meaning(seen[..Resume(seen, j)]).0, Follow(s).1;
    assert Meaning(seen).0 == skip + got;
    assert skip + got <= Accepted(events);
    if s == wire[j..] {
      assert seen == wire;
    }
  }

  // ---- messages for which the buffer is large enough ----

  /** Messages of half the maximal size. */
  ghost predicate HalfMessages(msgs: seq<Chunk>) {
    forall i :: 0 <= i < |msgs| ==> |msgs[i]| <= MESSAGE_SIZE_MAX / 2
  }

  /** A receiver never has more in its buffer than twice the unfinished message. */
  lemma {:induction false} HeldTwice(wire: seq<Packet>, j: nat)
    requires HasPieces(wire) && j <= |wire|
    ensures var open, track := |Meaning(wire).1|, Follow(wire[j..]).0;
            if track.Following? then Held(track) <= open else Held(track) <= 2 * open
    decreases |wire|
  {
    hide Follow, Meaning;
    if j < |wire| {
      var pre, p := wire[..|wire| - 1], wire[|wire| - 1];
      assert wire == pre + [p] && wire[j..] == pre[j..] + [p];
      HeldTwice(pre, j);
      MeaningSnoc(pre, p);
      FollowSnoc(pre[j..], p);
    } else {
      FollowNothing();
      assert wire[j..] == [];
    }
  }

  lemma LateRoom(s: seq<Packet>, payload: nat, events: seq<Event>, j: nat)
    requires PayloadOk(payload) && LateStream(s, RunSender(payload, events).1, j)
    requires HalfMessages(Accepted(events))
    ensures HasRoom(s)
  {
    hide RunSender, Accepted, Follow, Meaning, Chained;
    LateStreamFacts(s, payload, events, j);
    var wire := RunSender(payload, events).1;
    WireBounded(payload, events, MESSAGE_SIZE_MAX / 2);
    ScheduleBounds(payload, events);
    forall i | 0 <= i < |s|
      ensures PacketFits(s, i)
    {
      var seen := wire[..j + i];
      assert seen[j..] == s[..i] && wire[j + i] == s[i];
      HeldTwice(seen, j);
      BoundedPrefix(wire, j + i, MESSAGE_SIZE_MAX / 2);
    }
  }

  /** Messages of half the maximal size cannot overflow the buffer of a late joiner. */
  lemma LateNoOverflow(t: Table, log: Log, payloads: NodeId -> Payload, schedules: NodeId -> seq<Event>,
                       starts: NodeId -> nat)
    requires TableOk(t) && Active(t) == []
    requires LateLog(log, payloads, schedules, starts)
    requires forall n :: HalfMessages(Accepted(schedules(n)))
    ensures LogHasPieces(log) && Run(t, log).Ran?
  {
    hide Run, RunSender, StreamOf, HasRoom, TableOk, HalfMessages;
    forall n
      ensures HasRoom(StreamOf(log, n))
    {
      LateRoom(StreamOf(log, n), payloads(n), schedules(n), starts(n));
    }
    LateJoinerSuffix(t, log, payloads, schedules, starts);
  }

  // ---- a message for which it is not ----

  /** The largest payload, and a message of 32 buffers: one byte and as much as then
      fills a packet, sixteen times. Every packet but the last has fragment number 1. */
  const PAYLOAD := KNET_MAX_PACKET_SIZE - HEADER_SIZE - 1

  function Filler(): Chunk {
    seq(PAYLOAD - 3, _ => 0)
  }

  function Piece(): (c: Chunk)
    ensures |c| == PAYLOAD - 2
  {
    [0] + Filler()
  }

  function Pairs(r: nat): seq<Chunk> {
    if r == 0 then [] else [[0], Filler()] + Pairs(r - 1)
  }

  function Packets(r: nat, continuation: Byte): (ps: seq<Packet>)
    requires r > 0
    ensures |ps| == r
  {
    if r == 1 then [Packet(0, continuation, [Piece()])]
    else [Packet(1, continuation, [Piece()])] + Packets(r - 1, 1)
  }

  lemma OnePair()
    ensures |Filler()| == PAYLOAD - 3 && AllNonEmpty([[0], Filler()])
    ensures |Flatten([[0], Filler()])| == PAYLOAD - 2
  {
    assert [[0], Filler()][1..] == [Filler()];
  }

  lemma {:induction false} PairsFacts(r: nat)
    ensures |Pairs(r)| == 2 * r && AllNonEmpty(Pairs(r)) && |Flatten(Pairs(r))| == r * (PAYLOAD - 2)
  {
    hide Filler, Flatten;
    if r == 0 {
      NoPairs();
    } else {
      PairsFacts(r - 1);
      OnePair();
      FlattenAppend([[0], Filler()], Pairs(r - 1));
      assert r * (PAYLOAD - 2) == (r - 1) * (PAYLOAD - 2) + (PAYLOAD - 2);
    }
  }

  lemma NoPairs()
    ensures Flatten(Pairs(0)) == []
  {
  }

  /** The copy loop makes the packets. */
  lemma {:induction false} PackPairs(r: nat, continuation: Byte, next: Byte)
    requires r > 0
    ensures AllNonEmpty(Pairs(r))
    ensures Pack(PAYLOAD, Stage([], [], continuation, next), Pairs(r), 0).1 == Packets(r, continuation)
  {
    hide Pack, Filler;
    PairsFacts(r);
    PairsFacts(r - 1);
    var st, st1 := Stage([], [], continuation, next), Stage([], [0], continuation, 1);
    var chunks := Pairs(r);
    assert chunks[1..] == [Filler()] + Pairs(r - 1) && chunks[1..][1..] == Pairs(r - 1);
    assert |Filler()| == PAYLOAD - 3;
    PackFits(PAYLOAD, st, chunks, 0);
    assert [] + [0][0..] == [0];
    PackSends(PAYLOAD, st1, chunks[1..], 0);
    assert Filler()[0..PAYLOAD - 3] == Filler();
    var (p, st') := Emit(PAYLOAD, st1, chunks[1..], 0);
    assert p.segs == [Piece()];
    if r == 1 {
      PackNothing(PAYLOAD, st');
    } else {
      PackPairs(r - 1, 1, 2);
    }
  }

  /** The packets in the middle, to a receiver that missed the first. */
  function Middle(m: nat): seq<Packet> {
    seq(m, _ => Packet(1, 1, [Piece()]))
  }

  lemma {:induction false} PacketsMiddle(r: nat, m: nat)
    requires m < r
    ensures Packets(r, 1)[..m] == Middle(m)
  {
    if m > 0 {
      PacketsMiddle(r - 1, m - 1);
      assert Packets(r, 1)[..m] == [Packet(1, 1, [Piece()])] + Packets(r - 1, 1)[..m - 1];
    }
  }

  /** Every second packet is counted twice. */
  lemma {:induction false} MiddleWastes(m: nat)
    requires m > 0
    ensures Follow(Middle(m)).0 == Waiting((m + m / 2) * (PAYLOAD - 2), m % 2 == 1)
  {
    hide Follow, Piece;
    var p := Packet(1, 1, [Piece()]);
    assert Middle(m) == Middle(m - 1) + [p];
    FollowSnoc(Middle(m - 1), p);
    if m == 1 {
      FollowNothing();
      assert Middle(0) == [];
    } else {
      MiddleWastes(m - 1);
    }
  }

  function Lonely(s: seq<Packet>): Log {
    seq(|s|, i requires 0 <= i < |s| => (1, s[i]))
  }

  lemma {:induction false} LonelyStream(s: seq<Packet>, n: NodeId)
    ensures StreamOf(Lonely(s), n) == if n == 1 then s else []
  {
    if s != [] {
      var k := |s| - 1;
      LonelyStream(s[..k], n);
      assert Lonely(s)[..k] == Lonely(s[..k]);
      assert s == s[..k] + [s[k]];
    }
  }

  lemma {:induction false} NothingDropped(chunks: seq<Chunk>)
    requires AllNonEmpty(chunks)
    ensures NonEmpty(chunks) == chunks
  {
    if chunks != [] {
      NothingDropped(chunks[1..]);
    }
  }

  lemma SingleSend(chunks: seq<Chunk>)
    requires AllNonEmpty(chunks) && Flatten(chunks) != []
    ensures RunSender(PAYLOAD, [Send(chunks, true)]).1 == Pack(PAYLOAD, EMPTY_STAGE, chunks, 0).1
    ensures Accepted([Send(chunks, true)]) == [Flatten(chunks)]
  {
    hide Pack;
    NothingDropped(chunks);
    assert [Send(chunks, true)][..0] == [];
    var out := Pack(PAYLOAD, EMPTY_STAGE, chunks, 0).1;
    assert [] + out == out;
  }

  /** A late stream with a packet that finds no room. */
  lemma NoRoom(t: Table, s: seq<Packet>, i: nat)
    requires TableOk(t) && Active(t) == []
    requires HasPieces(s) && LateChained(s) && i < |s| && !PacketFits(s, i)
    ensures LogHasPieces(Lonely(s)) && Run(t, Lonely(s)).RunCrash?
  {
    hide Run, TableOk, PacketFits, StreamOf, AllHaveRoom;
    var log := Lonely(s);
    forall n
      ensures LateChained(StreamOf(log, n))
    {
      LonelyStream(s, n);
    }
    RunsExactly(t, log);
    assert !AllHaveRoom(log) by {
      LonelyStream(s, 1);
      RoomOf(log, 1);
    }
  }

  lemma RoomOf(log: Log, n: NodeId)
    ensures AllHaveRoom(log) ==> HasRoom(StreamOf(log, n))
  {
  }

  /** A message within the size limit that ends a receiver which has missed its first
      packet: the capacity assertion fails. */
  lemma LateOverflow(t: Table)
    requires TableOk(t) && Active(t) == []
    ensures var events := [Send(Pairs(16), true)];
            && PayloadOk(PAYLOAD) && ShortMessages(Accepted(events))
            && var wire := RunSender(PAYLOAD, events).1;
               && |wire| == 16 && LogHasPieces(Lonely(wire[1..]))
               && Run(t, Lonely(wire[1..])).RunCrash?
  {
    hide Pairs, Run, Follow, Pack, Packets, RunSender, TableOk, Piece;
    var events := [Send(Pairs(16), true)];
    var wire := RunSender(PAYLOAD, events).1;
    PairsFacts(16);
    SingleSend(Pairs(16));
    PackPairs(16, 0, 1);
    assert wire == Packets(16, 0);
    FirstPacket(15);
    var s := wire[1..];
    LateStreamFacts(s, PAYLOAD, events, 1);
    PacketsMiddle(15, 13);
    PacketsMiddle(15, 12);
    MiddleWastes(12);
    assert s[12] == s[..13][12] == Middle(13)[12] == Packet(1, 1, [Piece()]);
    assert PacketSize(s[12]) == HEADER_SIZE + PAYLOAD by {
      assert Flatten([Piece()]) == Piece();
    }
    NoRoom(t, s, 12);
  }

  lemma FirstPacket(r: nat)
    requires r > 0
    ensures Packets(r + 1, 0) == [Packet(1, 0, [Piece()])] + Packets(r, 1)
    ensures Packets(r + 1, 0)[1..] == Packets(r, 1)
  {
  }
}
