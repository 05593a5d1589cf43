/** Sender and receiver of exec/totempg.c on bytes: what the receivers take apart is
    what the senders put together, and the messages come out as they went in. */
module EndToEnd {
  import opened Wrappers
  import opened Bytes
  import opened Packing
  import opened Stream
  import opened Reassembly
  import opened Delivery
  import opened RoundTrip
  import opened LateJoiner
  import opened Wire
  import Groups

  /** The bytes of one sender. */
  function BytesOf(log: ByteLog, node: NodeId): seq<Chunk> {
    if log == [] then []
    else
      var rest := BytesOf(log[..|log| - 1], node);
      if log[|log| - 1].0 == node then rest + [log[|log| - 1].1] else rest
  }

  function EncodeAll(ps: seq<Packet>): (r: seq<Chunk>)
    requires HasPieces(ps)
    ensures |r| == |ps|
    ensures forall i :: 0 <= i < |ps| ==> r[i] == Encode(ps[i])
  {
    seq(|ps|, i requires 0 <= i < |ps| => Encode(ps[i]))
  }

  /** A log of bytes is that of the packets. */
  ghost predicate Carries(bytes: ByteLog, log: Log) {
    && |bytes| == |log|
    && forall i :: 0 <= i < |log| ==>
         && Encodable(log[i].1)
         && bytes[i] == (log[i].0, Encode(log[i].1))
  }

  /** Receiving the bytes is receiving the packets. */
  lemma {:induction false} RunBytesIsRun(t: Table, bytes: ByteLog, log: Log)
    requires Carries(bytes, log)
    ensures LogHasPieces(log) && RunBytes(t, bytes) == Run(t, log)
  {
    hide Receive, Decode, Encode, FrameOf;
    if log != [] {
      var k := |log| - 1;
      RunBytesIsRun(t, bytes[..k], log[..k]);
      SameReception(log[k].1);
    }
  }

  lemma SameReception(p: Packet)
    requires Encodable(p)
    ensures Decode(Encode(p)) == Some(FrameOf(p)) && FrameOf(p).lens != []
  {
    DecodeEncode(p);
  }

  // ---- the packets behind the bytes ----

  /** Every node's bytes in the log are those of its packets from some place on. */
  ghost predicate BytesFrom(bytes: ByteLog, payloads: NodeId -> Payload, schedules: NodeId -> seq<Event>,
                            starts: NodeId -> nat)
  {
    forall n :: BytesPrefix(BytesOf(bytes, n), RunSender(payloads(n), schedules(n)).1, starts(n))
  }

  ghost predicate BytesPrefix(bytes: seq<Chunk>, wire: seq<Packet>, j: nat) {
    HasPieces(wire) && j <= |wire| && bytes <= EncodeAll(wire[j..])
  }

  /** The packets of a node that its bytes are. */
  ghost function Seen(wire: seq<Packet>, j: nat, count: nat): seq<Packet> {
    if j + count <= |wire| then wire[j..j + count] else []
  }

  /** The packets that the bytes are the encoding of. */
  lemma {:induction false} PacketsBehind(bytes: ByteLog, payloads: NodeId -> Payload,
                                         schedules: NodeId -> seq<Event>, starts: NodeId -> nat)
    returns (log: Log)
    requires BytesFrom(bytes, payloads, schedules, starts)
    ensures Carries(bytes, log)
    ensures forall n :: Behind(bytes, log, n, RunSender(payloads(n), schedules(n)).1, starts(n))
    decreases |bytes|
  {
    hide RunSender, Encode, BytesPrefix, Behind, StreamOf, BytesOf;
    if bytes == [] {
      log := [];
      forall n
        ensures Behind(bytes, log, n, RunSender(payloads(n), schedules(n)).1, starts(n))
      {
        NothingBehind(n, RunSender(payloads(n), schedules(n)).1, starts(n));
      }
    } else {
      var k := |bytes| - 1;
      forall n
        ensures BytesPrefix(BytesOf(bytes[..k], n), RunSender(payloads(n), schedules(n)).1, starts(n))
      {
        assert BytesPrefix(BytesOf(bytes, n), RunSender(payloads(n), schedules(n)).1, starts(n));
        PrefixBefore(bytes, n, RunSender(payloads(n), schedules(n)).1, starts(n));
      }
      var pre := PacketsBehind(bytes[..k], payloads, schedules, starts);
      var node := bytes[k].0;
      var wire := RunSender(payloads(node), schedules(node)).1;
      assert BytesPrefix(BytesOf(bytes, node), wire, starts(node));
      LastBytes(bytes, wire, starts(node));
      var i := starts(node) + |BytesOf(bytes[..k], node)|;
      log := pre + [(node, wire[i])];
      WireEncodable(payloads(node), schedules(node), i);
      forall n
        ensures Behind(bytes, log, n, RunSender(payloads(n), schedules(n)).1, starts(n))
      {
        assert Behind(bytes[..k], pre, n, RunSender(payloads(n), schedules(n)).1, starts(n));
        OneMoreBehind(bytes, log, n, RunSender(payloads(n), schedules(n)).1, starts(n));
      }
    }
  }

  /** The packets of a node in the log are those of its bytes. */
  ghost predicate Behind(bytes: ByteLog, log: Log, n: NodeId, wire: seq<Packet>, j: nat) {
    var count := |BytesOf(bytes, n)|;
    j + count <= |wire| && StreamOf(log, n) == Seen(wire, j, count)
  }

  lemma NothingBehind(n: NodeId, wire: seq<Packet>, j: nat)
    requires BytesPrefix(BytesOf([], n), wire, j)
    ensures Behind([], [], n, wire, j)
  {
  }

  lemma OneMoreBehind(bytes: ByteLog, log: Log, n: NodeId, wire: seq<Packet>, j: nat)
    requires bytes != [] && log != [] && bytes[|bytes| - 1].0 == log[|log| - 1].0
    requires Behind(bytes[..|bytes| - 1], log[..|log| - 1], n, wire, j)
    requires var i := j + |BytesOf(bytes[..|bytes| - 1], n)|;
             log[|log| - 1].0 == n ==> i < |wire| && log[|log| - 1].1 == wire[i]
    ensures Behind(bytes, log, n, wire, j)
  {
    StreamNext(log, n);
  }

  lemma PrefixBefore(bytes: ByteLog, n: NodeId, wire: seq<Packet>, j: nat)
    requires bytes != [] && BytesPrefix(BytesOf(bytes, n), wire, j)
    ensures BytesPrefix(BytesOf(bytes[..|bytes| - 1], n), wire, j)
  {
    hide Encode;
  }

  lemma LastBytes(bytes: ByteLog, wire: seq<Packet>, j: nat)
    requires bytes != [] && BytesPrefix(BytesOf(bytes, bytes[|bytes| - 1].0), wire, j)
    ensures var (n, b) := bytes[|bytes| - 1];
            var i := j + |BytesOf(bytes[..|bytes| - 1], n)|;
            && i < |wire| && wire[i].segs != [] && b == Encode(wire[i])
            && j + |BytesOf(bytes, n)| == i + 1
  {
    hide Encode;
    var (n, b) := bytes[|bytes| - 1];
    var s := BytesOf(bytes, n);
    assert s[|s| - 1] == b == EncodeAll(wire[j..])[|s| - 1];
  }

  lemma WireEncodable(payload: nat, events: seq<Event>, i: nat)
    requires PayloadOk(payload) && i < |RunSender(payload, events).1|
    ensures Encodable(RunSender(payload, events).1[i])
  {
    hide RunSender, Encodable;
    ScheduleBounds(payload, events);
    PacketEncodable(payload, RunSender(payload, events).1[i]);
  }

  /** From the start of every stream. */
  lemma PacketsFromTheStart(bytes: ByteLog, payloads: NodeId -> Payload, schedules: NodeId -> seq<Event>)
    returns (log: Log)
    requires BytesFrom(bytes, payloads, schedules, _ => 0)
    ensures Carries(bytes, log) && LogOf(log, payloads, schedules)
    ensures forall n :: |StreamOf(log, n)| == |BytesOf(bytes, n)|
  {
    hide RunSender, StreamOf, BytesOf;
    log := PacketsBehind(bytes, payloads, schedules, _ => 0);
    forall n
      ensures |StreamOf(log, n)| == |BytesOf(bytes, n)| && StreamOf(log, n) <= RunSender(payloads(n), schedules(n)).1
    {
      assert Behind(bytes, log, n, RunSender(payloads(n), schedules(n)).1, 0);
    }
  }

  /** Round trip on bytes. Whatever the senders' schedules and packet sizes and the
      interleaving of the bytes they send, the receiver survives and has delivered, for
      each sender, the first messages the sender accepted, in order; all of them when
      everything has arrived and the sender last saw a token with queue space. */
  lemma BytesDelivered(t: Table, bytes: ByteLog, payloads: NodeId -> Payload, schedules: NodeId -> seq<Event>)
    requires TableOk(t) && Active(t) == []
    requires BytesFrom(bytes, payloads, schedules, _ => 0)
    requires forall n :: ShortMessages(Accepted(schedules(n)))
    ensures RunBytes(t, bytes).Ran?
    ensures forall n :: FromNode(RunBytes(t, bytes).out, n) <= Accepted(schedules(n))
    ensures forall n :: var (st, wire) := RunSender(payloads(n), schedules(n));
              |BytesOf(bytes, n)| == |wire| && (Flushed(schedules(n)) || st.segs == []) ==>
                FromNode(RunBytes(t, bytes).out, n) == Accepted(schedules(n))
  {
    hide TableOk, ShortMessages, RunSender, Accepted, Run, RunBytes, BytesOf, StreamOf, FromNode, Meaning, Pending;
    var log := PacketsFromTheStart(bytes, payloads, schedules);
    RunBytesIsRun(t, bytes, log);
    DeliveredIsSent(t, log, payloads, schedules);
    forall n
      ensures var (st, wire) := RunSender(payloads(n), schedules(n));
              |BytesOf(bytes, n)| == |wire| && (Flushed(schedules(n)) || st.segs == []) ==>
                FromNode(RunBytes(t, bytes).out, n) == Accepted(schedules(n))
    {
      WholeStream(bytes, log, n, RunSender(payloads(n), schedules(n)).1);
    }
  }

  lemma WholeStream(bytes: ByteLog, log: Log, n: NodeId, wire: seq<Packet>)
    requires StreamOf(log, n) <= wire && |StreamOf(log, n)| == |BytesOf(bytes, n)|
    ensures |BytesOf(bytes, n)| == |wire| ==> StreamOf(log, n) == wire
  {
  }

  /** Late joiner on bytes: the receiver survives exactly if every packet of every sender
      finds room, and then has delivered the messages from the place of resumption on. */
  lemma LateBytes(t: Table, bytes: ByteLog, payloads: NodeId -> Payload, schedules: NodeId -> seq<Event>,
                  starts: NodeId -> nat)
    requires TableOk(t) && Active(t) == []
    requires BytesFrom(bytes, payloads, schedules, starts)
    ensures RunBytes(t, bytes).Ran? <==>
            forall n :: HasRoom(Seen(RunSender(payloads(n), schedules(n)).1, starts(n), |BytesOf(bytes, n)|))
    ensures RunBytes(t, bytes).Ran? ==>
              forall n :: Resumes(FromNode(RunBytes(t, bytes).out, n),
                                  Seen(RunSender(payloads(n), schedules(n)).1, starts(n), |BytesOf(bytes, n)|),
                                  payloads(n), schedules(n), starts(n))
  {
    hide TableOk, RunSender, Run, RunBytes, BytesOf, StreamOf, FromNode, HasRoom, Resumes, LateStream, Seen;
    var log := PacketsBehind(bytes, payloads, schedules, starts);
    forall n
      ensures LateStream(StreamOf(log, n), RunSender(payloads(n), schedules(n)).1, starts(n))
    {
      assert Behind(bytes, log, n, RunSender(payloads(n), schedules(n)).1, starts(n));
      SeenIsLate(RunSender(payloads(n), schedules(n)).1, starts(n), |BytesOf(bytes, n)|);
    }
    RunBytesIsRun(t, bytes, log);
    LateJoinerSuffix(t, log, payloads, schedules, starts);
  }

  lemma SeenIsLate(wire: seq<Packet>, j: nat, count: nat)
    requires j + count <= |wire|
    ensures LateStream(Seen(wire, j, count), wire, j)
  {
    assert wire[j..j + count] == wire[j..][..count];
  }

  /** Group addressing on bytes: an instance is given, of each node and in order, the data
      addressed to one of its groups; all of it when everything has arrived. */
  lemma GroupBytes(t: Table, bytes: ByteLog, payloads: NodeId -> Payload,
                   schedules: NodeId -> seq<Groups.GroupEvent>, mine: seq<Chunk>)
    requires TableOk(t) && Active(t) == []
    requires forall n :: Groups.GroupEventsOk(schedules(n))
    requires BytesFrom(bytes, payloads, n => Groups.LowerAll(schedules(n)), _ => 0)
    requires forall n :: ShortMessages(Accepted(Groups.LowerAll(schedules(n))))
    ensures RunBytes(t, bytes).Ran?
    ensures forall n :: var got := FromNode(RunBytes(t, bytes).out, n);
              && (forall i :: 0 <= i < |got| ==> Groups.HasHeader(got[i]))
              && Groups.Payloads(got, mine) <= Groups.Expected(schedules(n), mine)
    ensures forall n :: var (st, wire) := RunSender(payloads(n), Groups.LowerAll(schedules(n)));
              |BytesOf(bytes, n)| == |wire| && (Groups.GroupFlushed(schedules(n)) || st.segs == []) ==>
                Groups.Payloads(FromNode(RunBytes(t, bytes).out, n), mine) == Groups.Expected(schedules(n), mine)
  {
    hide TableOk, ShortMessages, RunSender, Accepted, Run, RunBytes, BytesOf, StreamOf, FromNode, Groups.Payloads,
         Groups.Expected, Groups.HasHeader, Groups.LowerAll;
    var low: NodeId -> seq<Event> := n => Groups.LowerAll(schedules(n));
    var log := PacketsFromTheStart(bytes, payloads, low);
    RunBytesIsRun(t, bytes, log);
    Groups.GroupDelivery(t, log, payloads, schedules, mine);
    forall n
      ensures var (st, wire) := RunSender(payloads(n), Groups.LowerAll(schedules(n)));
              |BytesOf(bytes, n)| == |wire| && (Groups.GroupFlushed(schedules(n)) || st.segs == []) ==>
                Groups.Payloads(FromNode(RunBytes(t, bytes).out, n), mine) == Groups.Expected(schedules(n), mine)
    {
      assert StreamOf(log, n) <= RunSender(payloads(n), low(n)).1;
      WholeStream(bytes, log, n, RunSender(payloads(n), Groups.LowerAll(schedules(n))).1);
    }
  }
}
