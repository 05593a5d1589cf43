/** Sender and receiver of exec/totempg.c together: every schedule of every
    sender, any interleaving of their packets, and receivers that start late. */
module RoundTrip {
  import opened Bytes
  import opened Packing
  import opened Stream
  import opened Delivery

  // ---- the reference receiver on streams that are seen from the beginning ----

  lemma {:induction false} FollowIsMeaning(ps: seq<Packet>)
    requires HasPieces(ps) && Chained(ps)
    ensures Follow(ps) == (Following(Meaning(ps).1, LastFragment(ps)), Meaning(ps).0)
  {
    if ps != [] {
      var pre := ps[..|ps| - 1];
      assert forall i :: 0 <= i < |pre| ==> pre[..i] == ps[..i];
      FollowIsMeaning(pre);
    }
  }

  lemma ChainedIsLateChained(ps: seq<Packet>)
    requires Chained(ps)
    ensures LateChained(ps)
  {
    forall i | 1 <= i < |ps|
      ensures ps[i].continuation == ps[i - 1].fragmented
    {
      assert LastFragment(ps[..i]) == ps[i - 1].fragmented;
    }
  }

  lemma ChainedPrefix(ps: seq<Packet>, n: nat)
    requires Chained(ps) && n <= |ps|
    ensures Chained(ps[..n])
  {
    assert forall i :: 0 <= i < n ==> ps[..n][..i] == ps[..i];
  }

  /** Later packets only add messages. */
  lemma {:induction false} MeaningGrows(ps: seq<Packet>, n: nat)
    requires HasPieces(ps) && n <= |ps|
    ensures Meaning(ps[..n]).0 <= Meaning(ps).0
  {
    if n == |ps| {
      assert ps[..n] == ps;
    } else {
      var pre := ps[..|ps| - 1];
      MeaningGrows(pre, n);
      assert pre[..n] == ps[..n];
    }
  }

  // ---- no assembly buffer overflows ----

  ghost predicate Bounded(meaning: (seq<Chunk>, Chunk), max: nat) {
    && |meaning.1| <= max
    && forall i :: 0 <= i < |meaning.0| ==> |meaning.0[i]| <= max
  }

  /** If all messages of a stream are short, so was every unfinished one. */
  lemma {:induction false} BoundedPrefix(ps: seq<Packet>, n: nat, max: nat)
    requires HasPieces(ps) && n <= |ps|
    requires Bounded(Meaning(ps), max)
    ensures Bounded(Meaning(ps[..n]), max)
  {
    if n == |ps| {
      assert ps[..n] == ps;
    } else {
      var pre := ps[..|ps| - 1];
      var p := ps[|ps| - 1];
      var (done, partial) := Meaning(pre);
      var j := Join(partial, p.segs);
      assert |partial| <= |j[0]|;
      var (done', partial') := Meaning(ps);
      assert done <= done';
      if |j| == 1 && p.fragmented != 0 {
        assert partial' == j[0];
      } else {
        assert done'[|done|] == j[0];
      }
      assert forall i :: 0 <= i < |done| ==> done[i] == done'[i];
      BoundedPrefix(pre, n, max);
      assert pre[..n] == ps[..n];
    }
  }

  ghost predicate ShortMessages(msgs: seq<Chunk>) {
    forall i :: 0 <= i < |msgs| ==> |msgs[i]| <= MESSAGE_SIZE_MAX
  }

  /** The packet size is sane: room for a length and a byte, 16-bit lengths, and
      packets shorter than what the network layer takes. */
  predicate PayloadOk(payload: nat) {
    PAYLOAD_MIN <= payload && HEADER_SIZE + payload < KNET_MAX_PACKET_SIZE
  }

  type Payload = n: nat | PayloadOk(n) witness PAYLOAD_MIN

  lemma WireBounded(payload: nat, events: seq<Event>, max: nat)
    requires PayloadOk(payload) && forall i :: 0 <= i < |Accepted(events)| ==> |Accepted(events)[i]| <= max
    ensures HasPieces(RunSender(payload, events).1)
    ensures Bounded(Meaning(RunSender(payload, events).1), max)
  {
    StreamConservation(payload, events);
    var (st, wire) := RunSender(payload, events);
    var (done, partial) := Meaning(wire);
    var all := Accepted(events);
    assert done <= all;
    assert forall i :: 0 <= i < |done| ==> done[i] == all[i];
    if st.segs != [] {
      assert all[|done|] == Join(partial, st.segs)[0];
    }
  }

  // ---- logs of scheduled senders ----

  /** Every node's packets in the log are the first packets of its schedule. */
  ghost predicate LogOf(log: Log, payloads: NodeId -> Payload, schedules: NodeId -> seq<Event>)
  {
    forall n :: StreamOf(log, n) <= RunSender(payloads(n), schedules(n)).1
  }

  lemma {:induction false} LogPieces(log: Log)
    requires forall n :: HasPieces(StreamOf(log, n))
    ensures LogHasPieces(log)
  {
    if log != [] {
      var pre := log[..|log| - 1];
      var (node, p) := log[|log| - 1];
      forall n
        ensures HasPieces(StreamOf(pre, n))
      {
        assert HasPieces(StreamOf(log, n));
        assert StreamOf(pre, n) <= StreamOf(log, n);
      }
      LogPieces(pre);
      var s := StreamOf(log, node);
      assert s[|s| - 1] == p;
      forall i | 0 <= i < |log|
        ensures log[i].1.segs != []
      {
        if i < |log| - 1 {
          assert pre[i] == log[i];
        }
      }
    }
  }

  lemma LogFacts(log: Log, payloads: NodeId -> Payload, schedules: NodeId -> seq<Event>)
    requires LogOf(log, payloads, schedules)
    ensures LogHasPieces(log)
    ensures forall n :: Chained(StreamOf(log, n)) && HasPieces(StreamOf(log, n))
    ensures AllLateChained(log)
  {
    hide Chained, HasPieces, LateChained;
    forall n
      ensures Chained(StreamOf(log, n)) && HasPieces(StreamOf(log, n)) && LateChained(StreamOf(log, n))
    {
      StreamFacts(StreamOf(log, n), payloads(n), schedules(n));
    }
    LogPieces(log);
  }

  lemma StreamFacts(s: seq<Packet>, payload: nat, events: seq<Event>)
    requires PayloadOk(payload) && s <= RunSender(payload, events).1
    ensures Chained(s) && HasPieces(s) && LateChained(s)
  {
    var wire := RunSender(payload, events).1;
    StreamConservation(payload, events);
    ChainedPrefix(wire, |s|);
    assert s == wire[..|s|];
    ChainedIsLateChained(s);
  }

  /** The capacity assertion of the receiver (exec/totempg.c:662) never fails. */
  lemma NoOverflow(t: Table, log: Log, payloads: NodeId -> Payload, schedules: NodeId -> seq<Event>)
    requires TableOk(t) && Active(t) == []
    requires LogOf(log, payloads, schedules)
    requires forall n :: ShortMessages(Accepted(schedules(n)))
    ensures LogHasPieces(log)
    ensures Run(t, log).Ran?
  {
    hide Run, RunSender, ShortMessages, Accepted, StreamOf, HasRoom, TableOk;
    LogFacts(log, payloads, schedules);
    forall n
      ensures HasRoom(StreamOf(log, n))
    {
      RoomFromTheStart(StreamOf(log, n), payloads(n), schedules(n));
    }
    RunsExactly(t, log);
  }

  lemma RoomFromTheStart(s: seq<Packet>, payload: nat, events: seq<Event>)
    requires PayloadOk(payload) && ShortMessages(Accepted(events))
    requires s <= RunSender(payload, events).1 && HasPieces(s) && Chained(s)
    ensures HasRoom(s)
  {
    hide RunSender, Accepted, Follow, Meaning, ShortMessages, PacketSize, Chained;
    forall i | 0 <= i < |s|
      ensures PacketFits(s, i)
    {
      ChainedPrefix(s, i);
      FollowIsMeaning(s[..i]);
      assert s[..i] + [s[i]] == s[..i + 1];
      NextPacketFits(payload, events, s[..i], s[i]);
    }
  }

  lemma NextPacketFits(payload: nat, events: seq<Event>, s: seq<Packet>, p: Packet)
    requires PayloadOk(payload) && ShortMessages(Accepted(events))
    requires s + [p] <= RunSender(payload, events).1
    ensures HasPieces(s)
    ensures |Meaning(s).1| + PacketSize(p) < CAPACITY
  {
    var wire := RunSender(payload, events).1;
    WireBounded(payload, events, MESSAGE_SIZE_MAX);
    assert s == wire[..|s|] && p == wire[|s|];
    BoundedPrefix(wire, |s|, MESSAGE_SIZE_MAX);
    ScheduleBounds(payload, events);
  }

  /** Round trip. Whatever the senders' schedules and the interleaving of their
      packets, the receiver never overflows a buffer and has delivered, for each
      sender, the first messages the sender accepted, in order. When all of a
      sender's packets have arrived only its partial and staged messages are
      missing, and none if the last thing it saw is a token with queue space. */
  lemma DeliveredIsSent(t: Table, log: Log, payloads: NodeId -> Payload, schedules: NodeId -> seq<Event>)
    requires TableOk(t) && Active(t) == []
    requires LogOf(log, payloads, schedules)
    requires forall n :: ShortMessages(Accepted(schedules(n)))
    ensures LogHasPieces(log) && Run(t, log).Ran?
    ensures forall n :: FromNode(Run(t, log).out, n) <= Accepted(schedules(n))
    ensures forall n :: var (st, wire) := RunSender(payloads(n), schedules(n));
                        StreamOf(log, n) == wire ==>
                          && HasPieces(wire)
                          && FromNode(Run(t, log).out, n) + Pending(st, Meaning(wire).1) == Accepted(schedules(n))
                          && (Flushed(schedules(n)) || st.segs == [] ==>
                                FromNode(Run(t, log).out, n) == Accepted(schedules(n)))
  {
    hide Run, Follow, Meaning, RunSender, Agrees, Entry, TableOk, Accepted, Pending, Chained, ShortMessages,
         FromNode, StreamOf;
    NoOverflow(t, log, payloads, schedules);
    LogFacts(log, payloads, schedules);
    RunAgrees(t, log);
    forall n
      ensures FromNode(Run(t, log).out, n) == Meaning(StreamOf(log, n)).0
      ensures Meaning(StreamOf(log, n)).0 <= Accepted(schedules(n))
      ensures var (st, wire) := RunSender(payloads(n), schedules(n));
              && HasPieces(wire)
              && Meaning(wire).0 + Pending(st, Meaning(wire).1) == Accepted(schedules(n))
              && (Flushed(schedules(n)) || st.segs == [] ==> Meaning(wire).0 == Accepted(schedules(n)))
    {
      var s := StreamOf(log, n);
      FollowIsMeaning(s);
      StreamConservation(payloads(n), schedules(n));
      var wire := RunSender(payloads(n), schedules(n)).1;
      assert s == wire[..|s|];
      MeaningGrows(wire, |s|);
    }
  }
}
