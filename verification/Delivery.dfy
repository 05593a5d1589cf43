/** The assemblies of all sending nodes (exec/totempg.c:278-376): two in-use
    lists and a free list, fed with any interleaving of the nodes' packets. */
module Delivery {
  import opened Wrappers
  import opened Bytes
  import opened Packing
  import opened Stream
  import opened Reassembly

  type NodeId = int

  const MESSAGE_SIZE_MAX := 1024 * 1024
  const KNET_MAX_PACKET_SIZE := 65536

  /** Size of an assembly buffer. */
  const CAPACITY := MESSAGE_SIZE_MAX + KNET_MAX_PACKET_SIZE

  datatype Slot = Slot(node: NodeId, assembly: Assembly)

  /** `assembly_list_inuse`, `assembly_list_inuse_trans`, `assembly_list_free` and
      `totempg_waiting_transack`. */
  datatype Table = Table(inUse: seq<Slot>, inUseTrans: seq<Slot>, free: seq<Assembly>, waitingTransAck: bool)

  function Active(t: Table): seq<Slot> {
    if t.waitingTransAck then t.inUseTrans else t.inUse
  }

  function WithActive(t: Table, slots: seq<Slot>): Table {
    if t.waitingTransAck then t.(inUseTrans := slots) else t.(inUse := slots)
  }

  /** Position of the first slot of a node, or the length of the list. */
  function Find(slots: seq<Slot>, node: NodeId): (k: nat)
    ensures k <= |slots|
    ensures k < |slots| ==> slots[k].node == node
    ensures forall i :: 0 <= i < k ==> slots[i].node != node
  {
    if slots == [] then 0
    else if slots[0].node == node then 0
    else 1 + Find(slots[1..], node)
  }

  /** `assembly_ref`: the node's assembly, taken from the free list or allocated
      when the active list has none. Afterwards the active list has one. */
  function Ref(t: Table, node: NodeId): Table {
    var slots := Active(t);
    if Find(slots, node) < |slots| then t
    else if t.free != [] then
      WithActive(t, [Slot(node, Fresh(t.free[0].data))] + slots).(free := t.free[1..])
    else
      WithActive(t, [Slot(node, Fresh(seq(CAPACITY, _ => 0)))] + slots)
  }

  datatype Reception = Crash | Received(table: Table, delivered: seq<Chunk>)

  /** `totempg_deliver_fn` for a well-formed packet. */
  function Receive(t: Table, node: NodeId, f: Frame): Reception
    requires FrameOk(f)
  {
    var t1 := Ref(t, node);
    var slots := Active(t1);
    var k := Find(slots, node);
    if k == |slots| then Crash
    else
      match Deliver(slots[k].assembly, f)
      case AssertFails => Crash
      case Done(a, released, delivered) =>
        if released then
          Received(WithActive(t1, slots[..k] + slots[k + 1..]).(free := [a] + t1.free), delivered)
        else
          Received(WithActive(t1, slots[k := Slot(node, a)]), delivered)
  }

  // ---- at most one assembly per node in each list ----

  ghost predicate OnePerNode(slots: seq<Slot>) {
    && (forall i, j :: 0 <= i < j < |slots| ==> slots[i].node != slots[j].node)
    && (forall i :: 0 <= i < |slots| ==> |slots[i].assembly.data| == CAPACITY)
  }

  ghost predicate TableOk(t: Table) {
    && OnePerNode(t.inUse)
    && OnePerNode(t.inUseTrans)
    && (forall i :: 0 <= i < |t.free| ==> |t.free[i].data| == CAPACITY)
  }

  /** The assembly a list holds for a node. */
  function EntryIn(slots: seq<Slot>, node: NodeId): Option<Assembly> {
    var k := Find(slots, node);
    if k < |slots| then Some(slots[k].assembly) else None
  }

  function Entry(t: Table, node: NodeId): Option<Assembly> {
    EntryIn(Active(t), node)
  }

  lemma EntryAt(slots: seq<Slot>, node: NodeId, k: nat)
    requires OnePerNode(slots)
    requires k < |slots| && slots[k].node == node
    ensures Find(slots, node) == k
  {
    assert Find(slots, node) <= k;
  }

  lemma EntryAbsent(slots: seq<Slot>, node: NodeId)
    requires forall i :: 0 <= i < |slots| ==> slots[i].node != node
    ensures EntryIn(slots, node) == None
  {
  }

  lemma PrependEntry(slots: seq<Slot>, s: Slot, m: NodeId)
    requires OnePerNode(slots) && EntryIn(slots, s.node) == None && |s.assembly.data| == CAPACITY
    ensures OnePerNode([s] + slots)
    ensures EntryIn([s] + slots, m) == if m == s.node then Some(s.assembly) else EntryIn(slots, m)
  {
    assert ([s] + slots)[1..] == slots;
  }

  lemma RemoveEntry(slots: seq<Slot>, k: nat, m: NodeId)
    requires OnePerNode(slots) && k < |slots|
    ensures var rest := slots[..k] + slots[k + 1..];
            && OnePerNode(rest)
            && EntryIn(rest, m) == if m == slots[k].node then None else EntryIn(slots, m)
  {
    var rest := slots[..k] + slots[k + 1..];
    assert forall i :: 0 <= i < |rest| ==> rest[i] == if i < k then slots[i] else slots[i + 1];
    var f := Find(slots, m);
    if m == slots[k].node || f == |slots| {
      EntryAbsent(rest, m);
    } else {
      EntryAt(rest, m, if f < k then f else f - 1);
    }
  }

  lemma UpdateEntry(slots: seq<Slot>, k: nat, a: Assembly, m: NodeId)
    requires OnePerNode(slots) && k < |slots| && |a.data| == CAPACITY
    ensures var new_ := slots[k := Slot(slots[k].node, a)];
            && OnePerNode(new_)
            && EntryIn(new_, m) == if m == slots[k].node then Some(a) else EntryIn(slots, m)
  {
    var new_ := slots[k := Slot(slots[k].node, a)];
    var f := Find(slots, m);
    if f < |slots| {
      EntryAt(new_, m, f);
      EntryAt(slots, slots[k].node, k);
    } else {
      EntryAbsent(new_, m);
    }
  }

  lemma RefEntry(t: Table, node: NodeId)
    requires TableOk(t)
    ensures TableOk(Ref(t, node)) && Ref(t, node).waitingTransAck == t.waitingTransAck
    ensures Entry(t, node).Some? ==> Ref(t, node) == t
    ensures Entry(t, node).None? ==>
              && Entry(Ref(t, node), node).Some?
              && var a := Entry(Ref(t, node), node).value;
              a == Fresh(a.data) && |a.data| == CAPACITY
    ensures forall m :: m != node ==> Entry(Ref(t, node), m) == Entry(t, m)
  {
    hide EntryIn, OnePerNode;
    var slots := Active(t);
    assert Entry(t, node).None? <==> Find(slots, node) == |slots| by {
      EntryFound(slots, node);
    }
    if Entry(t, node).None? {
      var data := if t.free != [] then t.free[0].data else seq(CAPACITY, _ => 0);
      var s := Slot(node, Fresh(data));
      assert Active(Ref(t, node)) == [s] + slots;
      PrependEntry(slots, s, node);
      forall m | m != node
        ensures Entry(Ref(t, node), m) == Entry(t, m)
      {
        PrependEntry(slots, s, m);
      }
    }
  }

  lemma EntryFound(slots: seq<Slot>, node: NodeId)
    ensures EntryIn(slots, node) == None <==> Find(slots, node) == |slots|
    ensures EntryIn(slots, node).Some? ==> EntryIn(slots, node).value == slots[Find(slots, node)].assembly
  {
  }

  /** One packet: every list keeps at most one assembly per node, only the
      sender's entry changes, and the sender's entry does what its assembly does. */
  lemma ReceiveEntry(t: Table, node: NodeId, f: Frame) returns (a: Assembly)
    requires TableOk(t) && FrameOk(f)
    ensures Entry(t, node).Some? ==> Entry(t, node) == Some(a)
    ensures Entry(t, node).None? ==> a == Fresh(a.data) && |a.data| == CAPACITY
    ensures Receive(t, node, f).Crash? <==> Deliver(a, f).AssertFails?
    ensures Receive(t, node, f).Received? ==>
              var r := Receive(t, node, f);
              var o := Deliver(a, f);
              && TableOk(r.table) && r.table.waitingTransAck == t.waitingTransAck
              && r.delivered == o.delivered
              && Entry(r.table, node) == (if o.released then None else Some(o.assembly))
              && forall m :: m != node ==> Entry(r.table, m) == Entry(t, m)
  {
    hide Deliver, EntryIn, Ref;
    RefEntry(t, node);
    var t1 := Ref(t, node);
    var slots := Active(t1);
    EntryFound(slots, node);
    var k := Find(slots, node);
    a := slots[k].assembly;
    var r := Receive(t, node, f);
    if r.Received? {
      var o := Deliver(a, f);
      if o.released {
        assert Active(r.table) == slots[..k] + slots[k + 1..];
        RemoveEntry(slots, k, node);
        forall m | m != node
          ensures Entry(r.table, m) == Entry(t1, m)
        {
          RemoveEntry(slots, k, m);
        }
      } else {
        assert Active(r.table) == slots[k := Slot(slots[k].node, o.assembly)];
        UpdateEntry(slots, k, o.assembly, node);
        forall m | m != node
          ensures Entry(r.table, m) == Entry(t1, m)
        {
          UpdateEntry(slots, k, o.assembly, m);
        }
      }
    }
  }

  /** How many assemblies there are. */
  function Assemblies(t: Table): nat {
    |t.inUse| + |t.inUseTrans| + |t.free|
  }

  /** While the acknowledgement of a configuration change is awaited, packets go through
      the transitional list and leave the other one alone, otherwise the other way round;
      and an assembly is made only if the node has none and none is free. */
  lemma ReceiveLists(t: Table, node: NodeId, f: Frame)
    requires TableOk(t) && FrameOk(f) && Receive(t, node, f).Received?
    ensures var t' := Receive(t, node, f).table;
            && (t.waitingTransAck ==> t'.inUse == t.inUse)
            && (!t.waitingTransAck ==> t'.inUseTrans == t.inUseTrans)
            && Assemblies(t') == Assemblies(t) + if Entry(t, node).None? && t.free == [] then 1 else 0
  {
    hide Deliver, Ref, TableOk, Entry, Find;
    RefLists(t, node);
  }

  lemma RefLists(t: Table, node: NodeId)
    requires TableOk(t)
    ensures var t' := Ref(t, node);
            && (t.waitingTransAck ==> t'.inUse == t.inUse)
            && (!t.waitingTransAck ==> t'.inUseTrans == t.inUseTrans)
            && t'.waitingTransAck == t.waitingTransAck && Find(Active(t'), node) < |Active(t')|
            && Assemblies(t') == Assemblies(t) + if Entry(t, node).None? && t.free == [] then 1 else 0
  {
    hide Fresh;
    var slots := Active(t);
    if Find(slots, node) == |slots| {
      assert Active(Ref(t, node))[0].node == node;
    }
  }

  // ---- what a receiver that may have started late should deliver ----

  /** Following a sender's stream, or waiting for the next message boundary. A waiting
      receiver has bytes of no use in its buffer and may be throwing away. */
  datatype Track = Following(partial: Chunk, fragment: Byte) | Waiting(waste: nat, discarding: bool)

  /** How much of its buffer a receiver uses. */
  function Held(track: Track): nat {
    match track
    case Following(partial, _) => |partial|
    case Waiting(waste, _) => waste
  }

  /** A packet of no use, which does not end a message. The only piece of a packet with
      fragment number 1 is counted twice if it ends the throwing away. */
  function Discard(track: Track, p: Packet): Track
    requires p.segs != []
  {
    var discarding := track.Waiting? && track.discarding;
    var ends := discarding && p.fragmented == 1;
    var last := |p.segs[|p.segs| - 1]|;
    Waiting(if |p.segs| > 1 then last else if ends then Held(track) + 2 * last else Held(track) + last, !ends)
  }

  /** Reference receiver: messages whose beginning was seen are delivered, nothing
      else is. */
  function Follow(ps: seq<Packet>): (Track, seq<Chunk>)
    requires HasPieces(ps)
  {
    if ps == [] then (Following([], 0), [])
    else
      var (track, done) := Follow(ps[..|ps| - 1]);
      var p := ps[|ps| - 1];
      if track.Following? && track.fragment == p.continuation then
        var j := Join(track.partial, p.segs);
        if p.fragmented == 0 then (Following([], 0), done + j)
        else (Following(j[|j| - 1], p.fragmented), done + j[..|j| - 1])
      else (if p.fragmented == 0 then Following([], 0) else Discard(track, p), done)
  }

  /** From the second packet on, every packet continues the one before it. */
  ghost predicate LateChained(ps: seq<Packet>) {
    forall i :: 1 <= i < |ps| ==> ps[i].continuation == ps[i - 1].fragmented
  }

  /** A table entry agrees with the reference receiver. */
  ghost predicate Agrees(e: Option<Assembly>, track: Track) {
    match track
    case Following(partial, fragment) =>
      if e.Some? then InStep(e.value, partial, fragment) else partial == [] && fragment == 0
    case Waiting(waste, discarding) =>
      e.Some? && Lost(e.value) && e.value.index == waste && e.value.throwAway == discarding
  }

  /** While a track is being followed or waited on, its fragment number is that of
      the last packet. */
  lemma {:induction false} FollowFragment(ps: seq<Packet>)
    requires HasPieces(ps) && LateChained(ps)
    ensures Follow(ps).0.Following? ==> Follow(ps).0.fragment == LastFragment(ps)
    ensures Follow(ps).0.Waiting? ==> LastFragment(ps) != 0
    ensures Follow(ps).0.Following? && Follow(ps).0.fragment == 0 ==> Follow(ps).0.partial == []
  {
    if ps != [] {
      FollowFragment(ps[..|ps| - 1]);
    }
  }

  /** What a lost assembly has in its buffer after another packet. */
  lemma DeliverWaste(a: Assembly, track: Track, p: Packet)
    requires p.segs != [] && p.continuation != 0 && p.fragmented != 0
    requires Lost(a) && a.index == Held(track) && a.throwAway == (track.Waiting? && track.discarding)
    requires a.index + PacketSize(p) < |a.data|
    ensures var b := Deliver(a, FrameOf(p)).assembly;
            Discard(track, p) == Waiting(b.index, b.throwAway)
  {
  }

  /** The reference receiver after one more packet, in the two cases. */
  lemma FollowSnoc(ps: seq<Packet>, p: Packet)
    requires HasPieces(ps) && p.segs != []
    ensures HasPieces(ps + [p])
    ensures var (track, done) := Follow(ps);
            var j := if track.Following? then Join(track.partial, p.segs) else [];
            Follow(ps + [p]) ==
            if track.Following? && track.fragment == p.continuation then
              if p.fragmented == 0 then (Following([], 0), done + j)
              else (Following(j[|j| - 1], p.fragmented), done + j[..|j| - 1])
            else (if p.fragmented == 0 then Following([], 0) else Discard(track, p), done)
  {
    assert (ps + [p])[..|ps + [p]| - 1] == ps;
  }

  /** Where the next packet finds a receiver that it does not continue. */
  lemma NextPacket(ps: seq<Packet>, p: Packet)
    requires HasPieces(ps + [p]) && LateChained(ps + [p]) && HasPieces(ps)
    ensures LateChained(ps)
    ensures ps != [] ==> p.continuation == LastFragment(ps)
    ensures var track := Follow(ps).0;
            !(track.Following? && track.fragment == p.continuation) ==>
              p.continuation != 0 && (track.Following? ==> track == Following([], 0))
  {
    hide Follow;
    var all := ps + [p];
    forall i | 1 <= i < |ps|
      ensures ps[i].continuation == ps[i - 1].fragmented
    {
      assert all[i].continuation == all[i - 1].fragmented;
    }
    if ps != [] {
      assert all[|ps|].continuation == all[|ps| - 1].fragmented;
    } else {
      FollowNothing();
    }
    FollowFragment(ps);
  }

  lemma FollowNothing()
    ensures Follow([]) == (Following([], 0), [])
  {
  }

  /** One packet through the table does what the reference receiver does. */
  lemma ReceiveAgrees(t: Table, node: NodeId, ps: seq<Packet>, p: Packet)
    requires TableOk(t) && p.segs != [] && HasPieces(ps + [p]) && LateChained(ps + [p])
    requires HasPieces(ps) && Agrees(Entry(t, node), Follow(ps).0)
    requires Receive(t, node, FrameOf(p)).Received?
    ensures var r := Receive(t, node, FrameOf(p));
            && Agrees(Entry(r.table, node), Follow(ps + [p]).0)
            && Follow(ps).1 + r.delivered == Follow(ps + [p]).1
  {
    hide Follow, Receive, Deliver, Discard, Entry, LateChained, TableOk;
    var (track, done) := Follow(ps);
    var a := ReceiveEntry(t, node, FrameOf(p));
    NextPacket(ps, p);
    FollowSnoc(ps, p);
    if track.Following? && track.fragment == p.continuation {
      FreshInStep(a);
      DeliverInStep(a, track.partial, p);
    } else {
      DeliverLost(a, FrameOf(p));
      if p.fragmented != 0 {
        DeliverWaste(a, track, p);
      }
      assert done + [] == done;
    }
  }

  lemma FreshInStep(a: Assembly)
    ensures a == Fresh(a.data) ==> InStep(a, [], 0)
  {
    assert a.data[..0] == [];
  }

  // ---- whole logs ----

  type Log = seq<(NodeId, Packet)>

  /** The packets of one sender. */
  function StreamOf(log: Log, node: NodeId): seq<Packet> {
    if log == [] then []
    else
      var rest := StreamOf(log[..|log| - 1], node);
      if log[|log| - 1].0 == node then rest + [log[|log| - 1].1] else rest
  }

  /** The messages delivered from one sender. */
  function FromNode(out: seq<(NodeId, Chunk)>, node: NodeId): seq<Chunk> {
    if out == [] then []
    else
      var rest := FromNode(out[..|out| - 1], node);
      if out[|out| - 1].0 == node then rest + [out[|out| - 1].1] else rest
  }

  function Tag(node: NodeId, msgs: seq<Chunk>): seq<(NodeId, Chunk)> {
    seq(|msgs|, i requires 0 <= i < |msgs| => (node, msgs[i]))
  }

  lemma {:induction false} FromNodeTagged(out: seq<(NodeId, Chunk)>, node: NodeId, msgs: seq<Chunk>, m: NodeId)
    ensures FromNode(out + Tag(node, msgs), m) ==
            if m == node then FromNode(out, m) + msgs else FromNode(out, m)
    decreases |msgs|
  {
    var all := out + Tag(node, msgs);
    if msgs == [] {
      assert all == out;
      assert FromNode(out, m) + [] == FromNode(out, m);
    } else {
      var k := |msgs| - 1;
      FromNodeTagged(out, node, msgs[..k], m);
      assert all[..|all| - 1] == out + Tag(node, msgs[..k]);
      assert all[|all| - 1] == (node, msgs[k]);
      assert msgs == msgs[..k] + [msgs[k]];
      assert FromNode(out, m) + msgs[..k] + [msgs[k]] == FromNode(out, m) + (msgs[..k] + [msgs[k]]);
    }
  }

  ghost predicate LogHasPieces(log: Log) {
    forall i :: 0 <= i < |log| ==> log[i].1.segs != []
  }

  datatype RunResult = RunCrash | Ran(table: Table, out: seq<(NodeId, Chunk)>)

  /** Deliver a whole log. */
  function Run(t: Table, log: Log): RunResult
    requires LogHasPieces(log)
  {
    if log == [] then Ran(t, [])
    else
      match Run(t, log[..|log| - 1])
      case RunCrash => RunCrash
      case Ran(t1, out) =>
        var (node, p) := log[|log| - 1];
        match Receive(t1, node, FrameOf(p))
        case Crash => RunCrash
        case Received(t2, delivered) => Ran(t2, out + Tag(node, delivered))
  }

  lemma {:induction false} StreamOfHasPieces(log: Log, node: NodeId)
    requires LogHasPieces(log)
    ensures HasPieces(StreamOf(log, node))
  {
    if log != [] {
      StreamOfHasPieces(log[..|log| - 1], node);
    }
  }

  ghost predicate AllLateChained(log: Log) {
    forall n :: LateChained(StreamOf(log, n))
  }

  lemma LateChainedPrefix(log: Log)
    requires log != [] && AllLateChained(log)
    ensures AllLateChained(log[..|log| - 1])
  {
    var pre := log[..|log| - 1];
    forall n
      ensures LateChained(StreamOf(pre, n))
    {
      var a, b := StreamOf(pre, n), StreamOf(log, n);
      assert LateChained(b);
      assert forall i :: 0 <= i < |a| ==> a[i] == b[i];
    }
  }

  /** For any interleaving of the senders' packets, a table that starts with no
      assembly in use agrees with the reference receiver for every sender. */
  lemma {:induction false} RunAgrees(t: Table, log: Log)
    requires TableOk(t) && Active(t) == []
    requires LogHasPieces(log) && AllLateChained(log)
    requires Run(t, log).Ran?
    ensures TableOk(Run(t, log).table)
    ensures forall n :: HasPieces(StreamOf(log, n))
    ensures forall n :: Agrees(Entry(Run(t, log).table, n), Follow(StreamOf(log, n)).0)
    ensures forall n :: FromNode(Run(t, log).out, n) == Follow(StreamOf(log, n)).1
  {
    hide Receive, Follow, Agrees, Entry, TableOk, FromNode, FrameOf;
    forall n
      ensures HasPieces(StreamOf(log, n))
    {
      StreamOfHasPieces(log, n);
    }
    if log == [] {
      RunAgreesEmpty(t);
    } else {
      var pre := log[..|log| - 1];
      LateChainedPrefix(log);
      RunAgrees(t, pre);
      var (node, p) := log[|log| - 1];
      var t1, out := Run(t, pre).table, Run(t, pre).out;
      assert pre + [(node, p)] == log;
      RunAgreesStep(t1, out, pre, node, p);
    }
  }

  lemma RunAgreesEmpty(t: Table)
    requires Active(t) == []
    ensures forall n :: Agrees(Entry(t, n), Follow(StreamOf([], n)).0)
    ensures forall n :: FromNode([], n) == Follow(StreamOf([], n)).1
  {
  }

  lemma RunAgreesStep(t1: Table, out: seq<(NodeId, Chunk)>, pre: Log, node: NodeId, p: Packet)
    requires TableOk(t1) && p.segs != []
    requires LogHasPieces(pre) && AllLateChained(pre + [(node, p)])
    requires forall n :: HasPieces(StreamOf(pre, n))
    requires forall n :: Agrees(Entry(t1, n), Follow(StreamOf(pre, n)).0)
    requires forall n :: FromNode(out, n) == Follow(StreamOf(pre, n)).1
    requires Receive(t1, node, FrameOf(p)).Received?
    ensures var r := Receive(t1, node, FrameOf(p));
            var log := pre + [(node, p)];
            && TableOk(r.table)
            && forall n :: HasPieces(StreamOf(log, n))
                && Agrees(Entry(r.table, n), Follow(StreamOf(log, n)).0)
                && FromNode(out + Tag(node, r.delivered), n) == Follow(StreamOf(log, n)).1
  {
    hide Receive, Follow, Agrees, Deliver, FrameOf, Entry, TableOk, FromNode, LateChained;
    var log := pre + [(node, p)];
    var r := Receive(t1, node, FrameOf(p));
    var a := ReceiveEntry(t1, node, FrameOf(p));
    forall n
      ensures HasPieces(StreamOf(log, n))
              && Agrees(Entry(r.table, n), Follow(StreamOf(log, n)).0)
              && FromNode(out + Tag(node, r.delivered), n) == Follow(StreamOf(log, n)).1
    {
      assert log[..|log| - 1] == pre;
      FromNodeTagged(out, node, r.delivered, n);
      assert LateChained(StreamOf(log, n));
      if n == node {
        assert StreamOf(log, n) == StreamOf(pre, n) + [p];
        ReceiveAgrees(t1, node, StreamOf(pre, n), p);
      } else {
        assert StreamOf(log, n) == StreamOf(pre, n);
      }
    }
  }

  // ---- when no assembly buffer overflows ----

  /** Every packet of a stream finds room in the buffer. */
  ghost predicate HasRoom(ps: seq<Packet>) {
    HasPieces(ps) && forall i :: 0 <= i < |ps| ==> PacketFits(ps, i)
  }

  ghost predicate PacketFits(ps: seq<Packet>, i: nat)
    requires HasPieces(ps) && i < |ps|
  {
    Held(Follow(ps[..i]).0) + PacketSize(ps[i]) < CAPACITY
  }

  lemma HasRoomSnoc(ps: seq<Packet>, p: Packet)
    requires HasPieces(ps) && p.segs != []
    ensures HasRoom(ps + [p]) <==> HasRoom(ps) && Held(Follow(ps).0) + PacketSize(p) < CAPACITY
  {
    hide Follow, Held, PacketSize;
    var all := ps + [p];
    assert all[..|ps|] == ps && all[|ps|] == p;
    forall i | 0 <= i < |ps|
      ensures PacketFits(all, i) <==> PacketFits(ps, i)
    {
      assert all[..i] == ps[..i];
    }
    assert HasRoom(all) ==> PacketFits(all, |ps|);
  }

  /** One packet trips the capacity assertion exactly if it does not fit. */
  lemma ReceiveFits(t: Table, node: NodeId, ps: seq<Packet>, p: Packet)
    requires TableOk(t) && p.segs != [] && HasPieces(ps) && Agrees(Entry(t, node), Follow(ps).0)
    ensures Receive(t, node, FrameOf(p)).Received? <==> Held(Follow(ps).0) + PacketSize(p) < CAPACITY
  {
    hide Follow, Receive, Deliver, Entry;
    var a := ReceiveEntry(t, node, FrameOf(p));
    EntrySize(t, node);
  }

  lemma EntrySize(t: Table, node: NodeId)
    requires TableOk(t)
    ensures Entry(t, node).Some? ==> |Entry(t, node).value.data| == CAPACITY
  {
  }

  ghost predicate AllHaveRoom(log: Log) {
    forall n :: HasRoom(StreamOf(log, n))
  }

  /** The receiver survives a log exactly if every packet finds room. */
  lemma {:induction false} RunsExactly(t: Table, log: Log)
    requires TableOk(t) && Active(t) == []
    requires LogHasPieces(log) && AllLateChained(log)
    ensures Run(t, log).Ran? <==> AllHaveRoom(log)
  {
    hide Receive, Follow, Agrees, Entry, TableOk, FrameOf, AllHaveRoom, LateChained, Held, PacketSize, StreamOf;
    if log == [] {
      NothingHasRoom();
    } else {
      var pre := log[..|log| - 1];
      var (node, p) := log[|log| - 1];
      LateChainedPrefix(log);
      RunsExactly(t, pre);
      StreamOfHasPieces(pre, node);
      RoomForAll(log);
      if Run(t, pre).Ran? {
        RunAgrees(t, pre);
        ReceiveFits(Run(t, pre).table, node, StreamOf(pre, node), p);
      }
    }
  }

  lemma NothingHasRoom()
    ensures AllHaveRoom([])
  {
    hide Follow;
  }

  lemma StreamNext(log: Log, m: NodeId)
    requires log != []
    ensures var pre, e := log[..|log| - 1], log[|log| - 1];
            StreamOf(log, m) == if e.0 == m then StreamOf(pre, m) + [e.1] else StreamOf(pre, m)
  {
  }

  /** The last packet of a log needs room in the assembly of its sender. */
  lemma RoomForAll(log: Log)
    requires log != [] && LogHasPieces(log)
    requires HasPieces(StreamOf(log[..|log| - 1], log[|log| - 1].0))
    ensures var pre, e := log[..|log| - 1], log[|log| - 1];
            AllHaveRoom(log) <==>
            AllHaveRoom(pre) && Held(Follow(StreamOf(pre, e.0)).0) + PacketSize(e.1) < CAPACITY
  {
    hide HasRoom, Follow, Held, PacketSize, StreamOf;
    var pre, e := log[..|log| - 1], log[|log| - 1];
    HasRoomSnoc(StreamOf(pre, e.0), e.1);
    StreamNext(log, e.0);
    if AllHaveRoom(log) {
      forall m
        ensures HasRoom(StreamOf(pre, m))
      {
        StreamNext(log, m);
        assert HasRoom(StreamOf(log, m));
      }
      assert HasRoom(StreamOf(log, e.0));
    }
    if AllHaveRoom(pre) && Held(Follow(StreamOf(pre, e.0)).0) + PacketSize(e.1) < CAPACITY {
      assert HasRoom(StreamOf(pre, e.0));
      forall m
        ensures HasRoom(StreamOf(log, m))
      {
        StreamNext(log, m);
        assert HasRoom(StreamOf(pre, m));
      }
    }
  }
}
