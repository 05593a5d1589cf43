/** The receiving side of exec/totempg.c in its own form: assembly objects with a
    fixed buffer, kept on two in-use lists and a free list. */
module Receiver {
  import opened Wrappers
  import opened Bytes
  import opened Reassembly
  import opened Delivery
  import opened Wire

  class AssemblyBuffer {
    var nodeid: NodeId
    const data: array<Byte>
    var index: nat
    var lastFragNum: Byte
    var throwAwayMode: bool

    ghost function View(): Assembly
      reads this, data
    {
      Assembly(data[..], index, lastFragNum, throwAwayMode)
    }

    constructor (nodeid: NodeId)
      ensures this.nodeid == nodeid && fresh(data)
      ensures View() == Fresh(seq(CAPACITY, _ => 0))
    {
      this.nodeid := nodeid;
      data := new Byte[CAPACITY](_ => 0);
      index, lastFragNum, throwAwayMode := 0, 0, false;
      new;
      assert data[..] == seq(CAPACITY, _ => 0);
    }

    /** `memcpy` of the packet's data behind what is already there. */
    method Append(bytes: Chunk)
      requires index + |bytes| <= data.Length
      modifies data
      ensures data[..] == Write(old(data[..]), index, bytes)
    {
      for k := 0 to |bytes|
        invariant forall i :: 0 <= i < data.Length ==>
                    data[i] == if index <= i < index + k then bytes[i - index] else old(data[i])
      {
        data[index + k] := bytes[k];
      }
    }

    /** `memmove` of `len` bytes at `from` to the front of the buffer. */
    method MoveToFront(from: nat, len: nat)
      requires from + len <= data.Length
      modifies data
      ensures data[..] == Write(old(data[..]), 0, old(data[from..from + len]))
    {
      for k := 0 to len
        invariant forall i :: 0 <= i < k ==> data[i] == old(data[from + i])
        invariant forall i :: k <= i < data.Length ==> data[i] == old(data[i])
      {
        data[k] := data[from + k];
      }
    }

    /** Hand the first `count` messages to the application. */
    method DeliverMessages(lens: seq<nat>, count: nat) returns (delivered: seq<Chunk>)
      requires count <= |lens| && index + Sum(lens) <= data.Length
      modifies this`index
      ensures delivered == Cut(data[..], old(index), lens, count)
      ensures index == End(old(index), lens, count)
    {
      delivered := [];
      if lens == [] {
        assert lens[..0] == [];
        return;
      }
      SumPrefix(lens, 0);
      var base, len := 0, index + lens[0];
      var i := 0;
      while i < count
        invariant 0 <= i <= count
        invariant index == End(old(index), lens, i)
        invariant base == if i == 0 then 0 else index
        invariant i < count ==> base + len == End(old(index), lens, i + 1) <= data.Length
        invariant delivered == Cut(data[..], old(index), lens, i)
      {
        SumPrefix(lens, i);
        delivered := delivered + [data[base..base + len]];
        assert data[..][base..base + len] == data[base..base + len];
        index := index + lens[i];
        base := index;
        if i < count - 1 {
          SumPrefix(lens, i + 1);
          len := lens[i + 1];
        }
        i := i + 1;
      }
    }

    /** Deliver complete messages, or throw away. */
    method AbsorbFrame(f: Frame) returns (delivered: seq<Chunk>)
      requires FrameOk(f) && index + |f.data| <= data.Length
      modifies this`index, this`lastFragNum, this`throwAwayMode
      ensures Absorb(old(View()), f) == (View(), delivered)
    {
      var msgCount := if f.fragmented != 0 then |f.lens| - 1 else |f.lens|;
      delivered := [];
      if throwAwayMode {
        if f.fragmented == 0 || f.fragmented == 1 {
          throwAwayMode := false;
          if f.lens != [] {
            index := index + f.lens[0];
          }
        }
      } else if f.continuation == lastFragNum {
        lastFragNum := f.fragmented;
        delivered := DeliverMessages(f.lens, msgCount);
      } else {
        throwAwayMode := true;
      }
    }

    /** The body of `totempg_deliver_fn` behind the length checks: the capacity
        assertion, then the packet. */
    method DeliverFrame(f: Frame) returns (alive: bool, released: bool, delivered: seq<Chunk>)
      requires FrameOk(f)
      modifies this`index, this`lastFragNum, this`throwAwayMode, data
      ensures alive <==> Deliver(old(View()), f).Done?
      ensures alive ==> Deliver(old(View()), f) == Done(View(), released, delivered)
    {
      if index + FrameSize(f) >= data.Length {
        return false, false, [];
      }
      alive := true;
      released, delivered := DeliverFitting(f);
    }

    /** The packet fits. */
    method DeliverFitting(f: Frame) returns (released: bool, delivered: seq<Chunk>)
      requires FrameOk(f) && index + FrameSize(f) < data.Length
      modifies this`index, this`lastFragNum, this`throwAwayMode, data
      ensures Deliver(old(View()), f) == Done(View(), released, delivered)
    {
      hide Absorb, Write;
      Append(f.data);
      delivered := AbsorbFrame(f);
      if f.fragmented == 0 {
        lastFragNum := 0;
        index := 0;
        released := true;
      } else {
        var msgCount := |f.lens| - 1;
        SumPrefix(f.lens, msgCount);
        assert f.lens[..|f.lens|] == f.lens;
        if |f.lens| > 1 {
          MoveToFront(index, f.lens[msgCount]);
          index := 0;
        }
        index := index + f.lens[msgCount];
        released := false;
      }
    }
  }

  /** The assembly lists and the flag that selects the active one. The slots are
      values; `AssemblyBuffer` is the in-place form of what is done to one. */
  class PacketReceiver {
    var inUse: seq<Slot>
    var inUseTrans: seq<Slot>
    var free: seq<Assembly>
    var waitingTransAck: bool

    ghost function View(): Table
      reads this
    {
      Table(inUse, inUseTrans, free, waitingTransAck)
    }

    /** Each in-use list holds at most one assembly per node. */
    ghost predicate Valid()
      reads this
    {
      TableOk(View())
    }

    constructor ()
      ensures Valid() && View() == Table([], [], [], false)
    {
      inUse, inUseTrans, free, waitingTransAck := [], [], [], false;
    }

    /** `totempg_waiting_trans_ack_cb`. */
    method WaitingTransAckChanged(waiting: bool)
      requires Valid()
      modifies this`waitingTransAck
      ensures Valid() && waitingTransAck == waiting
    {
      waitingTransAck := waiting;
    }

    /** Walk a list to the slot of a node. */
    method Search(l: seq<Slot>, nodeid: NodeId) returns (k: nat)
      ensures k == Find(l, nodeid)
    {
      k := 0;
      while k < |l| && l[k].node != nodeid
        invariant 0 <= k <= |l|
        invariant forall i :: 0 <= i < k ==> l[i].node != nodeid
      {
        k := k + 1;
      }
    }

    method SetActive(l: seq<Slot>)
      modifies this`inUse, this`inUseTrans
      ensures View() == WithActive(old(View()), l)
    {
      if waitingTransAck {
        inUseTrans := l;
      } else {
        inUse := l;
      }
    }

    /** `assembly_ref`: afterwards slot `k` of the active list is the node's. */
    method AssemblyRef(nodeid: NodeId) returns (k: nat)
      requires Valid()
      modifies this`inUse, this`inUseTrans, this`free
      ensures Valid() && View() == Ref(old(View()), nodeid)
      ensures k < |Active(View())| && k == Find(Active(View()), nodeid)
    {
      RefEntry(View(), nodeid);
      var l := if waitingTransAck then inUseTrans else inUse;
      k := Search(l, nodeid);
      if k < |l| {
        return;
      }
      k := 0;
      if free != [] {
        var a := free[0];
        free := free[1..];
        SetActive([Slot(nodeid, a.(index := 0, lastFragment := 0, throwAway := false))] + l);
      } else {
        SetActive([Slot(nodeid, Assembly(seq(CAPACITY, _ => 0), 0, 0, false))] + l);
      }
    }

    /** `totempg_deliver_fn`: packets that fail the length checks are ignored (but
        the sender then has an assembly); the others go through the assembly. The
        answer is whether the program is still alive. */
    method DeliverFn(nodeid: NodeId, msg: Chunk) returns (alive: bool, delivered: seq<Chunk>)
      requires Valid()
      modifies this`inUse, this`inUseTrans, this`free
      ensures Valid()
      ensures alive <==> ReceiveBytes(old(View()), nodeid, msg).Received?
      ensures alive ==> ReceiveBytes(old(View()), nodeid, msg) == Received(View(), delivered)
    {
      hide Decode, Deliver, Ref, TableOk, Entry;
      ghost var t0 := View();
      var k := AssemblyRef(nodeid);
      var frame := Decode(msg);
      if frame.None? {
        return true, [];
      }
      if frame.value.lens == [] && frame.value.fragmented != 0 {
        return false, [];
      }
      ghost var a := ReceiveEntry(t0, nodeid, frame.value);
      var l := if waitingTransAck then inUseTrans else inUse;
      var o := Deliver(l[k].assembly, frame.value);
      if o.AssertFails? {
        return false, [];
      }
      alive, delivered := true, o.delivered;
      if o.released {
        SetActive(l[..k] + l[k + 1..]);
        free := [o.assembly] + free;
      } else {
        SetActive(l[k := Slot(nodeid, o.assembly)]);
      }
    }

    /** `app_confchg_fn`: the assemblies of nodes that left go back to the free list. */
    method NodesLeft(left: seq<NodeId>)
      requires Valid()
      modifies this`inUse, this`inUseTrans, this`free
      ensures Valid()
      ensures inUse == Without(old(inUse), left) && inUseTrans == Without(old(inUseTrans), left)
      ensures free == Reclaimed(old(inUse), old(inUseTrans), old(free), left)
    {
      WithoutNone(inUse);
      WithoutNone(inUseTrans);
      assert left[..0] == [];
      for i := 0 to |left|
        invariant Valid()
        invariant inUse == Without(old(inUse), left[..i])
        invariant inUseTrans == Without(old(inUseTrans), left[..i])
        invariant free == Reclaimed(old(inUse), old(inUseTrans), old(free), left[..i])
      {
        assert left[..i + 1][..i] == left[..i];
        inUse, free := Unlink(inUse, free, left[i]);
        inUseTrans, free := Unlink(inUseTrans, free, left[i]);
        WithoutOne(old(inUse), left, i);
        WithoutOne(old(inUseTrans), left, i);
      }
      assert left[..|left|] == left;
    }

    /** Move every slot of a node from a list to the free list. */
    static method Unlink(l: seq<Slot>, f: seq<Assembly>, nodeid: NodeId) returns (l': seq<Slot>, f': seq<Assembly>)
      requires OnePerNode(l) && BuffersOk(f)
      ensures l' == Without(l, [nodeid])
      ensures OnePerNode(l') && BuffersOk(f')
      ensures f' == Freed(l, nodeid, f)
    {
      l', f' := [], f;
      for i := 0 to |l|
        invariant l' == Without(l[..i], [nodeid])
        invariant BuffersOk(f')
        invariant f' == Freed(l[..i], nodeid, f)
      {
        assert l[..i + 1][..i] == l[..i] && l[..i + 1][i] == l[i];
        if l[i].node == nodeid {
          f' := [l[i].assembly] + f';
        } else {
          l' := l' + [l[i]];
        }
      }
      assert l[..|l|] == l;
      WithoutOnePerNode(l, [nodeid]);
    }
  }

  /** The free list after the assemblies of a node in a list were put at its head. */
  function Freed(l: seq<Slot>, nodeid: NodeId, f: seq<Assembly>): seq<Assembly> {
    if l == [] then f
    else
      var s := l[|l| - 1];
      (if s.node == nodeid then [s.assembly] else []) + Freed(l[..|l| - 1], nodeid, f)
  }

  /** The same for every node that left, and for both lists. */
  function Reclaimed(a: seq<Slot>, b: seq<Slot>, f: seq<Assembly>, left: seq<NodeId>): seq<Assembly> {
    if left == [] then f
    else
      var pre, n := left[..|left| - 1], left[|left| - 1];
      Freed(Without(b, pre), n, Freed(Without(a, pre), n, Reclaimed(a, b, f, pre)))
  }

  /** The slots of the nodes that stay. */
  function Without(l: seq<Slot>, left: seq<NodeId>): (r: seq<Slot>)
    ensures |r| <= |l|
  {
    if l == [] then []
    else
      var s := l[|l| - 1];
      Without(l[..|l| - 1], left) + if s.node in left then [] else [s]
  }

  lemma {:induction false} WithoutNone(l: seq<Slot>)
    ensures Without(l, []) == l
  {
    if l != [] {
      WithoutNone(l[..|l| - 1]);
    }
  }

  lemma {:induction false} WithoutOne(l: seq<Slot>, left: seq<NodeId>, i: nat)
    requires i < |left|
    ensures Without(Without(l, left[..i]), [left[i]]) == Without(l, left[..i + 1])
  {
    if l != [] {
      var s := l[|l| - 1];
      WithoutOne(l[..|l| - 1], left, i);
      assert left[..i + 1] == left[..i] + [left[i]];
      var w := Without(l[..|l| - 1], left[..i]);
      if s.node in left[..i] {
        assert Without(l, left[..i]) == w + [] == w;
      } else {
        assert Without(l, left[..i]) == w + [s];
        assert (w + [s])[..|w + [s]| - 1] == w;
      }
    }
  }

  /** Whoever leaves has no slot any more; whoever stays keeps theirs, in order. */
  lemma {:induction false} WithoutOnePerNode(l: seq<Slot>, left: seq<NodeId>)
    requires OnePerNode(l)
    ensures OnePerNode(Without(l, left))
    ensures forall s :: s in Without(l, left) <==> s in l && s.node !in left
  {
    if l != [] {
      var pre, s := l[..|l| - 1], l[|l| - 1];
      WithoutOnePerNode(pre, left);
      var r := Without(pre, left);
      forall i | 0 <= i < |r|
        ensures r[i].node != s.node && |r[i].assembly.data| == CAPACITY
      {
        assert r[i] in pre;
      }
      assert l == pre + [s];
    }
  }

  ghost predicate BuffersOk(f: seq<Assembly>) {
    forall i :: 0 <= i < |f| ==> |f[i].data| == CAPACITY
  }

  /** No assembly is lost and none is made: what leaves the lists is in the free list. */
  lemma {:induction false} FreedCount(l: seq<Slot>, nodeid: NodeId, f: seq<Assembly>)
    ensures |Freed(l, nodeid, f)| + |Without(l, [nodeid])| == |f| + |l|
  {
    if l != [] {
      FreedCount(l[..|l| - 1], nodeid, f);
    }
  }

  lemma {:induction false} ReclaimedCount(a: seq<Slot>, b: seq<Slot>, f: seq<Assembly>, left: seq<NodeId>)
    ensures |Reclaimed(a, b, f, left)| + |Without(a, left)| + |Without(b, left)| == |f| + |a| + |b|
  {
    if left == [] {
      WithoutNone(a);
      WithoutNone(b);
    } else {
      var k := |left| - 1;
      ReclaimedCount(a, b, f, left[..k]);
      WithoutOne(a, left, k);
      WithoutOne(b, left, k);
      assert left[..k + 1] == left;
      var f1 := Reclaimed(a, b, f, left[..k]);
      FreedCount(Without(a, left[..k]), left[k], f1);
      FreedCount(Without(b, left[..k]), left[k], Freed(Without(a, left[..k]), left[k], f1));
    }
  }
}
