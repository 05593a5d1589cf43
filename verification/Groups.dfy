/** Process group addressing (exec/totempg.c:448-572, 1235-1274): a message starts
    with the names of the groups it is sent to, and an instance is given the rest
    of it when it has joined one of them. */
module Groups {
  import opened Bytes
  import opened Stream
  import opened Reassembly
  import opened Delivery
  import opened RoundTrip

  /** The scatter/gather list of a message: group count and name lengths, the
      names, the application's data. */
  function Address(groups: seq<Chunk>, payload: seq<Chunk>): seq<Chunk> {
    [Le16(|groups|) + Le16s(Lens(groups))] + groups + payload
  }

  /** Group lists as `totempg_groups_mcast_joined` can build them. */
  ghost predicate GroupsOk(groups: seq<Chunk>) {
    |groups| < 65536 && forall i :: 0 <= i < |groups| ==> |groups[i]| < 65536
  }

  // ---- reading a message ----

  /** Number of groups, if the message is long enough to have it. */
  function Count(msg: Chunk): nat
    requires |msg| >= 2
  {
    FromLe16(msg)
  }

  ghost predicate HasHeader(msg: Chunk) {
    && |msg| >= 2
    && |msg| >= 2 * (Count(msg) + 1)
    && |msg| >= 2 * (Count(msg) + 1) + Sum(NameLens(msg))
  }

  function NameLens(msg: Chunk): (r: seq<nat>)
    requires |msg| >= 2 && |msg| >= 2 * (Count(msg) + 1)
    ensures |r| == Count(msg)
  {
    FromLe16s(msg[2..], Count(msg))
  }

  function NamesStart(msg: Chunk): nat
    requires |msg| >= 2
  {
    2 * (Count(msg) + 1)
  }

  function HeaderSize(msg: Chunk): nat
    requires HasHeader(msg)
  {
    NamesStart(msg) + Sum(NameLens(msg))
  }

  /** The i-th group name of a message. */
  function Name(msg: Chunk, i: nat): (r: Chunk)
    requires HasHeader(msg) && i < Count(msg)
    ensures |r| == NameLens(msg)[i]
  {
    var lens := NameLens(msg);
    SumPrefix(lens, i);
    var at := NamesStart(msg) + Sum(lens[..i]);
    msg[at..at + lens[i]]
  }

  /** The instance has joined one of the groups the message names. */
  predicate ForMe(msg: Chunk, mine: seq<Chunk>)
    requires HasHeader(msg)
  {
    exists i :: 0 <= i < Count(msg) && Name(msg, i) in mine
  }

  /** How many bytes of header there are to strip. */
  method AdjustLen(msg: Chunk) returns (adjust: nat)
    requires HasHeader(msg)
    ensures adjust == HeaderSize(msg)
  {
    hide Sum, FromLe16s, FromLe16;
    var lens := NameLens(msg);
    adjust := 2 * (Count(msg) + 1);
    NoPrefix(lens);
    var i := 0;
    while i < |lens|
      invariant 0 <= i <= |lens|
      invariant adjust == 2 * (Count(msg) + 1) + Sum(lens[..i])
    {
      SumPrefix(lens, i);
      adjust := adjust + lens[i];
      i := i + 1;
    }
    assert lens[..i] == lens;
  }

  /** The inner search: the groups of the instance. */
  method Joined(name: Chunk, mine: seq<Chunk>) returns (found: bool)
    ensures found <==> name in mine
  {
    var j := 0;
    while j < |mine|
      invariant 0 <= j <= |mine|
      invariant forall k :: 0 <= k < j ==> mine[k] != name
    {
      if |name| == |mine[j]| && mine[j] == name {
        return true;
      }
      j := j + 1;
    }
    return false;
  }

  lemma NameAt(msg: Chunk, i: nat, at: nat)
    requires HasHeader(msg) && i < Count(msg) && at == NamesStart(msg) + Sum(NameLens(msg)[..i])
    ensures at + NameLens(msg)[i] <= |msg| && Name(msg, i) == msg[at..at + NameLens(msg)[i]]
    ensures at + NameLens(msg)[i] == NamesStart(msg) + Sum(NameLens(msg)[..i + 1])
  {
    SumPrefix(NameLens(msg), i);
  }

  /** `group_matches`: two nested searches over the names in the message and the
      groups of the instance; also how many bytes to strip. */
  method GroupMatches(msg: Chunk, mine: seq<Chunk>) returns (hit: bool, adjust: nat)
    requires HasHeader(msg)
    ensures hit <==> ForMe(msg, mine)
    ensures adjust == HeaderSize(msg)
  {
    hide HeaderSize, Name, Sum;
    adjust := AdjustLen(msg);
    var lens := NameLens(msg);
    hit := false;
    var name := NamesStart(msg);
    NoPrefix(lens);
    var i := 0;
    while i < Count(msg)
      invariant 0 <= i <= Count(msg)
      invariant name == NamesStart(msg) + Sum(lens[..i])
      invariant forall k :: 0 <= k < i ==> Name(msg, k) !in mine
    {
      NameAt(msg, i, name);
      hit := Joined(msg[name..name + lens[i]], mine);
      if hit {
        return;
      }
      name := name + lens[i];
      i := i + 1;
    }
  }

  /** What an instance is given of a list of messages. */
  function Payloads(msgs: seq<Chunk>, mine: seq<Chunk>): seq<Chunk>
    requires forall i :: 0 <= i < |msgs| ==> HasHeader(msgs[i])
  {
    if msgs == [] then []
    else
      var m := msgs[|msgs| - 1];
      assert HasHeader(m);
      Payloads(msgs[..|msgs| - 1], mine) +
      (if ForMe(m, mine) then [m[HeaderSize(m)..]] else [])
  }

  // ---- addressing and reading agree ----

  lemma AddressFlat(groups: seq<Chunk>, payload: seq<Chunk>)
    ensures Flatten(Address(groups, payload)) ==
            Le16(|groups|) + (Le16s(Lens(groups)) + (Flatten(groups) + Flatten(payload)))
  {
    hide Flatten, Le16, Le16s;
    var a, l := Le16(|groups|), Le16s(Lens(groups));
    FlattenAppend([a + l] + groups, payload);
    FlattenAppend([a + l], groups);
    FlattenSnoc([], a + l);
    assert [] + [a + l] == [a + l];
    FlattenNothing();
    assert [] + (a + l) == a + l;
    assert a + l + Flatten(groups) + Flatten(payload) == a + (l + (Flatten(groups) + Flatten(payload)));
  }

  lemma FlattenNothing()
    ensures Flatten([]) == []
  {
  }

  /** The length fields are read back. */
  lemma HeaderRead(groups: seq<Chunk>, rest: Chunk, msg: Chunk)
    requires GroupsOk(groups)
    requires msg == Le16(|groups|) + (Le16s(Lens(groups)) + (Flatten(groups) + rest))
    ensures HasHeader(msg)
    ensures Count(msg) == |groups| && NameLens(msg) == Lens(groups)
    ensures msg[NamesStart(msg)..] == Flatten(groups) + rest
  {
    var n := |groups|;
    var body := Flatten(groups) + rest;
    SumLens(groups);
    CountRead(n, Le16s(Lens(groups)) + body, msg);
    LensRead(Lens(groups), body, msg);
  }

  lemma LensRead(lens: seq<nat>, body: Chunk, msg: Chunk)
    requires |msg| >= 2 && Count(msg) == |lens|
    requires forall i :: 0 <= i < |lens| ==> lens[i] < 65536
    requires msg[2..] == Le16s(lens) + body
    ensures |msg| == 2 * (|lens| + 1) + |body|
    ensures NameLens(msg) == lens
    ensures msg[NamesStart(msg)..] == body
  {
    hide Le16s, FromLe16s, FromLe16;
    Le16sRoundTrip(lens, body);
    assert msg[2 * (|lens| + 1)..] == msg[2..][2 * |lens|..];
  }

  lemma CountRead(n: nat, rest: Chunk, msg: Chunk)
    requires n < 65536 && msg == Le16(n) + rest
    ensures Count(msg) == n && msg[2..] == rest
  {
    Le16RoundTrip(n);
  }

  /** A message read by a receiver names the groups it was addressed to and
      carries the application's data behind them. */
  lemma AddressRead(groups: seq<Chunk>, payload: seq<Chunk>)
    requires GroupsOk(groups)
    ensures var msg := Flatten(Address(groups, payload));
            && HasHeader(msg)
            && Count(msg) == |groups|
            && (forall i :: 0 <= i < |groups| ==> Name(msg, i) == groups[i])
            && msg[HeaderSize(msg)..] == Flatten(payload)
  {
    hide Flatten, Le16, Le16s, Address, Count, NameLens;
    var msg := Flatten(Address(groups, payload));
    var rest := Flatten(payload);
    AddressFlat(groups, payload);
    HeaderRead(groups, rest, msg);
    SumLens(groups);
    var lens := Lens(groups);
    var start := NamesStart(msg);
    var body := Flatten(groups) + rest;
    forall i | 0 <= i < |groups|
      ensures Name(msg, i) == groups[i]
    {
      SumPrefix(lens, i);
      FlattenSlice(groups, i);
      var at := Sum(lens[..i]);
      assert msg[start + at..start + at + lens[i]] == msg[start..][at..at + lens[i]] == body[at..at + lens[i]];
      assert body[at..at + lens[i]] == Flatten(groups)[at..at + lens[i]];
    }
    assert msg[HeaderSize(msg)..] == msg[start..][Sum(lens)..] == rest;
  }

  // ---- end to end ----

  /** What an application does with its instance, and what the token does. */
  datatype GroupEvent =
    | GroupSend(groups: seq<Chunk>, payload: seq<Chunk>, accepted: bool)
    | GroupToken(space: bool)

  ghost predicate GroupEventsOk(events: seq<GroupEvent>) {
    forall i :: 0 <= i < |events| && events[i].GroupSend? ==> GroupsOk(events[i].groups)
  }

  /** `totempg_groups_mcast_joined` hands the addressed list to `mcast_msg`. */
  function Lower(e: GroupEvent): Event {
    match e
    case GroupSend(groups, payload, accepted) => Send(Address(groups, payload), accepted)
    case GroupToken(space) => Token(space)
  }

  function LowerAll(events: seq<GroupEvent>): seq<Event> {
    seq(|events|, i requires 0 <= i < |events| => Lower(events[i]))
  }

  predicate GroupFlushed(events: seq<GroupEvent>) {
    events != [] && events[|events| - 1] == GroupToken(true)
  }

  lemma LowerFlushed(events: seq<GroupEvent>)
    ensures GroupFlushed(events) ==> Flushed(LowerAll(events))
  {
  }

  /** The data an instance should see of a node's sends: accepted, and addressed to
      one of its groups. */
  function Expected(events: seq<GroupEvent>, mine: seq<Chunk>): seq<Chunk> {
    if events == [] then []
    else
      var e := events[|events| - 1];
      Expected(events[..|events| - 1], mine) +
      (if e.GroupSend? && e.accepted && exists i :: 0 <= i < |e.groups| && e.groups[i] in mine
       then [Flatten(e.payload)] else [])
  }

  lemma PayloadsSnoc(msgs: seq<Chunk>, m: Chunk, mine: seq<Chunk>)
    requires HasHeader(m) && forall i :: 0 <= i < |msgs| ==> HasHeader(msgs[i])
    ensures Payloads(msgs + [m], mine) == Payloads(msgs, mine) + if ForMe(m, mine) then [m[HeaderSize(m)..]] else []
  {
    hide HasHeader, HeaderSize, ForMe;
    assert (msgs + [m])[..|msgs|] == msgs;
  }

  lemma {:induction false} AcceptedReads(events: seq<GroupEvent>, mine: seq<Chunk>)
    requires GroupEventsOk(events)
    ensures var msgs := Accepted(LowerAll(events));
            && (forall i :: 0 <= i < |msgs| ==> HasHeader(msgs[i]))
            && Payloads(msgs, mine) == Expected(events, mine)
  {
    hide HasHeader, HeaderSize, ForMe, Payloads, Address;
    if events == [] {
      NoPayloads(mine);
    } else {
      var pre := events[..|events| - 1];
      var e := events[|events| - 1];
      AcceptedReads(pre, mine);
      assert LowerAll(events)[..|events| - 1] == LowerAll(pre);
      var msgs := Accepted(LowerAll(pre));
      if e.GroupSend? && e.accepted {
        AddressRead(e.groups, e.payload);
        var m := Flatten(Address(e.groups, e.payload));
        HeaderHasBytes(m);
        assert Accepted(LowerAll(events)) == msgs + [m];
        PayloadsSnoc(msgs, m, mine);
        ForMeIs(e.groups, m, mine);
      } else {
        assert Accepted(LowerAll(events)) == msgs + [] == msgs;
      }
    }
  }

  lemma HeaderHasBytes(m: Chunk)
    requires HasHeader(m)
    ensures m != []
  {
  }

  lemma NoPayloads(mine: seq<Chunk>)
    ensures Payloads([], mine) == []
  {
  }

  lemma ForMeIs(groups: seq<Chunk>, m: Chunk, mine: seq<Chunk>)
    requires HasHeader(m) && Count(m) == |groups| && forall i :: 0 <= i < |groups| ==> Name(m, i) == groups[i]
    ensures ForMe(m, mine) <==> exists i :: 0 <= i < |groups| && groups[i] in mine
  {
  }

  lemma {:induction false} PayloadsPrefix(a: seq<Chunk>, b: seq<Chunk>, mine: seq<Chunk>)
    requires a <= b
    requires forall i :: 0 <= i < |b| ==> HasHeader(b[i])
    ensures forall i :: 0 <= i < |a| ==> HasHeader(a[i])
    ensures Payloads(a, mine) <= Payloads(b, mine)
    decreases |b|
  {
    if |a| < |b| {
      PayloadsPrefix(a, b[..|b| - 1], mine);
    } else {
      assert a == b;
    }
  }

  /** End to end. Any number of nodes send to groups on any schedule and their
      packets arrive in any interleaving: an instance is given, of each node and
      in order, the data of the messages addressed to one of its groups and
      nothing else; all of it once the node's packets have arrived and it last saw a
      token with queue space. */
  lemma GroupDelivery(t: Table, log: Log, payloads: NodeId -> Payload, schedules: NodeId -> seq<GroupEvent>,
                      mine: seq<Chunk>)
    requires TableOk(t) && Active(t) == []
    requires forall n :: GroupEventsOk(schedules(n))
    requires LogOf(log, payloads, n => LowerAll(schedules(n)))
    requires forall n :: ShortMessages(Accepted(LowerAll(schedules(n))))
    ensures LogHasPieces(log) && Run(t, log).Ran?
    ensures forall n :: var got := FromNode(Run(t, log).out, n);
                        && (forall i :: 0 <= i < |got| ==> HasHeader(got[i]))
                        && Payloads(got, mine) <= Expected(schedules(n), mine)
    ensures forall n :: var (st, wire) := RunSender(payloads(n), LowerAll(schedules(n)));
                        StreamOf(log, n) == wire && (GroupFlushed(schedules(n)) || st.segs == []) ==>
                          Payloads(FromNode(Run(t, log).out, n), mine) == Expected(schedules(n), mine)
  {
    hide RunSender, Payloads, Expected, Run, TableOk;
    var low: NodeId -> seq<Event> := n => LowerAll(schedules(n));
    DeliveredIsSent(t, log, payloads, low);
    forall n
      ensures var got := FromNode(Run(t, log).out, n);
              && (forall i :: 0 <= i < |got| ==> HasHeader(got[i]))
              && Payloads(got, mine) <= Expected(schedules(n), mine)
              && (got == Accepted(low(n)) ==> Payloads(got, mine) == Expected(schedules(n), mine))
    {
      AcceptedReads(schedules(n), mine);
      LowerFlushed(schedules(n));
      PayloadsPrefix(FromNode(Run(t, log).out, n), Accepted(low(n)), mine);
    }
  }
}
