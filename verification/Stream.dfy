/** What a stream of packets means, independently of buffers and fragment
    numbers, and the proof that the packing loop of exec/totempg.c sends exactly
    the messages it was given, for every schedule of sends and token flushes. */
module Stream {
  import opened Bytes
  import opened Packing

  /** The pieces of one packet, the first one glued to what was left over. */
  function Join(partial: Chunk, segs: seq<Chunk>): (r: seq<Chunk>)
    requires segs != []
    ensures |r| == |segs|
  {
    [partial + segs[0]] + segs[1..]
  }

  /** The messages completed by a stream of packets and the bytes of the message
      that is still incomplete. */
  function Meaning(ps: seq<Packet>): (seq<Chunk>, Chunk)
    requires HasPieces(ps)
  {
    if ps == [] then ([], [])
    else
      var (done, partial) := Meaning(ps[..|ps| - 1]);
      var p := ps[|ps| - 1];
      var j := Join(partial, p.segs);
      if p.fragmented == 0 then (done + j, [])
      else (done + j[..|j| - 1], j[|j| - 1])
  }

  predicate HasPieces(ps: seq<Packet>) {
    forall i :: 0 <= i < |ps| ==> ps[i].segs != []
  }

  /** The fragment number a receiver expects next. */
  function LastFragment(ps: seq<Packet>): Byte {
    if ps == [] then 0 else ps[|ps| - 1].fragmented
  }

  /** Every packet continues the fragment number of the packet before it. */
  ghost predicate Chained(ps: seq<Packet>) {
    forall i :: 0 <= i < |ps| ==> ps[i].continuation == LastFragment(ps[..i])
  }

  lemma MeaningSnoc(ps: seq<Packet>, p: Packet)
    requires HasPieces(ps) && p.segs != []
    ensures HasPieces(ps + [p])
    ensures var j := Join(Meaning(ps).1, p.segs);
            Meaning(ps + [p]) ==
            if p.fragmented == 0 then (Meaning(ps).0 + j, [])
            else (Meaning(ps).0 + j[..|j| - 1], j[|j| - 1])
  {
    assert (ps + [p])[..|ps + [p]| - 1] == ps;
  }

  lemma ChainedSnoc(ps: seq<Packet>, p: Packet)
    requires Chained(ps) && p.continuation == LastFragment(ps)
    ensures Chained(ps + [p])
  {
    forall i | 0 <= i < |ps + [p]|
      ensures (ps + [p])[i].continuation == LastFragment((ps + [p])[..i])
    {
      assert (ps + [p])[..i] == ps[..i];
      assert ps[..|ps|] == ps;
    }
  }

  lemma JoinNothing(partial: Chunk)
    ensures Join(partial, [[]]) == [partial]
  {
    assert partial + [] == partial;
  }

  // ---- the invariant of the sender ----

  /** The stream so far, continued by the staged pieces, spells the messages
      `msgs` followed by the copied part `done` of the current message. */
  ghost predicate Spells(wire: seq<Packet>, st: Stage, msgs: seq<Chunk>, done: Chunk) {
    && HasPieces(wire)
    && Chained(wire)
    && st.continuation == LastFragment(wire)
    && Meaning(wire).0 + Join(Meaning(wire).1, st.segs + [st.cur]) == msgs + [done]
  }

  lemma SpellsStaged(wire: seq<Packet>, st: Stage, msgs: seq<Chunk>, done: Chunk, more: Chunk, next: Byte)
    requires Spells(wire, st, msgs, done)
    ensures Spells(wire, st.(cur := st.cur + more, next := next), msgs, done + more)
  {
    var (del, q) := Meaning(wire);
    var old_ := Join(q, st.segs + [st.cur]);
    var new_ := Join(q, st.segs + [st.cur + more]);
    var k := |st.segs|;
    assert (del + old_)[|del| + k] == done;
    assert q + (st.cur + more) == (q + st.cur) + more;
    assert new_ == old_[..k] + [old_[k] + more];
    assert del + new_ == (del + old_)[..|del| + k] + [done + more];
    assert (msgs + [done])[..|del| + k] == msgs;
  }

  /** Sending a packet that ends in a fragment keeps the current message open. */
  lemma SpellsFragment(wire: seq<Packet>, st: Stage, msgs: seq<Chunk>, done: Chunk, num: Byte, next: Byte)
    requires Spells(wire, st, msgs, done)
    requires num != 0
    ensures Spells(wire + [Packet(num, st.continuation, st.segs + [st.cur])],
                   Stage([], [], num, next), msgs, done)
  {
    var p := Packet(num, st.continuation, st.segs + [st.cur]);
    MeaningSnoc(wire, p);
    ChainedSnoc(wire, p);
    var (del, q) := Meaning(wire);
    var j := Join(q, p.segs);
    JoinNothing(j[|j| - 1]);
    assert del + j == (del + j[..|j| - 1]) + [j[|j| - 1]];
  }

  /** Sending a packet whose last piece is complete closes the current message. */
  lemma SpellsComplete(wire: seq<Packet>, st: Stage, msgs: seq<Chunk>, done: Chunk, next: Byte)
    requires Spells(wire, st, msgs, done)
    ensures Spells(wire + [Packet(0, st.continuation, st.segs + [st.cur])],
                   Stage([], [], 0, next), msgs + [done], [])
  {
    var p := Packet(0, st.continuation, st.segs + [st.cur]);
    MeaningSnoc(wire, p);
    ChainedSnoc(wire, p);
    JoinNothing([]);
  }

  /** What is spelled once the loop has copied the whole message: it is either
      the open message in the staging buffer or the last one sent. */
  ghost predicate SpellsWhole(wire: seq<Packet>, st: Stage, msgs: seq<Chunk>, whole: Chunk) {
    if st.cur != [] then Spells(wire, st, msgs, whole)
    else Spells(wire, st, msgs + [whole], [])
  }

  /** One packet of the loop spells the piece it carries. */
  lemma EmitSpells(payload: nat, st: Stage, chunks: seq<Chunk>, base: nat,
                   wire: seq<Packet>, msgs: seq<Chunk>, done: Chunk)
    requires StageOk(payload, st)
    requires chunks != [] && base < |chunks[0]|
    requires Spells(wire, st, msgs, done)
    ensures var (p, st') := Emit(payload, st, chunks, base);
            var piece := chunks[0][base..base + CopyLen(payload, st, chunks[0], base)];
            if p.fragmented != 0 then Spells(wire + [p], st', msgs, done + piece)
            else Spells(wire + [p], st', msgs + [done + piece], [])
  {
    var (p, st') := Emit(payload, st, chunks, base);
    var piece := chunks[0][base..base + CopyLen(payload, st, chunks[0], base)];
    SpellsStaged(wire, st, msgs, done, piece, st.next);
    var st1 := st.(cur := st.cur + piece, next := st.next);
    assert p == Packet(p.fragmented, st1.continuation, st1.segs + [st1.cur]);
    assert st' == Stage([], [], p.fragmented, st'.next);
    if p.fragmented != 0 {
      SpellsFragment(wire, st1, msgs, done + piece, p.fragmented, st'.next);
    } else {
      SpellsComplete(wire, st1, msgs, done + piece, st'.next);
    }
  }

  /** Cutting the first chunk off the rest of the message. */
  lemma CutChunk(chunks: seq<Chunk>, base: nat, done: Chunk)
    requires chunks != [] && base <= |chunks[0]|
    ensures base <= |Flatten(chunks)|
    ensures done + chunks[0][base..] + Flatten(chunks[1..])[0..] == done + Flatten(chunks)[base..]
    ensures chunks[1..] == [] ==> done + chunks[0][base..] == done + Flatten(chunks)[base..]
  {
    assert chunks[0] + Flatten(chunks[1..]) == Flatten(chunks);
  }

  /** Cutting `n` bytes off the rest of the message. */
  lemma CutPiece(chunks: seq<Chunk>, base: nat, n: nat, done: Chunk)
    requires chunks != [] && base + n <= |chunks[0]|
    ensures base + n <= |Flatten(chunks)|
    ensures done + chunks[0][base..base + n] + Flatten(chunks)[base + n..] == done + Flatten(chunks)[base..]
  {
    var f := Flatten(chunks);
    assert f == chunks[0] + Flatten(chunks[1..]);
    assert chunks[0][base..base + n] == f[base..base + n];
    assert f[base..base + n] + f[base + n..] == f[base..];
  }

  /** The copy loop spells the rest of the message, wherever it cuts it. */
  lemma {:induction false} PackSpells(payload: nat, st: Stage, chunks: seq<Chunk>, base: nat,
                                      wire: seq<Packet>, msgs: seq<Chunk>, done: Chunk)
    returns (st': Stage, out: seq<Packet>)
    requires StageOk(payload, st)
    requires AllNonEmpty(chunks) && chunks != [] && base < |chunks[0]|
    requires Spells(wire, st, msgs, done)
    ensures (st', out) == Pack(payload, st, chunks, base)
    ensures base <= |Flatten(chunks)|
    ensures SpellsWhole(wire + out, st', msgs, done + Flatten(chunks)[base..])
    decreases |chunks|, |chunks[0]| - base, 1
  {
    CutChunk(chunks, base, done);
    if |chunks[0]| + Size(st) < Room(payload, st) - 2 {
      var c := chunks[0];
      var st1 := st.(cur := st.cur + c[base..], next := 1);
      SpellsStaged(wire, st, msgs, done, c[base..], 1);
      if chunks[1..] != [] {
        st', out := PackSpells(payload, st1, chunks[1..], 0, wire, msgs, done + c[base..]);
      } else {
        st', out := st1, [];
        assert wire + [] == wire;
      }
    } else {
      st', out := PackSpellsEmit(payload, st, chunks, base, wire, msgs, done);
    }
  }

  lemma {:induction false} PackSpellsEmit(payload: nat, st: Stage, chunks: seq<Chunk>, base: nat,
                                          wire: seq<Packet>, msgs: seq<Chunk>, done: Chunk)
    returns (st': Stage, out: seq<Packet>)
    requires StageOk(payload, st)
    requires AllNonEmpty(chunks) && chunks != [] && base < |chunks[0]|
    requires |chunks[0]| + Size(st) >= Room(payload, st) - 2
    requires Spells(wire, st, msgs, done)
    ensures (st', out) == Pack(payload, st, chunks, base)
    ensures base <= |Flatten(chunks)|
    ensures SpellsWhole(wire + out, st', msgs, done + Flatten(chunks)[base..])
    decreases |chunks|, |chunks[0]| - base, 0
  {
    hide Spells, Flatten;
    var n := CopyLen(payload, st, chunks[0], base);
    var (p, st1) := Emit(payload, st, chunks, base);
    var piece := chunks[0][base..base + n];
    CutPiece(chunks, base, n, done);
    EmitSpells(payload, st, chunks, base, wire, msgs, done);
    if base + n < |chunks[0]| {
      st', out := PackSpells(payload, st1, chunks, base + n, wire + [p], msgs, done + piece);
    } else {
      CutChunk(chunks, base, done);
      assert piece == chunks[0][base..];
      if chunks[1..] != [] {
        st', out := PackSpells(payload, st1, chunks[1..], 0, wire + [p], msgs, done + piece);
      } else {
        st', out := st1, [];
        assert wire + [p] + [] == wire + [p];
      }
    }
    assert wire + [p] + out == wire + ([p] + out);
    out := [p] + out;
  }

  // ---- schedules ----

  /** What can happen to the sender: an application message (which the queue-space
      test may refuse), or the token arriving while there is queue space or not. */
  datatype Event =
    | Send(chunks: seq<Chunk>, accepted: bool)
    | Token(space: bool)

  /** All packets of a schedule and the staging state after it. */
  function RunSender(payload: nat, events: seq<Event>): (r: (Stage, seq<Packet>))
    requires payload >= PAYLOAD_MIN
    ensures StageOk(payload, r.0) && r.0.cur == []
  {
    if events == [] then (EMPTY_STAGE, [])
    else
      var (st, wire) := RunSender(payload, events[..|events| - 1]);
      var (st', out) := StepSender(payload, st, events[|events| - 1]);
      (st', wire + out)
  }

  function StepSender(payload: nat, st: Stage, e: Event): (r: (Stage, seq<Packet>))
    requires StageOk(payload, st) && st.cur == []
    ensures StageOk(payload, r.0) && r.0.cur == []
  {
    match e
    case Send(chunks, accepted) =>
      if accepted then
        var (st', out) := Pack(payload, st, NonEmpty(chunks), 0);
        CloseOk(payload, st');
        Mcast(payload, st, chunks)
      else (st, [])
    case Token(space) =>
      FlushOk(payload, st);
      if space then Flush(st) else (st, [])
  }

  /** The messages a schedule hands over: accepted and not empty. */
  function Accepted(events: seq<Event>): seq<Chunk> {
    if events == [] then []
    else Accepted(events[..|events| - 1]) + AcceptedOf(events[|events| - 1])
  }

  function AcceptedOf(e: Event): seq<Chunk> {
    if e.Send? && e.accepted && Flatten(e.chunks) != [] then [Flatten(e.chunks)] else []
  }

  lemma McastSpells(payload: nat, st: Stage, chunks: seq<Chunk>, wire: seq<Packet>, msgs: seq<Chunk>)
    requires StageOk(payload, st) && st.cur == []
    requires Spells(wire, st, msgs, [])
    ensures var (st', out) := Mcast(payload, st, chunks);
            var m := Flatten(chunks);
            Spells(wire + out, st', if m == [] then msgs else msgs + [m], [])
  {
    FlattenNonEmpty(chunks);
    var ne := NonEmpty(chunks);
    if ne == [] {
      assert wire + [] == wire;
    } else {
      var st', out := PackSpells(payload, st, ne, 0, wire, msgs, []);
      assert [] + Flatten(ne)[0..] == Flatten(chunks);
      assert Flatten(ne) == ne[0] + Flatten(ne[1..]);
      if st'.cur != [] {
        SpellsClosed(wire + out, st', msgs, Flatten(chunks));
      }
    }
  }

  /** Counting the staged message as packed is the same as starting an empty one. */
  lemma SpellsClosed(wire: seq<Packet>, st: Stage, msgs: seq<Chunk>, done: Chunk)
    requires Spells(wire, st, msgs, done)
    ensures Spells(wire, st.(segs := st.segs + [st.cur], cur := []), msgs + [done], [])
  {
    var (del, q) := Meaning(wire);
    assert Join(q, st.segs + [st.cur] + [[]]) == Join(q, st.segs + [st.cur]) + [[]];
    assert del + (Join(q, st.segs + [st.cur]) + [[]]) == (del + Join(q, st.segs + [st.cur])) + [[]];
  }

  lemma FlushSpells(st: Stage, wire: seq<Packet>, msgs: seq<Chunk>)
    requires st.cur == [] && Spells(wire, st, msgs, [])
    ensures Spells(wire + Flush(st).1, Flush(st).0, msgs, [])
  {
    if st.segs == [] {
      assert wire + [] == wire;
    } else {
      var p := Packet(0, st.continuation, st.segs);
      MeaningSnoc(wire, p);
      ChainedSnoc(wire, p);
      var (del, q) := Meaning(wire);
      var j := Join(q, st.segs);
      assert Join(q, st.segs + [[]]) == j + [[]];
      assert del + (j + [[]]) == (del + j) + [[]];
      JoinNothing([]);
    }
  }

  lemma {:induction false} RunSpells(payload: nat, events: seq<Event>)
    requires payload >= PAYLOAD_MIN
    ensures var (st, wire) := RunSender(payload, events);
            Spells(wire, st, Accepted(events), [])
  {
    if events == [] {
      JoinNothing([]);
    } else {
      hide Spells, Mcast, Flush;
      var pre := events[..|events| - 1];
      var e := events[|events| - 1];
      RunSpells(payload, pre);
      var (st, wire) := RunSender(payload, pre);
      match e {
        case Send(chunks, accepted) =>
          if accepted {
            McastSpells(payload, st, chunks, wire, Accepted(pre));
          } else {
            assert wire + [] == wire && Accepted(pre) + [] == Accepted(pre);
          }
        case Token(space) =>
          assert Accepted(pre) + [] == Accepted(pre);
          if space {
            FlushSpells(st, wire, Accepted(pre));
          } else {
            assert wire + [] == wire;
          }
      }
    }
  }

  /** A token that finds queue space sends all that is staged, in one packet, and nothing
      if nothing is staged; one that finds none sends nothing. */
  lemma TokenSends(payload: nat, st: Stage)
    requires StageOk(payload, st) && st.cur == []
    ensures var (st', out) := StepSender(payload, st, Token(true));
            && st'.segs == [] && st'.cur == []
            && (st.segs == [] ==> out == [])
            && (st.segs != [] ==> out == [Packet(0, st.continuation, st.segs)] && st'.continuation == 0)
    ensures StepSender(payload, st, Token(false)) == (st, [])
  {
  }

  /** The last thing that happened is a token that found queue space. */
  predicate Flushed(events: seq<Event>) {
    events != [] && events[|events| - 1] == Token(true)
  }

  lemma FlushedStage(payload: nat, events: seq<Event>)
    requires payload >= PAYLOAD_MIN && Flushed(events)
    ensures RunSender(payload, events).0.segs == []
  {
    hide Mcast, Flush;
    TokenSends(payload, RunSender(payload, events[..|events| - 1]).0);
  }

  /** Messages that are wholly or partly in the staging buffer. */
  function Pending(st: Stage, partial: Chunk): seq<Chunk> {
    if st.segs == [] then [] else Join(partial, st.segs)
  }

  /** Conservation over every schedule: completed messages followed by those still
      partial or staged are the messages accepted, in order; and after a token that
      found queue space the stream alone spells them. */
  lemma StreamConservation(payload: nat, events: seq<Event>)
    requires payload >= PAYLOAD_MIN
    ensures var (st, wire) := RunSender(payload, events);
            && HasPieces(wire)
            && Chained(wire)
            && Meaning(wire).0 + Pending(st, Meaning(wire).1) == Accepted(events)
            && (st.segs == [] ==> Meaning(wire) == (Accepted(events), []))
            && (Flushed(events) ==> st.segs == [])
  {
    RunSpells(payload, events);
    if Flushed(events) {
      FlushedStage(payload, events);
    }
    var (st, wire) := RunSender(payload, events);
    var (del, q) := Meaning(wire);
    var j := Join(q, st.segs + [[]]);
    var all := del + j;
    assert all == Accepted(events) + [[]];
    assert all[..|all| - 1] == Accepted(events);
    if st.segs == [] {
      assert j == [q];
      assert all[|all| - 1] == q;
      assert all[..|all| - 1] == del;
    } else {
      assert j == Join(q, st.segs) + [[]];
      assert all[..|all| - 1] == del + Join(q, st.segs);
    }
  }

  /** Packet bounds over every schedule: each packet carries data and is at most
      `net_mtu` bytes long. */
  lemma {:induction false} ScheduleBounds(payload: nat, events: seq<Event>)
    requires payload >= PAYLOAD_MIN
    ensures AllPacketsOk(payload, RunSender(payload, events).1)
  {
    if events != [] {
      var pre := events[..|events| - 1];
      var e := events[|events| - 1];
      ScheduleBounds(payload, pre);
      var (st, wire) := RunSender(payload, pre);
      match e {
        case Send(chunks, accepted) =>
          if accepted {
            PackBounds(payload, st, NonEmpty(chunks), 0);
          }
        case Token(space) =>
          FlushBounds(payload, st);
      }
    }
  }
}
