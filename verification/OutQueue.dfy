/** The per-connection event queue of exec/ipc_glue.c: `msg_send_or_queue` and
    `outq_flush`. What the IPC library answers to each attempt to send is a parameter. */
module OutQueue {
  import opened Bytes

  /** `rc` of `qb_ipcs_event_send` and `qb_ipcs_event_sendv`: all bytes taken,
      -EAGAIN, or anything else. */
  datatype Answer = Taken | Again | Refused

  /** A connection as values: the flags and counters, the queue, what the client has
      been sent, and whether a flush is scheduled. */
  datatype Conn = Conn(queuing: bool, queued: int, sent: int, queue: seq<Chunk>, wire: seq<Chunk>, job: bool)

  const NEW_CONN := Conn(false, 0, 0, [], [], false)

  /** How many of the first queued messages a flush gets rid of. */
  function Flushed(queue: seq<Chunk>, answers: nat -> Answer): (k: nat)
    ensures k <= |queue|
    ensures forall i :: 0 <= i < k ==> answers(i) == Taken
    ensures k < |queue| ==> answers(k) != Taken
  {
    FlushedFrom(queue, answers, 0)
  }

  function FlushedFrom(queue: seq<Chunk>, answers: nat -> Answer, i: nat): (k: nat)
    requires i <= |queue|
    ensures i <= k <= |queue|
    ensures forall j :: i <= j < k ==> answers(j) == Taken
    ensures k < |queue| ==> answers(k) != Taken
    decreases |queue| - i
  {
    if i < |queue| && answers(i) == Taken then FlushedFrom(queue, answers, i + 1) else i
  }

  function FlushStep(c: Conn, answers: nat -> Answer): Conn {
    var k := Flushed(c.queue, answers);
    var rest := c.queue[k..];
    var wire := c.wire + c.queue[..k];
    if rest == [] then Conn(false, 0, 0, [], wire, false)
    else Conn(c.queuing, c.queued - k, c.sent + k, rest, wire, answers(k) == Again)
  }

  function SendStep(c: Conn, iov: seq<Chunk>, answer: Answer): Conn {
    var msg := Flatten(iov);
    if c.queuing then c.(queue := c.queue + [msg], queued := c.queued + 1)
    else
      match answer
      case Taken => c.(sent := c.sent + 1, wire := c.wire + [msg])
      case Again => Conn(true, 1, 0, c.queue + [msg], c.wire, true)
      case Refused => c
  }

  datatype Op = Send(iov: seq<Chunk>, answer: Answer) | Flush(answers: nat -> Answer)

  function Apply(c: Conn, op: Op): Conn {
    match op
    case Send(iov, answer) => SendStep(c, iov, answer)
    case Flush(answers) => FlushStep(c, answers)
  }

  function Run(ops: seq<Op>): Conn {
    if ops == [] then NEW_CONN else Apply(Run(ops[..|ops| - 1]), ops[|ops| - 1])
  }

  /** The message is lost: a hard error with nothing queued. */
  predicate Dropped(c: Conn, op: Op) {
    op.Send? && !c.queuing && op.answer == Refused
  }

  /** The messages taken over from the service, in order. */
  function Accepted(ops: seq<Op>): seq<Chunk> {
    if ops == [] then []
    else
      var k := |ops| - 1;
      Accepted(ops[..k]) +
      if ops[k].Send? && !Dropped(Run(ops[..k]), ops[k]) then [Flatten(ops[k].iov)] else []
  }

  /** The queue condition; `queued` counts the queue. */
  predicate ConnOk(c: Conn) {
    && (c.queuing <==> c.queue != [])
    && c.queued == |c.queue|
    && 0 <= c.sent <= |c.wire|
    && (c.job ==> c.queue != [])
  }

  /** After every sequence of sends and flushes: what the client got followed by what
      is queued is what was accepted, in order; a message is sent directly only when
      nothing is queued (the check before the direct send holds). */
  lemma {:induction false} OrderKept(ops: seq<Op>)
    ensures ConnOk(Run(ops))
    ensures Run(ops).wire + Run(ops).queue == Accepted(ops)
    ensures !Run(ops).queuing ==> Run(ops).queue == []
  {
    if ops != [] {
      var k := |ops| - 1;
      OrderKept(ops[..k]);
      var c := Run(ops[..k]);
      match ops[k]
      case Send(iov, answer) =>
        assert c.wire + (c.queue + [Flatten(iov)]) == c.wire + c.queue + [Flatten(iov)];
        assert !c.queuing ==> c.wire + [Flatten(iov)] + [] == c.wire + c.queue + [Flatten(iov)];
        assert Accepted(ops[..k]) + [] == Accepted(ops[..k]);
      case Flush(answers) =>
        var n := Flushed(c.queue, answers);
        assert c.wire + c.queue[..n] + c.queue[n..] == c.wire + c.queue;
        assert Accepted(ops[..k]) + [] == Accepted(ops[..k]);
    }
  }

  /** What the client had got when counting began anew: when a message had to be queued,
      or when a flush left nothing. */
  function CountedFrom(ops: seq<Op>): nat {
    if ops == [] then 0
    else
      var k := |ops| - 1;
      var c := Run(ops[..k]);
      match ops[k]
      case Send(_, answer) => if !c.queuing && answer == Again then |c.wire| else CountedFrom(ops[..k])
      case Flush(_) => if Run(ops).queue == [] then |Run(ops).wire| else CountedFrom(ops[..k])
  }

  /** `sent` counts what the client has got since then. */
  lemma {:induction false} SentCounts(ops: seq<Op>)
    ensures Run(ops).sent == |Run(ops).wire| - CountedFrom(ops)
  {
    if ops != [] {
      SentCounts(ops[..|ops| - 1]);
    }
  }

  /** A flush of a non-empty queue that ends on a hard error. */
  predicate Stalls(c: Conn, op: Op) {
    && op.Flush? && c.queue != []
    && Flushed(c.queue, op.answers) < |c.queue| && op.answers(Flushed(c.queue, op.answers)) == Refused
  }

  /** A flush has stalled and no later flush has been called. */
  predicate Stalled(ops: seq<Op>) {
    if ops == [] then false
    else
      var k := |ops| - 1;
      if ops[k].Flush? then Stalls(Run(ops[..k]), ops[k]) else Stalled(ops[..k])
  }

  /** Queued messages have a flush scheduled unless the last flush met a hard error:
      nothing schedules one again. */
  lemma {:induction false} FlushScheduled(ops: seq<Op>)
    ensures Run(ops).job <==> Run(ops).queue != [] && !Stalled(ops)
    ensures Stalled(ops) ==> Run(ops).queue != []
  {
    if ops != [] {
      var k := |ops| - 1;
      FlushScheduled(ops[..k]);
      OrderKept(ops[..k]);
    }
  }

  /** The main loop calls a flush only when one is scheduled. */
  predicate Driven(ops: seq<Op>) {
    forall i :: 0 <= i < |ops| && ops[i].Flush? ==> Run(ops[..i]).job
  }

  /** A stall is final: the client gets nothing more, whatever is sent to it. */
  lemma {:induction false} StallIsFinal(ops: seq<Op>, more: seq<Op>)
    requires Stalled(ops) && Driven(ops + more)
    ensures Stalled(ops + more) && Run(ops + more).wire == Run(ops).wire
    decreases |more|
  {
    if more == [] {
      assert ops + more == ops;
    } else {
      var k := |more| - 1;
      var all, before := ops + more, ops + more[..k];
      assert all[..|all| - 1] == before && all[|all| - 1] == more[k];
      forall i | 0 <= i < |before| && before[i].Flush?
        ensures Run(before[..i]).job
      {
        assert before[i] == all[i] && before[..i] == all[..i];
      }
      StallIsFinal(ops, more[..k]);
      FlushScheduled(before);
      OrderKept(before);
      assert !more[k].Flush?;
    }
  }

  /** Such a run: a message is queued, and the flush that this schedules meets a hard
      error. The message stays in the queue whatever follows. */
  lemma Stall(iov: seq<Chunk>, more: seq<Op>)
    ensures var ops := [Send(iov, Again), Flush(_ => Refused)];
            && Driven(ops) && Stalled(ops) && Run(ops).queue == [Flatten(iov)] && !Run(ops).job
            && (Driven(ops + more) ==> Run(ops + more).wire == [])
  {
    var ops := [Send(iov, Again), Flush(_ => Refused)];
    assert ops[..1] == [Send(iov, Again)] && ops[..1][..0] == [];
    assert Run(ops[..1]) == Conn(true, 1, 0, [Flatten(iov)], [], true);
    assert [Flatten(iov)][0..] == [Flatten(iov)];
    assert Run(ops) == Conn(true, 1, 0, [Flatten(iov)], [], false);
    if Driven(ops + more) {
      StallIsFinal(ops, more);
    }
  }

  /** A flush whose attempts all succeed empties the queue. */
  lemma FlushEmpties(c: Conn, answers: nat -> Answer)
    ensures FlushStep(c, answers).queue == [] <==> forall i :: 0 <= i < |c.queue| ==> answers(i) == Taken
    ensures FlushStep(c, answers).queue == [] ==> FlushStep(c, answers).wire == c.wire + c.queue
  {
    assert c.queue[..|c.queue|] == c.queue;
  }

  /** `cs_ipcs_conn_context`. */
  class Connection {
    var queuing: bool
    var queued: int
    var sent: int
    var outq: seq<Chunk>
    var job: bool
    var wire: seq<Chunk>

    ghost function Model(): Conn
      reads this
    {
      Conn(queuing, queued, sent, outq, wire, job)
    }

    constructor ()
      ensures Model() == NEW_CONN
    {
      queuing, queued, sent, outq, job, wire := false, 0, 0, [], false, [];
    }

    /** `outq_flush`, called by the main loop. */
    method OutqFlush(answers: nat -> Answer)
      requires ConnOk(Model())
      modifies this
      ensures Model() == FlushStep(old(Model()), answers)
      ensures ConnOk(Model())
    {
      job := false;
      var i := 0;
      while outq != []
        invariant 0 <= i <= |old(outq)| && outq == old(outq)[i..]
        invariant forall j :: 0 <= j < i ==> answers(j) == Taken
        invariant i <= Flushed(old(outq), answers)
        invariant queuing == old(queuing) && queued == old(queued) - i && sent == old(sent) + i && !job
        invariant wire == old(wire) + old(outq)[..i]
        decreases |outq|
      {
        var rc := answers(i);
        if rc == Refused {
          assert i == Flushed(old(outq), answers);
          return;
        } else if rc == Again {
          break;
        }
        sent := sent + 1;
        queued := queued - 1;
        wire := wire + [outq[0]];
        outq := outq[1..];
        i := i + 1;
      }
      assert i == Flushed(old(outq), answers);
      if outq == [] {
        queuing := false;
        queued := 0;
        sent := 0;
      } else {
        job := true;
      }
    }

    /** `msg_send_or_queue`. */
    method MsgSendOrQueue(iov: seq<Chunk>, answer: Answer)
      requires ConnOk(Model())
      modifies this
      ensures Model() == SendStep(old(Model()), iov, answer)
      ensures ConnOk(Model())
    {
      if !queuing {
        assert outq == [];
        if answer == Taken {
          var all := Gather(iov);
          wire := wire + [all];
          sent := sent + 1;
          return;
        }
        if answer == Again {
          queued := 0;
          sent := 0;
          queuing := true;
          job := true;
        } else {
          return;
        }
      }
      var msg := Gather(iov);
      outq := outq + [msg];
      queued := queued + 1;
    }
  }

  /** The bytes of an iovec, copied one entry after the other. */
  method Gather(iov: seq<Chunk>) returns (msg: Chunk)
    ensures msg == Flatten(iov)
  {
    msg := [];
    var i := 0;
    while i < |iov|
      invariant 0 <= i <= |iov| && msg + Flatten(iov[i..]) == Flatten(iov)
    {
      assert iov[i..] == [iov[i]] + iov[i + 1..];
      msg := msg + iov[i];
      i := i + 1;
    }
    assert msg + [] == msg;
  }
}
