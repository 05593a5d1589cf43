/** How a round begins for the services: each service that is loaded gets its `sync_init`,
    once and in order, and no other call before it. */
module SyncOpening {
  import opened Wrappers
  import opened Sync
  import opened SyncLists
  import opened SyncProtocol
  import opened SyncInvariant

  /** The round that the call at `j` belongs to starts at `i`. */
  ghost predicate RoundOf(calls: seq<Callback>, i: int, j: int) {
    && 0 <= i < j <= |calls| && calls[i].RoundStart?
    && forall k :: i < k < j ==> !calls[k].RoundStart?
  }

  /** A round begins with `sync_init` of every loaded service, in the order of their ids. */
  ghost predicate Opens(c: Config, n: NodeId, calls: seq<Callback>, i: int)
    requires 0 <= i < |calls| && calls[i].RoundStart?
  {
    var ids := c.loaded(calls[i].ring, n);
    && i + |ids| < |calls|
    && forall k :: 0 <= k < |ids| ==> calls[i + 1 + k] == Init(ids[k])
  }

  /** Whether a call has its place in the round that starts at `i`: a `sync_init` in the
      beginning, any other call behind that and for a service that is loaded. */
  ghost predicate Placed(c: Config, n: NodeId, calls: seq<Callback>, i: int, j: int) {
    && RoundOf(calls, i, j) && j < |calls| && !calls[j].RoundStart?
    && var ids := c.loaded(calls[i].ring, n);
       if calls[j].Init? then j <= i + |ids| else j > i + |ids| && calls[j].service in ids
  }

  ghost predicate InitsFirst(c: Config, n: NodeId, calls: seq<Callback>) {
    && (forall i :: 0 <= i < |calls| && calls[i].RoundStart? ==> Opens(c, n, calls, i))
    && (forall j :: 0 <= j < |calls| && !calls[j].RoundStart? ==> exists i :: Placed(c, n, calls, i, j))
  }

  /** So every other call for a service comes behind the `sync_init` of its round. */
  lemma InitBefore(c: Config, n: NodeId, calls: seq<Callback>, j: int)
    requires InitsFirst(c, n, calls)
    requires 0 <= j < |calls| && (calls[j].Processed? || calls[j].Activated? || calls[j].Aborted?)
    ensures exists i, k :: RoundOf(calls, i, j) && i < k < j && calls[k] == Init(calls[j].service)
  {
    var i :| Placed(c, n, calls, i, j);
    var ids := c.loaded(calls[i].ring, n);
    var x :| 0 <= x < |ids| && ids[x] == calls[j].service;
    assert Opens(c, n, calls, i);
    assert calls[i + 1 + x] == Init(ids[x]);
  }

  /** And within a round the `sync_init` of a service comes once. */
  lemma InitOnce(c: Config, n: NodeId, calls: seq<Callback>, i: int, j: int, k: int)
    requires ConfigOk(c) && InitsFirst(c, n, calls) && RoundOf(calls, i, j) && RoundOf(calls, i, k)
    requires j < |calls| && k < |calls| && calls[j].Init? && calls[j] == calls[k]
    ensures j == k
  {
    PlacedHere(c, n, calls, i, j);
    PlacedHere(c, n, calls, i, k);
    var ids := c.loaded(calls[i].ring, n);
    assert Opens(c, n, calls, i) && IncreasingIds(ids);
    assert calls[i + 1 + (j - i - 1)] == Init(ids[j - i - 1]) && calls[i + 1 + (k - i - 1)] == Init(ids[k - i - 1]);
  }

  lemma PlacedHere(c: Config, n: NodeId, calls: seq<Callback>, i: int, j: int)
    requires InitsFirst(c, n, calls) && RoundOf(calls, i, j) && j < |calls| && !calls[j].RoundStart?
    ensures Placed(c, n, calls, i, j)
  {
    var i' :| Placed(c, n, calls, i', j);
    assert i' == i;
  }

  // ---- what every step keeps ----

  /** The start of the last round. */
  function LastStart(calls: seq<Callback>): (i: int)
    ensures -1 <= i < |calls|
    ensures i >= 0 ==> calls[i].RoundStart?
    ensures forall k :: i < k < |calls| ==> !calls[k].RoundStart?
  {
    if calls == [] then -1
    else if calls[|calls| - 1].RoundStart? then |calls| - 1
    else LastStart(calls[..|calls| - 1])
  }

  /** The services of the node that are loaded are those of its last round. */
  ghost predicate OwnLoaded(c: Config, n: NodeId, nd: Node) {
    forall j :: 0 <= j < |nd.services| && nd.services[j].loaded ==>
      && LastStart(nd.calls) >= 0
      && nd.services[j].id in c.loaded(nd.calls[LastStart(nd.calls)].ring, n)
  }

  ghost predicate OpenInv(c: Config, n: NodeId, nd: Node) {
    && InitsFirst(c, n, nd.calls)
    && OwnLoaded(c, n, nd)
    && (nd.ring != NO_RING ==> LastStart(nd.calls) >= 0 && nd.calls[LastStart(nd.calls)].ring == nd.ring)
  }

  lemma LastStartSnoc(calls: seq<Callback>, x: Callback)
    ensures LastStart(calls + [x]) == if x.RoundStart? then |calls| else LastStart(calls)
  {
    assert (calls + [x])[..|calls|] == calls;
  }

  /** A call behind the beginning of the round. */
  lemma FirstSnoc(c: Config, n: NodeId, calls: seq<Callback>, x: Callback)
    requires InitsFirst(c, n, calls) && LastStart(calls) >= 0
    requires x.Processed? || x.Activated? || x.Aborted?
    requires x.service in c.loaded(calls[LastStart(calls)].ring, n)
    ensures InitsFirst(c, n, calls + [x])
  {
    var all, s := calls + [x], LastStart(calls);
    forall i | 0 <= i < |all| && all[i].RoundStart?
      ensures Opens(c, n, all, i)
    {
      assert Opens(c, n, calls, i);
    }
    forall j | 0 <= j < |all| && !all[j].RoundStart?
      ensures exists i :: Placed(c, n, all, i, j)
    {
      if j < |calls| {
        var i :| Placed(c, n, calls, i, j);
        assert Placed(c, n, all, i, j);
      } else {
        assert Opens(c, n, calls, s);
        assert Placed(c, n, all, s, j);
      }
    }
  }

  /** The calls with which a round begins. */
  lemma FirstRound(c: Config, n: NodeId, calls: seq<Callback>, r: RingId)
    requires InitsFirst(c, n, calls)
    ensures var all := calls + [RoundStart(r)] + Inits(c.loaded(r, n));
            InitsFirst(c, n, all) && LastStart(all) == |calls| && all[|calls|] == RoundStart(r)
  {
    hide InitsFirst, LastStart;
    var ids := c.loaded(r, n);
    var all, s := calls + [RoundStart(r)] + Inits(ids), |calls|;
    assert forall j :: 0 <= j < s ==> all[j] == calls[j];
    assert forall j :: s < j < |all| ==> all[j] == Init(ids[j - s - 1]);
    RoundAppended(c, n, calls, all, r);
    assert LastStart(all) == s;
  }

  lemma RoundAppended(c: Config, n: NodeId, calls: seq<Callback>, all: seq<Callback>, r: RingId)
    requires InitsFirst(c, n, calls)
    requires var ids, s := c.loaded(r, n), |calls|;
             && |all| == s + 1 + |ids| && all[s] == RoundStart(r)
             && (forall j :: 0 <= j < s ==> all[j] == calls[j])
             && (forall j :: s < j < |all| ==> all[j] == Init(ids[j - s - 1]))
    ensures InitsFirst(c, n, all)
  {
    var s := |calls|;
    forall i | 0 <= i < |all| && all[i].RoundStart?
      ensures Opens(c, n, all, i)
    {
      if i < s {
        assert Opens(c, n, calls, i);
      } else {
        assert i == s;
      }
    }
    forall j | 0 <= j < |all| && !all[j].RoundStart?
      ensures exists i :: Placed(c, n, all, i, j)
    {
      if j < s {
        var i :| Placed(c, n, calls, i, j);
        assert Placed(c, n, all, i, j);
      } else {
        assert Placed(c, n, all, s, j);
      }
    }
  }

  /** A call to a service of the list, or none. */
  lemma CallKeeps(c: Config, n: NodeId, nd: Node, nd': Node, s: Service, x: Callback)
    requires OpenInv(c, n, nd) && s in nd.services
    requires (x.Processed? || x.Activated? || x.Aborted?) && x.service == s.id
    requires nd'.calls == nd.calls + Call(s, x)
    ensures InitsFirst(c, n, nd'.calls) && LastStart(nd'.calls) == LastStart(nd.calls)
    ensures LastStart(nd.calls) >= 0 ==> nd'.calls[LastStart(nd.calls)] == nd.calls[LastStart(nd.calls)]
  {
    hide InitsFirst;
    if s.loaded {
      FirstSnoc(c, n, nd.calls, x);
      LastStartSnoc(nd.calls, x);
    } else {
      assert nd.calls + [] == nd.calls;
    }
  }

  /** Nothing but flags of the services changes. */
  lemma SameServices(c: Config, n: NodeId, nd: Node, nd': Node)
    requires OwnLoaded(c, n, nd)
    requires |nd'.services| == |nd.services|
    requires forall j :: 0 <= j < |nd.services| ==>
               nd'.services[j].id == nd.services[j].id && nd'.services[j].loaded == nd.services[j].loaded
    requires LastStart(nd'.calls) == LastStart(nd.calls)
    requires LastStart(nd.calls) >= 0 ==> nd'.calls[LastStart(nd.calls)] == nd.calls[LastStart(nd.calls)]
    ensures OwnLoaded(c, n, nd')
  {
  }

  /** The services of a node in a ring are loaded exactly if they are its own. */
  lemma ActiveOwn(c: Config, r: RingId, n: NodeId, nd: Node, log: Log, pos: nat, transit: bool)
    requires ActiveInv(c, r, n, nd, log, pos, transit)
    requires LastStart(nd.calls) >= 0 && nd.calls[LastStart(nd.calls)].ring == r
    ensures OwnLoaded(c, n, nd)
  {
  }

  lemma AbortOpen(c: Config, n: NodeId, nd: Node)
    requires OpenInv(c, n, nd)
    ensures OpenInv(c, n, Abort(nd))
  {
    hide InitsFirst;
    var nd' := Abort(nd);
    if (nd.state == PROCESS || nd.state == BARRIER) && nd.idx < |nd.services| {
      var s := nd.services[nd.idx];
      CallKeeps(c, n, nd, nd', s, Aborted(s.id));
    } else {
      assert nd'.calls == nd.calls;
    }
    SameServices(c, n, nd, nd');
  }

  lemma SameOpen(c: Config, n: NodeId, nd: Node, nd': Node)
    requires OpenInv(c, n, nd)
    requires nd'.calls == nd.calls && nd'.services == nd.services && nd'.ring == nd.ring
    ensures OpenInv(c, n, nd')
  {
  }

  lemma StartOpen(c: Config, n: NodeId, nd: Node, r: RingId)
    requires OpenInv(c, n, nd)
    ensures OpenInv(c, n, Start(nd, c.members(r), r, c.loaded(r, n)))
  {
    hide InitsFirst, Surviving;
    var nd' := Start(nd, c.members(r), r, c.loaded(r, n));
    FirstRound(c, n, nd.calls, r);
    forall j | 0 <= j < |nd'.services|
      ensures nd'.services[j].id in c.loaded(r, n)
    {
      assert nd'.services[j].id == c.loaded(r, n)[j];
    }
  }

  lemma RegularOpen(c: Config, n: NodeId, nd: Node, r: RingId, kept: seq<Message>)
    requires OpenInv(c, n, nd)
    ensures OpenInv(c, n, Regular(nd.(out := kept), c.members(r), r, c.loaded(r, n)))
  {
    hide OpenInv, Abort, Start;
    var n1 := nd.(out := kept, inProcess := true);
    SameOpen(c, n, nd, n1);
    AbortOpen(c, n, n1);
    StartOpen(c, n, if nd.inProcess then Abort(n1) else n1, r);
  }

  lemma TransitionalOpen(c: Config, n: NodeId, nd: Node, members: seq<NodeId>)
    requires OpenInv(c, n, nd)
    ensures OpenInv(c, n, Transitional(nd, members))
  {
    hide OpenInv, Abort;
    var n1 := nd.(inProcess := true);
    SameOpen(c, n, nd, n1);
    AbortOpen(c, n, n1);
    var n2 := if nd.inProcess then Abort(n1) else n1;
    SameOpen(c, n, n2, n2.(trans := members));
  }

  lemma WorkOpen(c: Config, n: NodeId, nd: Node, sent: seq<Message>, done: bool)
    requires OpenInv(c, n, nd)
    ensures OpenInv(c, n, Work(nd, sent, done))
  {
    hide InitsFirst;
    var nd' := Work(nd, sent, done);
    if nd.idx < |nd.services| && !nd.services[nd.idx].activated {
      var s := nd.services[nd.idx];
      CallKeeps(c, n, nd, nd', s, Processed(s.id));
    }
    SameServices(c, n, nd, nd');
  }

  lemma BarrierOpen(c: Config, n: NodeId, nd: Node, from: NodeId, ring: RingId)
    requires OpenInv(c, n, nd)
    ensures OpenInv(c, n, BarrierHandler(nd, from, ring))
  {
    hide InitsFirst, MarkReceived, ClearReceived;
    var nd' := BarrierHandler(nd, from, ring);
    if nd'.calls != nd.calls {
      var s := nd.services[nd.idx];
      CallKeeps(c, n, nd, nd', s, Activated(s.id));
    }
    SameServices(c, n, nd, nd');
  }

  lemma DeliverOpen(c: Config, n: NodeId, l: Local, log: Log, from: NodeId, m: Message)
    requires OpenInv(c, n, l.node) && (m.App? || m.ring != NO_RING)
    requires LocalInv(c, n, l.(node := DeliverMessage(l.node, from, m), pos := l.pos + 1), log)
    ensures OpenInv(c, n, DeliverMessage(l.node, from, m))
  {
    hide InitsFirst, BarrierHandler, BuildHandler, ActiveInv;
    var nd := l.node;
    var nd' := DeliverMessage(nd, from, m);
    if m.BarrierReached? {
      BarrierOpen(c, n, nd, from, m.ring);
    } else if m.ServiceBuild? {
      BuildCalls(nd, from, m.ring, m.services);
      if nd'.ring != NO_RING {
        ActiveRing(c, l.cur, n, nd', log, l.pos + 1, l.transit);
        ActiveOwn(c, l.cur, n, nd', log, l.pos + 1, l.transit);
      }
    }
  }

  lemma ActiveRing(c: Config, r: RingId, n: NodeId, nd: Node, log: Log, pos: nat, transit: bool)
    requires ActiveInv(c, r, n, nd, log, pos, transit)
    ensures nd.ring == r
  {
  }

  /** An exchange of service lists calls no service; a node in no ring ignores it. */
  lemma BuildCalls(nd: Node, from: NodeId, ring: RingId, ids: seq<ServiceId>)
    ensures var nd' := BuildHandler(nd, from, ring, ids);
            && nd'.calls == nd.calls && nd'.ring == nd.ring
            && (nd.ring != ring ==> nd' == nd)
  {
    hide AddUnknown, SortServices, MarkReceived, ClearReceived;
  }

  lemma StepOpen(c: Config, s: System, step: Step)
    requires ConfigOk(c) && Inv(c, s) && Enabled(c, s, step)
    requires OpenInv(c, step.n, At(s, step.n).node)
    ensures OpenInv(c, step.n, At(Apply(c, s, step), step.n).node)
  {
    hide OpenInv, Inv, LocalInv, DeliverMessage, Regular, Transitional, Work;
    var n := step.n;
    var l := At(s, n);
    match step {
      case RegularConf(_, r, kept) => RegularOpen(c, n, l.node, r, kept);
      case TransitionalConf(_, members) => TransitionalOpen(c, n, l.node, members);
      case Originate(_) => SameOpen(c, n, l.node, l.node.(out := l.node.out[1..]));
      case Deliver(_) =>
        var (from, m) := LogIn(s, l.cur)[l.pos];
        DeliverLocal(c, s, n);
        TagOk(c, s, l.cur, l.pos);
        DeliverOpen(c, n, l, LogIn(s, l.cur), from, m);
      case Skip(_) =>
      case DoWork(_, sent, done) => WorkOpen(c, n, l.node, Bodies(sent), done);
      case Send(_, body) => SameOpen(c, n, l.node, l.node.(out := l.node.out + [App(body)]));
      case Exchange(_, out, _) => SameOpen(c, n, l.node, l.node.(out := out));
      case Restart(_) => InitialOpen(c, n);
    }
  }

  lemma TagOk(c: Config, s: System, r: RingId, pos: nat)
    requires Inv(c, s) && pos < |LogIn(s, r)|
    ensures var m := LogIn(s, r)[pos].1; m.App? || m.ring != NO_RING
  {
    assert TagsOk(LogIn(s, r));
  }

  lemma InitialOpen(c: Config, n: NodeId)
    ensures OpenInv(c, n, INITIAL)
  {
  }

  /** In every run, on every node: each round begins with `sync_init` of every service that
      the node has loaded, in ascending order and of no other, and all other calls of the
      round come after that and go to those services. */
  lemma {:induction false} OpenReachable(c: Config, steps: seq<Step>, n: NodeId)
    requires ConfigOk(c) && Exec(c, steps).Some?
    ensures OpenInv(c, n, At(Exec(c, steps).value, n).node)
  {
    hide OpenInv, Inv, Apply, Enabled;
    if steps == [] {
      InitialOpen(c, n);
    } else {
      var pre, step := steps[..|steps| - 1], steps[|steps| - 1];
      OpenReachable(c, pre, n);
      Reachable(c, pre);
      var s := Exec(c, pre).value;
      if n == step.n {
        StepOpen(c, s, step);
      } else {
        OtherNode(c, s, step, n);
      }
    }
  }

  lemma OtherNode(c: Config, s: System, step: Step, m: NodeId)
    requires Enabled(c, s, step) && m != step.n
    ensures At(Apply(c, s, step), m) == At(s, m)
  {
  }
}
