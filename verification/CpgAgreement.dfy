/** What the members of a ring agree on when its synchronization is done, and what
    clients are told in every run. */
module CpgAgreement {
  import opened Wrappers
  import opened Sync
  import opened SyncProtocol
  import opened SyncInvariant
  import opened Cpg
  import opened CpgLists
  import opened CpgChain
  import opened CpgWorld
  import opened CpgConvergence

  ghost predicate SameProcesses(a: seq<Process>, b: seq<Process>) {
    forall p :: p in a <==> p in b
  }

  /** The node has activated the service in the ring. */
  ghost predicate Done(w: World, r: RingId, n: NodeId) {
    r != NO_RING && (r, n) in w.results
  }

  /** The processes of the node when it activates are those it announced. */
  ghost predicate KeptItsWord(w: World, r: RingId, n: NodeId)
    requires Done(w, r, n)
  {
    SameProcesses(w.results[(r, n)].local, Ann(w.announced, r, n))
  }

  lemma ResultIn(c: Config, steps: seq<WorldStep>, w: World, r: RingId, n: NodeId)
    requires ConfigOk(c) && WorldExec(c, steps) == Some(w) && Done(w, r, n) && r !in w.stale
    ensures ResultOk(c, r, n, w.results[(r, n)], w.announced, (r, n) in w.moved)
    ensures forall m, p :: p in Ann(w.announced, r, m) ==> p.nodeid == m
  {
    WorldReachable(c, steps);
    LogPart(c, w, r);
    hide Inv, NodeCpg, ResultOk, InLog, Count, CpgIndex;
    assert RecordOk(c, w, r, n);
  }

  /** In every run, a node that has activated the service in a ring has exactly its own
      processes and those that the other members announced. All of them did. */
  lemma Outcome(c: Config, steps: seq<WorldStep>, w: World, r: RingId, n: NodeId)
    requires ConfigOk(c) && WorldExec(c, steps) == Some(w) && Done(w, r, n) && r !in w.stale
    ensures n in c.members(r)
    ensures forall m :: m in c.members(r) && CPG_SERVICE in c.loaded(r, m) ==> (r, m) in w.announced
    ensures forall p :: p in w.results[(r, n)].list <==>
              if p.nodeid == n then p in w.results[(r, n)].local
              else p.nodeid in c.members(r) && p in Ann(w.announced, r, p.nodeid)
  {
    ResultIn(c, steps, w, r, n);
  }

  /** Two members end with the same processes exactly when both kept their word, and
      then they report the same members, in the same order, for every group. */
  lemma Agreement(c: Config, steps: seq<WorldStep>, w: World, r: RingId, a: NodeId, b: NodeId)
    requires ConfigOk(c) && WorldExec(c, steps) == Some(w) && r !in w.stale
    requires a != b && Done(w, r, a) && Done(w, r, b)
    ensures SameProcesses(w.results[(r, a)].list, w.results[(r, b)].list) <==>
            KeptItsWord(w, r, a) && KeptItsWord(w, r, b)
    ensures KeptItsWord(w, r, a) && KeptItsWord(w, r, b) ==>
              forall g :: Members(w.results[(r, a)].list, g) == Members(w.results[(r, b)].list, g)
  {
    ResultIn(c, steps, w, r, a);
    ResultIn(c, steps, w, r, b);
    var x, y := w.results[(r, a)], w.results[(r, b)];
    var announced := w.announced;
    ResultsAgree(c, r, a, b, x, y, announced, (r, a) in w.moved, (r, b) in w.moved);
    if SameProcesses(x.list, y.list) {
      forall g
        ensures Members(x.list, g) == Members(y.list, g)
      {
        SameProcessesSameMembers(x.list, y.list, g);
      }
    }
  }

  lemma ResultsAgree(c: Config, r: RingId, a: NodeId, b: NodeId, x: Result, y: Result, announced: Announced,
                     movedA: bool, movedB: bool)
    requires a != b && ResultOk(c, r, a, x, announced, movedA) && ResultOk(c, r, b, y, announced, movedB)
    requires forall m, p :: p in Ann(announced, r, m) ==> p.nodeid == m
    ensures SameProcesses(x.list, y.list) <==>
            SameProcesses(x.local, Ann(announced, r, a)) && SameProcesses(y.local, Ann(announced, r, b))
  {
    hide Ann;
    if SameProcesses(x.list, y.list) {
      forall p
        ensures p in x.local <==> p in Ann(announced, r, a)
        ensures p in y.local <==> p in Ann(announced, r, b)
      {
        assert p in x.list <==> p in y.list;
      }
    }
  }

  /** A round in which no process of any member comes or goes between announcing and
      activating ends with the same processes everywhere: all that were announced. */
  lemma Convergence(c: Config, steps: seq<WorldStep>, w: World, r: RingId, n: NodeId)
    requires ConfigOk(c) && WorldExec(c, steps) == Some(w) && r !in w.stale
    requires Done(w, r, n) && (r, n) !in w.moved
    ensures KeptItsWord(w, r, n)
    ensures forall p :: p in w.results[(r, n)].list <==>
              p.nodeid in c.members(r) && p in Ann(w.announced, r, p.nodeid)
  {
    ResultIn(c, steps, w, r, n);
  }

  // ---- what clients are told, in every run ----

  /** Not too many processes in a group. */
  ghost predicate Manageable(who: set<Process>) {
    forall g :: |InGroup(who, g)| <= 128
  }

  function InGroup(who: set<Process>, g: Group): set<Process> {
    set p | p in who && p.group == g
  }

  /** A name that a message carries: of a process of `who`, with a zero behind it. */
  ghost predicate NameOk(who: set<Process>, from: NodeId, pid: int, g: Group, behind: seq<int>) {
    Process(from, pid, g) in who && Clean(g, behind)
  }

  ghost predicate BodyOk(who: set<Process>, from: NodeId, m: CpgMessage) {
    match m
    case ProcJoin(pid, g, behind) => NameOk(who, from, pid, g, behind)
    case ProcLeave(_, _, _) => true
    case Downlist(_) => true
    case Joinlist(entries) => EntriesOk(who, from, entries)
  }

  ghost predicate EntriesOk(who: set<Process>, from: NodeId, entries: seq<JoinEntry>) {
    forall i :: 0 <= i < |entries| ==> NameOk(who, from, entries[i].pid, entries[i].group, entries[i].behind)
  }

  ghost predicate QueueOk(who: set<Process>, n: NodeId, out: seq<Message>) {
    forall i :: 0 <= i < |out| && out[i].App? ==> BodyOk(who, n, out[i].body)
  }

  ghost predicate LogOk(who: set<Process>, log: Log) {
    forall i :: 0 <= i < |log| && log[i].1.App? ==> BodyOk(who, log[i].0, log[i].1.body)
  }

  /** The processes of a list with what stands behind their names. */
  ghost predicate NamesOk(who: set<Process>, ps: seq<Process>, b: Behind) {
    forall p :: p in ps ==> p in who && Clean(p.group, BehindOf(b, p))
  }

  /** Clients know the membership, every change was reported as what it was, the state
      has names as the clients gave them, and the arrays were long enough if there are
      not too many processes. */
  ghost predicate Told(who: set<Process>, n: NodeId, s: CpgState) {
    && s.me == n
    && ChainInv(s)
    && (Manageable(who) ==> !s.overrun)
    && NamesOk(who, s.list, s.behind)
    && NamesOk(who, s.stored, s.storedBehind)
  }

  ghost predicate NodeTold(who: set<Process>, w: World, n: NodeId) {
    && Told(who, n, CpgAt(w, n))
    && QueueOk(who, n, At(w.sys, n).node.out)
    && QueueOk(who, n, At(w.sys, n).held)
  }

  ghost predicate ToldInv(who: set<Process>, w: World) {
    && (forall n :: NodeTold(who, w, n))
    && (forall r :: LogOk(who, LogIn(w.sys, r)))
  }

  // ---- no array is too short ----

  ghost predicate NoDuplicates(ps: seq<Process>) {
    forall i, j :: 0 <= i < j < |ps| ==> ps[i] != ps[j]
  }

  function WithKey(ps: seq<Process>, b: Behind, key: seq<int>): set<Process> {
    set p | p in ps && Key(b, p) == key
  }

  lemma {:induction false} ShareIsSet(ps: seq<Process>, b: Behind, key: seq<int>)
    requires NoDuplicates(ps)
    ensures Share(ps, b, key) == |WithKey(ps, b, key)|
  {
    hide Key;
    if ps != [] {
      var k := |ps| - 1;
      ShareIsSet(ps[..k], b, key);
      assert ps == ps[..k] + [ps[k]];
      assert ps[k] !in ps[..k];
      if Key(b, ps[k]) == key {
        assert WithKey(ps, b, key) == WithKey(ps[..k], b, key) + {ps[k]};
      } else {
        assert WithKey(ps, b, key) == WithKey(ps[..k], b, key);
      }
    }
  }

  lemma {:induction false} Subset(a: set<Process>, b: set<Process>)
    requires a <= b
    ensures |a| <= |b|
    decreases a
  {
    if a != {} {
      var x :| x in a;
      Subset(a - {x}, b - {x});
    }
  }

  /** As many as the group has are not too many. */
  lemma WhoFits(who: set<Process>, ps: seq<Process>, b: Behind)
    requires Manageable(who) && NoDuplicates(ps)
    requires forall p :: p in ps ==> p in who && Key(b, p) == p.group
    ensures Fits(ps, b)
  {
    hide Key;
    forall p | p in ps
      ensures Share(ps, b, Key(b, p)) <= CPG_MEMBERS_MAX
    {
      ShareIsSet(ps, b, p.group);
      Subset(WithKey(ps, b, p.group), InGroup(who, p.group));
    }
  }

  lemma {:induction false} OfNodesDistinct(list: seq<Process>, nodes: seq<NodeId>)
    requires NoDuplicates(list)
    ensures NoDuplicates(OfNodes(list, nodes))
  {
    if list != [] {
      var k := |list| - 1;
      OfNodesDistinct(list[..k], nodes);
      assert list[k] !in list[..k];
    }
  }

  lemma {:induction false} JoinsDistinct(list: seq<Process>, stored: seq<Process>, me: NodeId)
    requires ListOk(list)
    ensures NoDuplicates(NewJoins(list, stored, me).1)
  {
    if stored != [] {
      var k := |stored| - 1;
      JoinsDistinct(list, stored[..k], me);
      NewJoinsElements(list, stored[..k], me);
    }
  }

  // ---- what the operations keep ----

  lemma HandleTold(who: set<Process>, n: NodeId, s: CpgState, from: NodeId, m: CpgMessage)
    requires Told(who, n, s) && BodyOk(who, from, m)
    ensures Told(who, n, HandleMessage(s, from, m))
  {
    hide ChainInv, Clean;
    match m
    case ProcJoin(pid, g, behind) =>
      JoinChain(s, Process(from, pid, g), behind);
      InsertElements(s.list, Process(from, pid, g));
    case ProcLeave(pid, g, reason) =>
      LeaveChain(s, Process(from, pid, g), reason);
    case Downlist(_) =>
    case Joinlist(entries) =>
      StoreNames(who, s.stored, s.storedBehind, from, entries);
      StoredChain(s, HandleMessage(s, from, m));
  }

  /** The stored joinlists have no part in what was told. */
  lemma StoredChain(s: CpgState, s': CpgState)
    requires ChainInv(s) && s'.list == s.list && s'.notices == s.notices && s'.overrun == s.overrun
    ensures ChainInv(s')
  {
  }

  lemma {:induction false} StoreNames(who: set<Process>, stored: seq<Process>, b: Behind, from: NodeId,
                                      entries: seq<JoinEntry>)
    requires NamesOk(who, stored, b) && EntriesOk(who, from, entries)
    ensures NamesOk(who, Store(stored, from, entries), StoreBehind(b, from, entries))
    decreases |entries|
  {
    hide Clean;
    if entries != [] {
      StoreNames(who, stored, b, from, entries[..|entries| - 1]);
    }
  }

  lemma {:induction false} JoinNames(b: Behind, stored: Behind, joins: seq<Process>, p: Process)
    ensures BehindOf(JoinBehind(b, stored, joins), p) == if p in joins then BehindOf(stored, p) else BehindOf(b, p)
  {
    if joins != [] {
      var k := |joins| - 1;
      assert joins == joins[..k] + [joins[k]];
      JoinNames(b, stored, joins[..k], p);
    }
  }

  lemma ActivateTold(who: set<Process>, n: NodeId, s: CpgState)
    requires Told(who, n, s)
    ensures Told(who, n, SyncActivate(s))
  {
    assert ListOk(s.list);
    hide ChainInv, SyncActivate, Manageable, NamesOk;
    ActivateNames(who, s);
    DownlistFits(who, s);
    JoinlistFits(who, s);
    ActivateChain(s);
  }

  lemma DownlistFits(who: set<Process>, s: CpgState)
    requires ListOk(s.list) && NamesOk(who, s.list, s.behind)
    ensures Faithful(OfNodes(s.list, s.downlist), map[])
    ensures Manageable(who) ==> Fits(OfNodes(s.list, s.downlist), map[])
  {
    hide Manageable, Fits;
    var gone := OfNodes(s.list, s.downlist);
    forall p | p in gone
      ensures Key(map[], p) == p.group
    {
      CleanKey(p.group, []);
    }
    NoZeroFaithful(gone);
    OfNodesDistinct(s.list, s.downlist);
    if Manageable(who) {
      WhoFits(who, gone, map[]);
    }
  }

  lemma JoinlistFits(who: set<Process>, s: CpgState)
    requires ListOk(s.list) && NamesOk(who, s.stored, s.storedBehind)
    ensures var s1 := DownlistInform(s.(oldMembers := s.members));
            var joins := NewJoins(s1.list, s1.stored, s1.me).1;
            Sound(joins, s1.storedBehind) && (Manageable(who) ==> Fits(joins, s1.storedBehind))
  {
    hide Manageable, Sound, Fits, NewJoins;
    var s1 := DownlistInform(s.(oldMembers := s.members));
    var joins := NewJoins(s1.list, s1.stored, s1.me).1;
    NotOfNodesOk(s.list, s.downlist);
    NewJoinsElements(s1.list, s1.stored, s1.me);
    forall p | p in joins
      ensures Key(s1.storedBehind, p) == p.group
    {
      CleanKey(p.group, BehindOf(s1.storedBehind, p));
    }
    CleanSound(joins, s1.storedBehind);
    JoinsDistinct(s1.list, s1.stored, s1.me);
    if Manageable(who) {
      WhoFits(who, joins, s1.storedBehind);
    }
  }

  lemma ActivateNames(who: set<Process>, s: CpgState)
    requires ListOk(s.list) && NamesOk(who, s.list, s.behind) && NamesOk(who, s.stored, s.storedBehind)
    ensures var r := SyncActivate(s);
            NamesOk(who, r.list, r.behind) && NamesOk(who, r.stored, r.storedBehind) && r.me == s.me
  {
    hide Clean, NewJoins, JoinBehind, BehindOf;
    var s1 := DownlistInform(s.(oldMembers := s.members));
    NotOfNodesOk(s.list, s.downlist);
    NewJoinsElements(s1.list, s1.stored, s1.me);
    var joins := NewJoins(s1.list, s1.stored, s1.me).1;
    var s2 := JoinStored(s1);
    RemoveZombiesList(s2, s2.list);
    forall p | p in SyncActivate(s).list
      ensures p in who && Clean(p.group, BehindOf(s2.behind, p))
    {
      JoinNames(s1.behind, s1.storedBehind, joins, p);
    }
  }

  lemma ReactTold(who: set<Process>, n: NodeId, s: CpgState, call: Callback, nd: Node)
    requires Told(who, n, s)
    ensures Told(who, n, React(s, call, nd))
  {
    hide SyncActivate, Manageable;
    if call == Activated(CPG_SERVICE) {
      ActivateTold(who, n, s);
    } else {
      StoredChain(s, React(s, call, nd));
    }
  }

  lemma {:induction false} ReactAllTold(who: set<Process>, n: NodeId, s: CpgState, calls: seq<Callback>, nd: Node)
    requires Told(who, n, s)
    ensures Told(who, n, ReactAll(s, calls, nd))
  {
    hide Told, React, Manageable;
    if calls != [] {
      ReactAllTold(who, n, s, calls[..|calls| - 1], nd);
      ReactTold(who, n, ReactAll(s, calls[..|calls| - 1], nd), calls[|calls| - 1], nd);
    }
  }

  lemma {:induction false} OwnEntriesOk(who: set<Process>, list: seq<Process>, b: Behind, me: NodeId)
    requires NamesOk(who, list, b)
    ensures EntriesOk(who, me, OwnEntries(list, b, me))
  {
    hide Clean;
    if list != [] {
      var k := |list| - 1;
      OwnEntriesOk(who, list[..k], b, me);
      assert list[k] in list;
    }
  }

  lemma ProcessTold(who: set<Process>, n: NodeId, s: CpgState, downOk: bool, joinOk: bool)
    requires Told(who, n, s)
    ensures Told(who, n, SyncProcess(s, downOk, joinOk).0)
    ensures QueueOk(who, n, Bodies(SyncProcess(s, downOk, joinOk).1))
  {
    hide NamesOk, EntriesOk, OwnEntries;
    OwnEntriesOk(who, s.list, s.behind, s.me);
    assert BodyOk(who, n, Joinlist(OwnEntries(s.list, s.behind, s.me)));
    StoredChain(s, s.(syncState := JOINLIST));
  }

  /** What a client of the node does: the processes that join are of `who`, their names
      have no zero byte and a zero behind them. */
  ghost predicate SendOk(who: set<Process>, ws: WorldStep) {
    ws.step.Send? ==> BodyOk(who, ws.step.n, ws.step.body)
  }

  lemma CpgAfterTold(c: Config, who: set<Process>, w: World, ws: WorldStep)
    requires ToldInv(who, w) && WorldEnabled(c, w, ws)
    ensures Told(who, ws.step.n, CpgAfter(c, w, ws))
  {
    hide Told, HandleMessage, ReactAll, SyncProcess, BodyOk, Apply, NewCalls, QueueOk, Manageable;
    var n := ws.step.n;
    var s := CpgAt(w, n);
    var l := At(w.sys, n);
    var nd := At(Apply(c, w.sys, ws.step), n).node;
    assert NodeTold(who, w, n);
    ReactAllTold(who, n, s, NewCalls(l.node, nd), nd);
    ProcessTold(who, n, s, ws.downOk, ws.joinOk);
    FirstTold(who, n);
    if ws.step.Deliver? {
      assert LogOk(who, LogIn(w.sys, l.cur));
      var (from, m) := LogIn(w.sys, l.cur)[l.pos];
      if m.App? {
        HandleTold(who, n, s, from, m.body);
      }
    }
  }

  /** No other name gets into a queue or a log. */
  lemma StepNames(c: Config, who: set<Process>, w: World, ws: WorldStep, w': World)
    requires ToldInv(who, w) && WorldEnabled(c, w, ws) && SendOk(who, ws)
    requires w'.sys == Apply(c, w.sys, ws.step)
    ensures QueueOk(who, ws.step.n, At(w'.sys, ws.step.n).node.out)
    ensures QueueOk(who, ws.step.n, At(w'.sys, ws.step.n).held)
    ensures forall r :: LogOk(who, LogIn(w'.sys, r))
  {
    hide Told, BodyOk, CpgAt, SyncProcess;
    var n := ws.step.n;
    var l := At(w.sys, n);
    assert NodeTold(who, w, n);
    assert LogOk(who, LogIn(w.sys, l.cur));
    if ws.step.DoWork? {
      WorkNames(c, who, w, ws);
    } else if ws.step.Deliver? {
      var (from, m) := LogIn(w.sys, l.cur)[l.pos];
      SameOut(l.node, from, m);
    }
    forall r
      ensures LogOk(who, LogIn(w'.sys, r))
    {
      assert LogOk(who, LogIn(w.sys, r));
    }
  }

  lemma WorkNames(c: Config, who: set<Process>, w: World, ws: WorldStep)
    requires ToldInv(who, w) && WorldEnabled(c, w, ws) && ws.step.DoWork?
    ensures QueueOk(who, ws.step.n, Work(At(w.sys, ws.step.n).node, Bodies(ws.step.sent), ws.step.done).out)
  {
    hide Told, BodyOk, SyncProcess;
    var n := ws.step.n;
    assert NodeTold(who, w, n);
    ProcessTold(who, n, CpgAt(w, n), ws.downOk, ws.joinOk);
    assert QueueOk(who, n, Bodies(ws.step.sent));
  }

  lemma ToldStep(c: Config, who: set<Process>, w: World, ws: WorldStep)
    requires ToldInv(who, w) && WorldEnabled(c, w, ws) && SendOk(who, ws)
    ensures ToldInv(who, WorldApply(c, w, ws))
  {
    hide Manageable;
    CpgApplied(c, w, ws);
    SystemApplied(c, w, ws);
    CpgAfterTold(c, who, w, ws);
    var w' := WorldApply(c, w, ws);
    StepNames(c, who, w, ws, w');
    hide Told, QueueOk, LogOk, WorldApply, Apply, CpgAfter, CpgAt, At, WorldEnabled;
    forall m
      ensures NodeTold(who, w', m)
    {
      assert NodeTold(who, w, m);
      if m != ws.step.n {
        StepOther(c, w, ws, m);
      }
    }
  }

  lemma CpgApplied(c: Config, w: World, ws: WorldStep)
    requires WorldEnabled(c, w, ws)
    ensures CpgAt(WorldApply(c, w, ws), ws.step.n) == CpgAfter(c, w, ws)
  {
    hide Apply, At, CpgAfter, AtCpg, OwnProcesses;
  }

  /** In every run in which clients use names without zero bytes and with a zero behind
      them: until an array is written past its end, every node's clients know the
      current membership of every group, and each change they were told is the previous
      membership minus those who left plus those who joined. No array is if at most
      CPG_MEMBERS_MAX of the processes that join have the same group. */
  lemma {:induction false} ClientsAreTold(c: Config, who: set<Process>, steps: seq<WorldStep>)
    requires WorldExec(c, steps).Some?
    requires forall i :: 0 <= i < |steps| ==> SendOk(who, steps[i])
    ensures forall n :: var s := CpgAt(WorldExec(c, steps).value, n);
              && (!s.overrun ==> ChainInv(s))
              && (Manageable(who) ==> !s.overrun)
    ensures ToldInv(who, WorldExec(c, steps).value)
  {
    hide ChainInv, SendOk, WorldApply, WorldEnabled, Manageable;
    if steps == [] {
      forall n
        ensures NodeTold(who, FIRST, n)
      {
        FirstTold(who, n);
      }
    } else {
      var k := |steps| - 1;
      ClientsAreTold(c, who, steps[..k]);
      ToldStep(c, who, WorldExec(c, steps[..k]).value, steps[k]);
    }
    forall n
      ensures Told(who, n, CpgAt(WorldExec(c, steps).value, n))
    {
      assert NodeTold(who, WorldExec(c, steps).value, n);
    }
  }

  lemma FirstTold(who: set<Process>, n: NodeId)
    ensures Told(who, n, InitialState(n))
  {
  }
}
