/** Closed process groups (exec/cpg.c): the replicated process list of one node, how
    join and leave messages and synchronization change it, and the configuration
    changes its clients are told, as functions on values. */
module Cpg {
  import opened Sync

  type Group = seq<int>

  /** A process of a group as clients see it. */
  datatype Member = Member(nodeid: NodeId, pid: int)

  /** `res_lib_cpg_confchg_callback`. */
  datatype Confchg = Confchg(group: Group, members: seq<Member>, left: seq<Member>, joined: seq<Member>, reason: int)

  const REASON_JOIN := 1
  const REASON_NODEDOWN := 3
  const REASON_NODEUP := 4
  const REASON_PROCDOWN := 5

  function MemberOf(p: Process): Member {
    Member(p.nodeid, p.pid)
  }

  // ---- the sorted list ----

  /** The order the list is kept in. */
  predicate Greater(a: Process, b: Process) {
    a.nodeid > b.nodeid || (a.nodeid == b.nodeid && a.pid > b.pid)
  }

  /** Where `do_proc_join` inserts: before the first greater entry. */
  function InsertPos(list: seq<Process>, p: Process): (k: nat)
    ensures k <= |list|
    ensures forall i :: 0 <= i < k ==> !Greater(list[i], p)
    ensures k < |list| ==> Greater(list[k], p)
  {
    if list == [] || Greater(list[0], p) then 0 else 1 + InsertPos(list[1..], p)
  }

  function Insert(list: seq<Process>, p: Process): seq<Process> {
    var k := InsertPos(list, p);
    list[..k] + [p] + list[k..]
  }

  /** Remove every entry of a process. */
  function Remove(list: seq<Process>, p: Process): (r: seq<Process>)
    ensures forall x :: x in r <==> x in list && x != p
  {
    if list == [] then []
    else
      var k := |list| - 1;
      assert list == list[..k] + [list[k]];
      Remove(list[..k], p) + if list[k] == p then [] else [list[k]]
  }

  // ---- notifications ----

  /** `notify_lib_joinlist_fill_member_list`: the group's processes that are not in
      the left list, in list order. */
  function FillMembers(list: seq<Process>, g: Group, left: seq<Member>): seq<Member> {
    if list == [] then []
    else
      var p := list[|list| - 1];
      FillMembers(list[..|list| - 1], g, left) +
      if p.group == g && MemberOf(p) !in left then [MemberOf(p)] else []
  }

  function Members(list: seq<Process>, g: Group): seq<Member> {
    FillMembers(list, g, [])
  }

  /** `notify_lib_joinlist`. */
  function Notify(list: seq<Process>, g: Group, joined: seq<Member>, left: seq<Member>, reason: int): Confchg {
    Confchg(g, FillMembers(list, g, left), left, joined, reason)
  }

  /** Notifications that are collected first and sent at the end, one per key. */
  datatype Batch = Batch(key: seq<int>, group: Group, entries: seq<Member>)

  /** The length of a batch's array. */
  const CPG_MEMBERS_MAX := 128

  /** A buffer as a C string: up to the first zero. */
  function CString(bytes: seq<int>): seq<int> {
    if bytes == [] || bytes[0] == 0 then [] else [bytes[0]] + CString(bytes[1..])
  }

  /** What stands behind the names of some processes in their buffers. */
  type Behind = map<Process, seq<int>>

  function BehindOf(b: Behind, p: Process): seq<int> {
    if p in b then b[p] else []
  }

  /** Batches are looked up by the buffer as a C string. */
  function Key(b: Behind, p: Process): seq<int> {
    CString(p.group + BehindOf(b, p))
  }

  function FindBatch(bs: seq<Batch>, key: seq<int>): (k: nat)
    ensures k <= |bs|
    ensures k < |bs| ==> bs[k].key == key
    ensures forall i :: 0 <= i < k ==> bs[i].key != key
  {
    if bs == [] || bs[0].key == key then 0 else 1 + FindBatch(bs[1..], key)
  }

  function AddToBatch(bs: seq<Batch>, key: seq<int>, p: Process): seq<Batch> {
    var k := FindBatch(bs, key);
    if k < |bs| then bs[k := bs[k].(entries := bs[k].entries + [MemberOf(p)])]
    else bs + [Batch(key, p.group, [MemberOf(p)])]
  }

  function BatchOf(ps: seq<Process>, b: Behind): seq<Batch> {
    if ps == [] then []
    else
      var p := ps[|ps| - 1];
      AddToBatch(BatchOf(ps[..|ps| - 1], b), Key(b, p), p)
  }

  /** Some batch has more entries than its array. */
  predicate Overfull(bs: seq<Batch>) {
    exists i :: 0 <= i < |bs| && |bs[i].entries| > CPG_MEMBERS_MAX
  }

  function LeftNotices(list: seq<Process>, bs: seq<Batch>): (r: seq<Confchg>)
    ensures |r| == |bs|
    ensures forall i :: 0 <= i < |r| ==> r[i] == Notify(list, bs[i].group, [], bs[i].entries, REASON_NODEDOWN)
  {
    seq(|bs|, i requires 0 <= i < |bs| => Notify(list, bs[i].group, [], bs[i].entries, REASON_NODEDOWN))
  }

  function JoinNotices(list: seq<Process>, bs: seq<Batch>): (r: seq<Confchg>)
    ensures |r| == |bs|
    ensures forall i :: 0 <= i < |r| ==> r[i] == Notify(list, bs[i].group, bs[i].entries, [], REASON_NODEUP)
  {
    seq(|bs|, i requires 0 <= i < |bs| => Notify(list, bs[i].group, bs[i].entries, [], REASON_NODEUP))
  }

  // ---- the state ----

  datatype SyncState = DOWNLIST | JOINLIST

  /** The static variables of exec/cpg.c, the notifications sent so far, and whether
      the array of a batch has been written past its end. `behind` belongs to the
      names in the process list, `storedBehind` to those in the stored joinlists: of
      the first entry of a process, should it be stored twice. */
  datatype CpgState = CpgState(
    me: NodeId,
    list: seq<Process>,
    behind: Behind,
    stored: seq<Process>,
    storedBehind: Behind,
    members: seq<NodeId>,
    oldMembers: seq<NodeId>,
    downlist: seq<NodeId>,
    syncState: SyncState,
    notices: seq<Confchg>,
    overrun: bool)

  function InitialState(me: NodeId): CpgState {
    CpgState(me, [], map[], [], map[], [], [], [], DOWNLIST, [], false)
  }

  // ---- join and leave messages ----

  /** `do_proc_join` with immediate notification. */
  function ProcJoined(s: CpgState, p: Process, behind: seq<int>): CpgState {
    if p in s.list then s
    else
      var list := Insert(s.list, p);
      s.(list := list, behind := s.behind[p := behind],
         notices := s.notices + [Notify(list, p.group, [MemberOf(p)], [], REASON_JOIN)])
  }

  /** `do_proc_leave`: notify, then remove. */
  function ProcLeft(s: CpgState, p: Process, reason: int): CpgState {
    s.(list := Remove(s.list, p),
       notices := s.notices + [Notify(s.list, p.group, [], [MemberOf(p)], reason)])
  }

  function ToProcess(sender: NodeId, e: JoinEntry): Process {
    Process(sender, e.pid, e.group)
  }

  /** `message_handler_req_exec_cpg_joinlist`: entries are put at the head one by one. */
  function Store(stored: seq<Process>, sender: NodeId, entries: seq<JoinEntry>): (r: seq<Process>)
    ensures |r| == |stored| + |entries|
  {
    if entries == [] then stored
    else [ToProcess(sender, entries[|entries| - 1])] + Store(stored, sender, entries[..|entries| - 1])
  }

  /** What stands behind the names of the stored entries: the newest entry is first. */
  function StoreBehind(b: Behind, sender: NodeId, entries: seq<JoinEntry>): Behind {
    if entries == [] then b
    else
      var e := entries[|entries| - 1];
      StoreBehind(b, sender, entries[..|entries| - 1])[ToProcess(sender, e) := e.behind]
  }

  /** A delivered message. */
  function HandleMessage(s: CpgState, sender: NodeId, m: CpgMessage): CpgState {
    match m
    case ProcJoin(pid, group, behind) => ProcJoined(s, Process(sender, pid, group), behind)
    case ProcLeave(pid, group, reason) => ProcLeft(s, Process(sender, pid, group), reason)
    case Downlist(_) => s
    case Joinlist(entries) =>
      s.(stored := Store(s.stored, sender, entries), storedBehind := StoreBehind(s.storedBehind, sender, entries))
  }

  // ---- synchronization ----

  function NotIn(xs: seq<NodeId>, ys: seq<NodeId>): (r: seq<NodeId>)
    ensures forall x :: x in r <==> x in xs && x !in ys
  {
    if xs == [] then []
    else
      var k := |xs| - 1;
      assert xs == xs[..k] + [xs[k]];
      NotIn(xs[..k], ys) + if xs[k] in ys then [] else [xs[k]]
  }

  /** `cpg_sync_init`. */
  function SyncInit(s: CpgState, trans: seq<NodeId>, members: seq<NodeId>): CpgState {
    s.(syncState := DOWNLIST, members := members, downlist := NotIn(s.oldMembers, trans))
  }

  /** The entries of this node's own processes, as a joinlist message carries them. */
  function OwnEntries(list: seq<Process>, b: Behind, me: NodeId): seq<JoinEntry> {
    if list == [] then []
    else
      var p := list[|list| - 1];
      OwnEntries(list[..|list| - 1], b, me) +
      if p.nodeid == me then [JoinEntry(p.pid, p.group, BehindOf(b, p))] else []
  }

  /** `cpg_sync_process` when the multicasts of downlist and joinlist succeed or fail:
      new state, messages sent, and whether it is done. */
  function SyncProcess(s: CpgState, downOk: bool, joinOk: bool): (CpgState, seq<CpgMessage>, bool) {
    if s.syncState == DOWNLIST && !downOk then (s, [], false)
    else
      var down := if s.syncState == DOWNLIST then [Downlist(s.downlist)] else [];
      var s1 := s.(syncState := JOINLIST);
      var entries := OwnEntries(s.list, s.behind, s.me);
      if entries == [] then (s1, down, true)
      else if joinOk then (s1, down + [Joinlist(entries)], true)
      else (s1, down, false)
  }

  /** Entries of nodes that left, and the others. */
  function OfNodes(list: seq<Process>, nodes: seq<NodeId>): (r: seq<Process>)
    ensures forall x :: x in r <==> x in list && x.nodeid in nodes
  {
    if list == [] then []
    else
      var k := |list| - 1;
      assert list == list[..k] + [list[k]];
      OfNodes(list[..k], nodes) + if list[k].nodeid in nodes then [list[k]] else []
  }

  function NotOfNodes(list: seq<Process>, nodes: seq<NodeId>): (r: seq<Process>)
    ensures forall x :: x in r <==> x in list && x.nodeid !in nodes
  {
    if list == [] then []
    else
      var k := |list| - 1;
      assert list == list[..k] + [list[k]];
      NotOfNodes(list[..k], nodes) + if list[k].nodeid in nodes then [] else [list[k]]
  }

  /** `downlist_inform_clients`: the copy of a name is terminated right behind it. */
  function DownlistInform(s: CpgState): CpgState {
    var bs := BatchOf(OfNodes(s.list, s.downlist), map[]);
    var list := NotOfNodes(s.list, s.downlist);
    s.(list := list, notices := s.notices + LeftNotices(list, bs), overrun := s.overrun || Overfull(bs))
  }

  /** The stored joins that are new, in the order in which they are inserted. */
  function NewJoins(list: seq<Process>, stored: seq<Process>, me: NodeId): (seq<Process>, seq<Process>) {
    if stored == [] then (list, [])
    else
      var k := |stored| - 1;
      var (l, joins) := NewJoins(list, stored[..k], me);
      var p := stored[k];
      if p.nodeid == me || p in l then (l, joins) else (Insert(l, p), joins + [p])
  }

  /** A remote process that no joinlist mentions. */
  predicate Zombie(s: CpgState, p: Process) {
    p.nodeid != s.me && p !in s.stored
  }

  /** `joinlist_remove_zombie_pi_entries`, for the first entries of the list as it was. */
  function RemoveZombies(s: CpgState, list0: seq<Process>): CpgState {
    if list0 == [] then s
    else
      var k := |list0| - 1;
      var s1 := RemoveZombies(s, list0[..k]);
      if Zombie(s, list0[k]) then ProcLeft(s1, list0[k], REASON_PROCDOWN) else s1
  }

  /** The processes that join bring their buffers along. */
  function JoinBehind(b: Behind, stored: Behind, joins: seq<Process>): Behind {
    if joins == [] then b
    else
      var p := joins[|joins| - 1];
      JoinBehind(b, stored, joins[..|joins| - 1])[p := BehindOf(stored, p)]
  }

  /** The joins of `joinlist_inform_clients` and their notifications: the buffer of a
      name is used as it is. */
  function JoinStored(s: CpgState): CpgState {
    var (list, joins) := NewJoins(s.list, s.stored, s.me);
    var bs := BatchOf(joins, s.storedBehind);
    s.(list := list, behind := JoinBehind(s.behind, s.storedBehind, joins),
       notices := s.notices + JoinNotices(list, bs), overrun := s.overrun || Overfull(bs))
  }

  /** `joinlist_inform_clients`. */
  function JoinlistInform(s: CpgState): CpgState {
    var s1 := JoinStored(s);
    RemoveZombies(s1, s1.list)
  }

  /** `cpg_sync_activate`. */
  function SyncActivate(s: CpgState): CpgState {
    var s1 := DownlistInform(s.(oldMembers := s.members));
    JoinlistInform(s1).(stored := [], storedBehind := map[])
  }

  /** `cpg_sync_abort`. */
  function SyncAbort(s: CpgState): CpgState {
    s.(stored := [], storedBehind := map[])
  }
}
