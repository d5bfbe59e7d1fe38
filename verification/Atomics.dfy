/**
 * The wait/notify protocol of section 25.4 of ECMA-262 as a transition system.
 *
 * Every statement of `doWait`, of the worker thread of an asynchronous wait and
 * of `Atomics.notify` that touches shared memory is one step of one thread.  The
 * scheduler picks the thread, a spurious wakeup or a timeout, and any agent may
 * store to any cell at any time without taking a lock.
 */
module Atomics {
  import opened Common

  type ThreadId = nat
  type WaiterId = nat

  /** A VM instance; each has its own table of asynchronous waits with its own mutex. */
  type VmId = int

  /** A byte position inside the shared block that starts at address `data`. */
  datatype Location = Location(data: nat, position: nat)

  /** The address under which waiter lists are registered: an int32 pointer plus the byte position. */
  function WaiterKey(l: Location): int
  {
    l.data + 4 * l.position
  }

  datatype Timeout = Infinite | Millis(ms: real)

  datatype Count = Unlimited | AtMost(n: nat)

  /** The arguments of a wait, and the VM instance of the agent that calls it. */
  datatype Request = Request(loc: Location, expected: int, timeout: Timeout, isAsync: bool, vm: VmId)

  /** One `WaiterItem`; `outcome`, `slot` and `reported` are history. */
  datatype Item = Item(
    req: Request,
    notified: bool,
    outcome: Option<bool>,
    slot: Option<nat>,
    reported: bool)

  /**
   * The vector of one `Global::Waiter`.  History of the notify calls: the waiters they
   * notified, the location each of those calls was made for, and what they returned.
   */
  datatype WaiterList = WaiterList(
    list: seq<WaiterId>,
    log: seq<WaiterId>,
    calls: seq<Location>,
    returned: nat)

  /** One tuple of `asyncWaiterData`; `origin` records which waiter it was pushed for. */
  datatype Entry = Entry(origin: WaiterId, pointer: Option<WaiterId>, notified: bool)

  /** `asyncWaiterData` and `pendingAsyncWaiterCount` of one VM instance. */
  datatype Table = Table(entries: seq<Entry>, pending: nat)

  /** Who is suspended: the agent itself, or a worker that will report to the VM instance `vm`. */
  datatype Mode = Sync | Worker(vm: VmId)

  /** The answers of a wait that is not queued: "not-equal" and "timed-out". */
  datatype Refusal = NotEqual | TimedOut

  /** Where a thread is.  The comment gives the locks it holds there. */
  datatype PC =
    | Idle
    | WaitLock(req: Request)
    | WaitCompare(req: Request)                                               // list
    | WaitRefuse(req: Request, answer: Refusal)                               // list
    | WaitEnqueue(req: Request)                                               // list
    | AsyncLockData(w: WaiterId, loc: Location, vm: VmId)                     // list
    | AsyncSpawn(w: WaiterId, loc: Location, vm: VmId)                        // list, data
    | AsyncPush(w: WaiterId, loc: Location, vm: VmId)                         // list, data
    | AsyncUnlockData(w: WaiterId, loc: Location, vm: VmId)                   // list, data
    | AsyncUnlock(w: WaiterId, loc: Location)                                 // list
    | Acquire(w: WaiterId, loc: Location, mode: Mode, timedOut: bool)
    | Check(w: WaiterId, loc: Location, mode: Mode, timedOut: bool)           // list
    | Blocked(w: WaiterId, loc: Location, mode: Mode)
    | Erase(w: WaiterId, loc: Location, mode: Mode, notified: bool)           // list
    | Leave(w: WaiterId, loc: Location, mode: Mode, notified: bool)           // list
    | ReportLock(w: WaiterId, loc: Location, vm: VmId, notified: bool)
    | Report(w: WaiterId, loc: Location, vm: VmId, notified: bool)            // data
    | ReportUnlock(w: WaiterId, loc: Location, vm: VmId)                      // data
    | Finished(w: WaiterId, loc: Location)
    | NotifyLock(loc: Location, count: Count)
    | NotifyCount(loc: Location, count: Count)                                // list
    | NotifyLoop(loc: Location, count: Count, n: nat, total: nat)             // list

  datatype State = State(
    cells: map<Location, int>,
    locks: map<int, ThreadId>,
    lists: map<int, WaiterList>,
    items: seq<Item>,
    dataLocks: map<VmId, ThreadId>,
    tables: map<VmId, Table>,
    threads: seq<PC>)

  datatype Action =
    | BeginWait(req: Request)
    | BeginNotify(loc: Location, count: Count)
    | Store(loc: Location, value: int)
    | Go
    | Wake
    | Expire

  datatype Choice = Choice(t: ThreadId, a: Action)

  const NO_WAITERS := WaiterList([], [], [], 0)

  /** `Global::waiter`: one list per key, created on first use. */
  function ListAt(s: State, k: int): WaiterList
  {
    if k in s.lists then s.lists[k] else NO_WAITERS
  }

  function TableAt(s: State, vm: VmId): Table
  {
    if vm in s.tables then s.tables[vm] else Table([], 0)
  }

  function CellAt(s: State, l: Location): int
  {
    if l in s.cells then s.cells[l] else 0
  }

  function Min(a: nat, b: nat): (r: nat)
    ensures r <= a && r <= b && (r == a || r == b)
  {
    if a < b then a else b
  }

  /** The list mutex a thread holds at this point. */
  function HeldKey(pc: PC): Option<int>
  {
    match pc
    case WaitCompare(r) => Some(WaiterKey(r.loc))
    case WaitRefuse(r, _) => Some(WaiterKey(r.loc))
    case WaitEnqueue(r) => Some(WaiterKey(r.loc))
    case AsyncLockData(_, l, _) => Some(WaiterKey(l))
    case AsyncSpawn(_, l, _) => Some(WaiterKey(l))
    case AsyncPush(_, l, _) => Some(WaiterKey(l))
    case AsyncUnlockData(_, l, _) => Some(WaiterKey(l))
    case AsyncUnlock(_, l) => Some(WaiterKey(l))
    case Check(_, l, _, _) => Some(WaiterKey(l))
    case Erase(_, l, _, _) => Some(WaiterKey(l))
    case Leave(_, l, _, _) => Some(WaiterKey(l))
    case NotifyCount(l, _) => Some(WaiterKey(l))
    case NotifyLoop(l, _, _, _) => Some(WaiterKey(l))
    case _ => None
  }

  /** The list mutex a thread is about to take. */
  function WantedKey(pc: PC): Option<int>
  {
    match pc
    case WaitLock(r) => Some(WaiterKey(r.loc))
    case Acquire(_, l, _, _) => Some(WaiterKey(l))
    case NotifyLock(l, _) => Some(WaiterKey(l))
    case _ => None
  }

  /** The VM instance whose data mutex a thread holds at this point. */
  function HeldData(pc: PC): Option<VmId>
  {
    match pc
    case AsyncSpawn(_, _, vm) => Some(vm)
    case AsyncPush(_, _, vm) => Some(vm)
    case AsyncUnlockData(_, _, vm) => Some(vm)
    case Report(_, _, vm, _) => Some(vm)
    case ReportUnlock(_, _, vm) => Some(vm)
    case _ => None
  }

  /** The VM instance whose data mutex a thread is about to take. */
  function WantedData(pc: PC): Option<VmId>
  {
    match pc
    case AsyncLockData(_, _, vm) => Some(vm)
    case ReportLock(_, _, vm, _) => Some(vm)
    case _ => None
  }

  predicate Resting(pc: PC)
  {
    pc.Idle? || pc.Finished? || pc.Blocked?
  }

  /** The mutex the thread is about to take, if any, is free. */
  predicate CanTake(s: State, pc: PC)
  {
    && (WantedKey(pc).Some? ==> WantedKey(pc).value !in s.locks)
    && (WantedData(pc).Some? ==> WantedData(pc).value !in s.dataLocks)
  }

  predicate Enabled(s: State, t: ThreadId, a: Action)
  {
    t < |s.threads| &&
    var pc := s.threads[t];
    match a
    case BeginWait(_) => pc.Idle?
    case BeginNotify(_, _) => pc.Idle?
    case Store(_, _) => pc.Idle?
    case Wake => pc.Blocked?
    case Expire => pc.Blocked? && pc.w < |s.items| && s.items[pc.w].req.timeout.Millis?
    case Go =>
      !Resting(pc) && CanTake(s, pc)
  }

  /** What a thread does: where it goes next and what it leaves behind in the shared state. */
  datatype Move = Move(pc: PC, next: State)

  function WithList(s: State, l: Location, wl: WaiterList): State
  {
    s.(lists := s.lists[WaiterKey(l) := wl])
  }

  function Lock(s: State, t: ThreadId, l: Location): State
  {
    s.(locks := s.locks[WaiterKey(l) := t])
  }

  function Unlock(s: State, l: Location): State
  {
    s.(locks := s.locks - {WaiterKey(l)})
  }

  function WithItem(s: State, w: WaiterId, item: Item): State
  {
    if w < |s.items| then s.(items := s.items[w := item]) else s
  }

  /** `erase(remove(begin, end, w), end)`. */
  function Without(list: seq<WaiterId>, w: WaiterId): seq<WaiterId>
  {
    if list == [] then []
    else if list[0] == w then Without(list[1..], w)
    else [list[0]] + Without(list[1..], w)
  }

  /** The position of the first entry that points at `w`, or the size when there is none. */
  function FindEntry(entries: seq<Entry>, w: WaiterId): (i: nat)
    ensures i <= |entries|
    ensures i < |entries| ==> entries[i].pointer == Some(w)
    ensures forall j :: 0 <= j < i ==> entries[j].pointer != Some(w)
  {
    if entries == [] then 0
    else if entries[0].pointer == Some(w) then 0
    else 1 + FindEntry(entries[1..], w)
  }

  function NullEntries(entries: seq<Entry>): nat
  {
    if entries == [] then 0
    else (if entries[0].pointer.None? then 1 else 0) + NullEntries(entries[1..])
  }

  function Enqueue(s: State, r: Request): Move
  {
    var wl := ListAt(s, WaiterKey(r.loc));
    var w := |s.items|;
    var s1 := s.(items := s.items + [Item(r, false, None, None, false)]);
    Move(if r.isAsync then AsyncLockData(w, r.loc, r.vm) else Check(w, r.loc, Sync, false),
         WithList(s1, r.loc, wl.(list := wl.list + [w])))
  }

  predicate InEntry(pc: PC)
  {
    pc.WaitLock? || pc.WaitCompare? || pc.WaitRefuse? || pc.WaitEnqueue?
  }

  /** From the call of `doWait` to the insertion into the waiter list. */
  function EntryMove(s: State, t: ThreadId, pc: PC): Move
    requires InEntry(pc)
  {
    match pc
    case WaitLock(r) => Move(WaitCompare(r), Lock(s, t, r.loc))
    case WaitCompare(r) =>
      if CellAt(s, r.loc) != r.expected then Move(WaitRefuse(r, NotEqual), s)
      else if r.timeout == Millis(0.0) && r.isAsync then Move(WaitRefuse(r, TimedOut), s)
      else Move(WaitEnqueue(r), s)
    case WaitRefuse(r, _) => Move(Idle, Unlock(s, r.loc))
    case WaitEnqueue(r) => Enqueue(s, r)
  }

  function PushEntry(s: State, w: WaiterId, vm: VmId): State
  {
    var table := TableAt(s, vm);
    var s1 := if w < |s.items| then WithItem(s, w, s.items[w].(slot := Some(|table.entries|))) else s;
    s1.(tables := s.tables[vm := table.(entries := table.entries + [Entry(w, Some(w), false)])])
  }

  predicate InSpawn(pc: PC)
  {
    pc.AsyncLockData? || pc.AsyncSpawn? || pc.AsyncPush? || pc.AsyncUnlockData? || pc.AsyncUnlock?
  }

  /** The rest of an asynchronous `doWait`: start the worker, push its entry, unlock. */
  function SpawnMove(s: State, t: ThreadId, pc: PC): Move
    requires InSpawn(pc)
  {
    match pc
    case AsyncLockData(w, l, vm) => Move(AsyncSpawn(w, l, vm), s.(dataLocks := s.dataLocks[vm := t]))
    case AsyncSpawn(w, l, vm) =>
      Move(AsyncPush(w, l, vm), s.(threads := s.threads + [Acquire(w, l, Worker(vm), false)]))
    case AsyncPush(w, l, vm) => Move(AsyncUnlockData(w, l, vm), PushEntry(s, w, vm))
    case AsyncUnlockData(w, l, vm) => Move(AsyncUnlock(w, l), s.(dataLocks := s.dataLocks - {vm}))
    case AsyncUnlock(w, l) => Move(Idle, Unlock(s, l))
  }

  /** One turn of the predicate loop of `wait` / `wait_for`. */
  function CheckPredicate(s: State, w: WaiterId, l: Location, mode: Mode, timedOut: bool): Move
  {
    if w < |s.items| && s.items[w].notified then Move(Erase(w, l, mode, true), s)
    else if timedOut then Move(Erase(w, l, mode, false), s)
    else Move(Blocked(w, l, mode), Unlock(s, l))
  }

  function EraseWaiter(s: State, w: WaiterId, l: Location, notified: bool): State
  {
    var wl := ListAt(s, WaiterKey(l));
    var s1 := WithList(s, l, wl.(list := Without(wl.list, w)));
    if w < |s.items| then WithItem(s1, w, s.items[w].(outcome := Some(notified))) else s1
  }

  predicate InSuspend(pc: PC)
  {
    pc.Acquire? || pc.Check? || pc.Erase? || pc.Leave?
  }

  /** The suspended part, the same for a synchronous wait and for a worker. */
  function SuspendMove(s: State, t: ThreadId, pc: PC): Move
    requires InSuspend(pc)
  {
    match pc
    case Acquire(w, l, mode, timedOut) => Move(Check(w, l, mode, timedOut), Lock(s, t, l))
    case Check(w, l, mode, timedOut) => CheckPredicate(s, w, l, mode, timedOut)
    case Erase(w, l, mode, notified) => Move(Leave(w, l, mode, notified), EraseWaiter(s, w, l, notified))
    case Leave(w, l, mode, notified) =>
      Move(if mode.Sync? then Idle else ReportLock(w, l, mode.vm, notified), Unlock(s, l))
  }

  function ReportEntry(s: State, w: WaiterId, vm: VmId, notified: bool): State
  {
    var table := TableAt(s, vm);
    var i := FindEntry(table.entries, w);
    if i < |table.entries| && w < |s.items| then
      WithItem(s, w, s.items[w].(reported := true))
      .(tables := s.tables[vm := Table(table.entries[i := table.entries[i].(pointer := None, notified := notified)],
                                       table.pending + 1)])
    else s
  }

  predicate InReport(pc: PC)
  {
    pc.ReportLock? || pc.Report? || pc.ReportUnlock?
  }

  /** The worker reports into the `asyncWaiterData` of its VM instance. */
  function ReportMove(s: State, t: ThreadId, pc: PC): Move
    requires InReport(pc)
  {
    match pc
    case ReportLock(w, l, vm, notified) => Move(Report(w, l, vm, notified), s.(dataLocks := s.dataLocks[vm := t]))
    case Report(w, l, vm, notified) => Move(ReportUnlock(w, l, vm), ReportEntry(s, w, vm, notified))
    case ReportUnlock(w, l, vm) => Move(Finished(w, l), s.(dataLocks := s.dataLocks - {vm}))
  }

  /** One iteration of the notify loop, or its exit. */
  function NotifyOne(s: State, l: Location, c: Count, n: nat, total: nat): Move
  {
    var wl := ListAt(s, WaiterKey(l));
    if n < total && |wl.list| > 0 then
      var f := wl.list[0];
      var s1 := WithList(s, l, wl.(list := wl.list[1..], log := wl.log + [f], calls := wl.calls + [l]));
      Move(NotifyLoop(l, c, n + 1, total),
           if f < |s.items| then WithItem(s1, f, s.items[f].(notified := true)) else s1)
    else
      Move(Idle, Unlock(WithList(s, l, wl.(returned := wl.returned + n)), l))
  }

  predicate InNotify(pc: PC)
  {
    pc.NotifyLock? || pc.NotifyCount? || pc.NotifyLoop?
  }

  function NotifyMove(s: State, t: ThreadId, pc: PC): Move
    requires InNotify(pc)
  {
    match pc
    case NotifyLock(l, c) => Move(NotifyCount(l, c), Lock(s, t, l))
    case NotifyCount(l, c) =>
      var size := |ListAt(s, WaiterKey(l)).list|;
      Move(NotifyLoop(l, c, 0, if c.Unlimited? then size else Min(size, c.n)), s)
    case NotifyLoop(l, c, n, total) => NotifyOne(s, l, c, n, total)
  }

  predicate InExternal(pc: PC, a: Action)
  {
    match a
    case Go => false
    case Wake => pc.Blocked?
    case Expire => pc.Blocked?
    case _ => pc.Idle?
  }

  /** What the scheduler or the script makes a resting thread do. */
  function ExternalMove(s: State, pc: PC, a: Action): Move
    requires InExternal(pc, a)
  {
    match a
    case BeginWait(r) => Move(WaitLock(r), s)
    case BeginNotify(l, c) => Move(NotifyLock(l, c), s)
    case Store(l, v) => Move(Idle, s.(cells := s.cells[l := v]))
    case Wake => Move(Acquire(pc.w, pc.loc, pc.mode, false), s)
    case Expire => Move(Acquire(pc.w, pc.loc, pc.mode, true), s)
  }

  function MoveOf(s: State, t: ThreadId, a: Action): Move
    requires Enabled(s, t, a)
  {
    var pc := s.threads[t];
    if !a.Go? then ExternalMove(s, pc, a)
    else if InEntry(pc) then EntryMove(s, t, pc)
    else if InSpawn(pc) then SpawnMove(s, t, pc)
    else if InSuspend(pc) then SuspendMove(s, t, pc)
    else if InReport(pc) then ReportMove(s, t, pc)
    else NotifyMove(s, t, pc)
  }

  function Goto(s: State, t: ThreadId, pc: PC): State
  {
    if t < |s.threads| then s.(threads := s.threads[t := pc]) else s
  }

  function Step(s: State, t: ThreadId, a: Action): State
    requires Enabled(s, t, a)
  {
    var m := MoveOf(s, t, a);
    Goto(m.next, t, m.pc)
  }

  function Init(cells: map<Location, int>, agents: nat): State
  {
    State(cells, map[], map[], [], map[], map[], seq(agents, _ => Idle))
  }

  /** `run` is the sequence of states of an execution that starts with `agents` idle agents. */
  ghost predicate IsRun(run: seq<State>, sched: seq<Choice>, cells: map<Location, int>, agents: nat)
  {
    && |run| == |sched| + 1
    && run[0] == Init(cells, agents)
    && forall i :: 0 <= i < |sched| ==>
         Enabled(run[i], sched[i].t, sched[i].a) && run[i + 1] == Step(run[i], sched[i].t, sched[i].a)
  }
}
