/** Waits come to an end: what a wait call, a wakeup and a timeout lead to. */
module AtomicsWakeups {
  import opened Common
  import opened Atomics
  import opened AtomicsInvariant
  import opened AtomicsWaiters
  import opened AtomicsNotify
  import opened AtomicsExecutions

  // ---- leaving ----

  function LeaveSchedule(t: ThreadId, a: Action): seq<Choice>
  {
    [Choice(t, a), Choice(t, Go), Choice(t, Go), Choice(t, Go), Choice(t, Go)]
  }

  /** The waiter is gone from its list with its outcome, and its thread goes on. */
  function Left(s: State, t: ThreadId, w: WaiterId, l: Location, mode: Mode, notified: bool): State
  {
    Goto(EraseWaiter(s, w, l, notified), t, AfterLeave(w, l, mode, notified))
  }

  lemma LeaveScheduleIs(t: ThreadId, a: Action)
    ensures [Choice(t, a)] + [Choice(t, Go)] + [Choice(t, Go)] + [Choice(t, Go)] + [Choice(t, Go)] == LeaveSchedule(t, a)
  {
  }

  /** Taking and releasing the mutex around the departure. */
  lemma LeftState(s: State, t: ThreadId, w: WaiterId, l: Location, mode: Mode, notified: bool, pc: PC)
    requires t < |s.threads| && WaiterKey(l) !in s.locks
    ensures var s2 := Lock(Goto(s, t, pc), t, l);
            Goto(Unlock(EraseWaiter(s2, w, l, notified), l), t, AfterLeave(w, l, mode, notified)) == Left(s, t, w, l, mode, notified)
  {
    hide WaiterKey;
    var k := WaiterKey(l);
    assert s.locks[k := t] - {k} == s.locks;
    EraseCommutes(s, s.threads[t := pc], s.locks[k := t], w, l, notified);
    EraseKeepsThreads(s, w, l, notified);
    hide EraseWaiter;
    assert EraseWaiter(s, w, l, notified).locks == s.locks;
  }

  /** The positions of the threads and the mutexes do not matter to the departure. */
  lemma EraseCommutes(s: State, threads: seq<PC>, locks: map<int, ThreadId>, w: WaiterId, l: Location, notified: bool)
    ensures EraseWaiter(s.(threads := threads, locks := locks), w, l, notified) ==
            EraseWaiter(s, w, l, notified).(threads := threads, locks := locks)
  {
    hide WaiterKey, Without;
    var s1 := s.(threads := threads, locks := locks);
    assert ListAt(s1, WaiterKey(l)) == ListAt(s, WaiterKey(l));
    hide ListAt;
  }

  /**
   * A suspended thread that is woken after its waiter was notified, or whose timeout
   * expires, leaves: five steps of its own, while the mutex is free, take it to the end
   * of the wait.
   */
  lemma Leaves(s: State, t: ThreadId, a: Action)
    requires t < |s.threads| && s.threads[t].Blocked? && s.threads[t].w < |s.items| && WaiterKey(s.threads[t].loc) !in s.locks
    requires a == Expire || (a == Wake && s.items[s.threads[t].w].notified)
    requires Enabled(s, t, a)
    ensures var pc := s.threads[t];
            Executes(s, LeaveSchedule(t, a), Left(s, t, pc.w, pc.loc, pc.mode, s.items[pc.w].notified))
  {
    hide Executes, WaiterKey, Enabled, EraseWaiter, LeaveSchedule, Left;
    var pc := s.threads[t];
    var w, l, mode, notified := pc.w, pc.loc, pc.mode, s.items[pc.w].notified;
    var s1 := Goto(s, t, Acquire(w, l, mode, a == Expire));
    var s2 := Lock(Goto(s1, t, Check(w, l, mode, a == Expire)), t, l);
    var s3 := Goto(s2, t, Erase(w, l, mode, notified));
    WakeStep(s, t, a);
    AcquireStep(s1, t);
    CheckStep(s2, t);
    EraseStep(s3, t);
    var go := [Choice(t, Go)];
    ExecutesJoin(s, [Choice(t, a)], s1, go, s2);
    ExecutesJoin(s, [Choice(t, a)] + go, s2, go, s3);
    LeavesErased(s, t, a, s3);
  }

  lemma LeavesErased(s: State, t: ThreadId, a: Action, s3: State)
    requires t < |s.threads| && s.threads[t].Blocked? && s.threads[t].w < |s.items| && WaiterKey(s.threads[t].loc) !in s.locks
    requires var pc := s.threads[t];
             s3 == Lock(Goto(s, t, Erase(pc.w, pc.loc, pc.mode, s.items[pc.w].notified)), t, pc.loc)
    requires Executes(s, [Choice(t, a)] + [Choice(t, Go)] + [Choice(t, Go)], s3)
    ensures var pc := s.threads[t];
            Executes(s, LeaveSchedule(t, a), Left(s, t, pc.w, pc.loc, pc.mode, s.items[pc.w].notified))
  {
    hide Executes, WaiterKey, LeaveSchedule, Left;
    var pc := s.threads[t];
    var w, l, mode, notified := pc.w, pc.loc, pc.mode, s.items[pc.w].notified;
    EraseKeepsThreads(s3, w, l, notified);
    hide EraseWaiter;
    var s4 := Goto(EraseWaiter(s3, w, l, notified), t, Leave(w, l, mode, notified));
    var s5 := Goto(Unlock(s4, l), t, AfterLeave(w, l, mode, notified));
    EraseStep(s3, t);
    LeaveStep(s4, t);
    var go := [Choice(t, Go)];
    var three := [Choice(t, a)] + go + go;
    ExecutesJoin(s, three, s3, go, s4);
    ExecutesJoin(s, three + go, s4, go, s5);
    LeaveScheduleIs(t, a);
    LeftState(s, t, w, l, mode, notified, Erase(w, l, mode, notified));
    assert s5 == Goto(Unlock(EraseWaiter(s3, w, l, notified), l), t, AfterLeave(w, l, mode, notified));
  }

  lemma EraseKeepsThreads(s: State, w: WaiterId, l: Location, notified: bool)
    ensures EraseWaiter(s, w, l, notified).threads == s.threads && EraseWaiter(s, w, l, notified).locks == s.locks
  {
    hide Without, ListAt;
  }

  /** What leaving means for the waiter. */
  lemma LeftOutcome(s: State, t: ThreadId, w: WaiterId, l: Location, mode: Mode, notified: bool)
    requires t < |s.threads| && w < |s.items|
    ensures var s' := Left(s, t, w, l, mode, notified);
            && |s'.items| == |s.items| && s'.items[w] == s.items[w].(outcome := Some(notified))
            && w !in ListAt(s', WaiterKey(l)).list
            && t < |s'.threads| && s'.threads[t] == AfterLeave(w, l, mode, notified)
  {
    WithoutMembers(ListAt(s, WaiterKey(l)).list, w, w);
  }

  /**
   * A notified waiter always gets away: from any state of any run in which its thread
   * is suspended and the mutex is free, the run can be continued by a wakeup and four
   * steps to a state where the wait has ended with "ok".
   */
  lemma NotifiedReturns(
      run: seq<State>, sched: seq<Choice>, cells: map<Location, int>, agents: nat, t: ThreadId)
      returns (run': seq<State>, sched': seq<Choice>)
    requires IsRun(run, sched, cells, agents)
    requires var s := run[|run| - 1];
             && t < |s.threads| && s.threads[t].Blocked? && WaiterKey(s.threads[t].loc) !in s.locks
             && s.threads[t].w < |s.items| && s.items[s.threads[t].w].notified
    ensures sched' == sched + LeaveSchedule(t, Wake) && run <= run' && IsRun(run', sched', cells, agents)
    ensures var s, s' := run[|run| - 1], run'[|run'| - 1]; var pc := s.threads[t];
            && pc.w < |s'.items| && s'.items[pc.w].outcome == Some(true)
            && t < |s'.threads| && s'.threads[t] == AfterLeave(pc.w, pc.loc, pc.mode, true)
  {
    var s := run[|run| - 1];
    var pc := s.threads[t];
    Leaves(s, t, Wake);
    LeftOutcome(s, t, pc.w, pc.loc, pc.mode, true);
    run', sched' := Continued(run, sched, cells, agents, LeaveSchedule(t, Wake), Left(s, t, pc.w, pc.loc, pc.mode, true));
  }

  /** The same for a timeout: it ends the wait with "timed-out", unless the waiter was notified before. */
  lemma ExpiredReturns(
      run: seq<State>, sched: seq<Choice>, cells: map<Location, int>, agents: nat, t: ThreadId)
      returns (run': seq<State>, sched': seq<Choice>)
    requires IsRun(run, sched, cells, agents)
    requires var s := run[|run| - 1];
             && t < |s.threads| && s.threads[t].Blocked? && WaiterKey(s.threads[t].loc) !in s.locks
             && s.threads[t].w < |s.items| && s.items[s.threads[t].w].req.timeout.Millis?
    ensures sched' == sched + LeaveSchedule(t, Expire) && run <= run' && IsRun(run', sched', cells, agents)
    ensures var s, s' := run[|run| - 1], run'[|run'| - 1]; var pc := s.threads[t];
            && pc.w < |s'.items| && s'.items[pc.w].outcome == Some(s.items[pc.w].notified)
            && pc.w !in ListAt(s', WaiterKey(pc.loc)).list
            && t < |s'.threads| && s'.threads[t] == AfterLeave(pc.w, pc.loc, pc.mode, s.items[pc.w].notified)
  {
    var s := run[|run| - 1];
    var pc := s.threads[t];
    Leaves(s, t, Expire);
    LeftOutcome(s, t, pc.w, pc.loc, pc.mode, s.items[pc.w].notified);
    run', sched' := Continued(run, sched, cells, agents, LeaveSchedule(t, Expire), Left(s, t, pc.w, pc.loc, pc.mode, s.items[pc.w].notified));
  }

  lemma Continued(run: seq<State>, sched: seq<Choice>, cells: map<Location, int>, agents: nat, more: seq<Choice>, s': State)
      returns (run': seq<State>, sched': seq<Choice>)
    requires IsRun(run, sched, cells, agents) && Executes(run[|run| - 1], more, s')
    ensures sched' == sched + more && run <= run' && IsRun(run', sched', cells, agents) && run'[|run'| - 1] == s'
  {
    hide Enabled, Step, Executes, Init;
    var states := ExecutionStates(run[|run| - 1], more, s');
    run', sched' := run + states[1..], sched + more;
    forall i | 0 <= i < |sched'|
      ensures Enabled(run'[i], sched'[i].t, sched'[i].a) && run'[i + 1] == Step(run'[i], sched'[i].t, sched'[i].a)
    {
      if i >= |sched| {
        var n := i - |sched|;
        assert run'[i] == states[n] && run'[i + 1] == states[n + 1] && sched'[i] == more[n];
      }
    }
  }

  /** A spurious wakeup of a waiter that was not notified leads back to sleep and changes nothing. */
  lemma SpuriousWakeup(s: State, t: ThreadId)
    requires t < |s.threads| && s.threads[t].Blocked? && s.threads[t].w < |s.items| && !s.items[s.threads[t].w].notified
    requires WaiterKey(s.threads[t].loc) !in s.locks
    ensures Executes(s, [Choice(t, Wake)] + [Choice(t, Go)] + [Choice(t, Go)], s)
  {
    hide Executes, WaiterKey;
    var pc := s.threads[t];
    var s1 := Goto(s, t, Acquire(pc.w, pc.loc, pc.mode, false));
    var s2 := Lock(Goto(s1, t, Check(pc.w, pc.loc, pc.mode, false)), t, pc.loc);
    var s3 := Goto(Unlock(s2, pc.loc), t, pc);
    WakeStep(s, t, Wake);
    AcquireStep(s1, t);
    CheckStep(s2, t);
    ExecutesJoin(s, [Choice(t, Wake)], s1, [Choice(t, Go)], s2);
    ExecutesJoin(s, [Choice(t, Wake)] + [Choice(t, Go)], s2, [Choice(t, Go)], s3);
    var k := WaiterKey(pc.loc);
    assert s.locks[k := t] - {k} == s.locks;
    assert s3 == s;
  }

  /** Only a wait with a finite timeout can end with "timed-out". */
  lemma OnlyFiniteTimesOut(
      run: seq<State>, sched: seq<Choice>, cells: map<Location, int>, agents: nat, j: nat, w: WaiterId)
    requires IsRun(run, sched, cells, agents) && j < |run| && w < |run[j].items| && run[j].items[w].outcome == Some(false)
    ensures run[j].items[w].req.timeout.Millis?
  {
    RunInv(run, sched, cells, agents, j);
    assert ItemInv(run[j], w);
  }

  // ---- entering ----

  /** The comparison decides: refused as unequal, refused as timed out, or queued. */
  lemma CompareDecides(s: State, t: ThreadId, r: Request)
    requires t < |s.threads| && s.threads[t] == WaitCompare(r)
    ensures Enabled(s, t, Go)
    ensures var pc := Step(s, t, Go).threads[t];
            && (CellAt(s, r.loc) != r.expected ==> pc == WaitRefuse(r, NotEqual))
            && (CellAt(s, r.loc) == r.expected && r.isAsync && r.timeout == Millis(0.0) ==> pc == WaitRefuse(r, TimedOut))
            && (CellAt(s, r.loc) == r.expected && !(r.isAsync && r.timeout == Millis(0.0)) ==> pc == WaitEnqueue(r))
    ensures Step(s, t, Go) == Goto(s, t, Step(s, t, Go).threads[t])
  {
    hide WaiterKey, CellAt;
  }

  /** A refused wait leaves everything as it was. */
  lemma RefusedWait(s: State, t: ThreadId, r: Request)
    requires t < |s.threads| && s.threads[t].Idle? && WaiterKey(r.loc) !in s.locks
    requires CellAt(s, r.loc) != r.expected || (r.isAsync && r.timeout == Millis(0.0))
    ensures Executes(s, [Choice(t, BeginWait(r)), Choice(t, Go)] + [Choice(t, Go)] + [Choice(t, Go)], s)
  {
    hide Executes, WaiterKey;
    var s2 := Lock(Goto(s, t, WaitCompare(r)), t, r.loc);
    WaitBegins(s, t, r);
    CompareDecides(s2, t, r);
    var s3 := Step(s2, t, Go);
    ExecutesOne(s2, Choice(t, Go), s3);
    RefuseStep(s3, t);
    var s4 := Goto(Unlock(s3, r.loc), t, Idle);
    var a := [Choice(t, BeginWait(r)), Choice(t, Go)];
    ExecutesJoin(s, a, s2, [Choice(t, Go)], s3);
    ExecutesJoin(s, a + [Choice(t, Go)], s3, [Choice(t, Go)], s4);
    var k := WaiterKey(r.loc);
    assert s.locks[k := t] - {k} == s.locks;
    assert s4.threads == s.threads;
    assert s4 == s;
  }

  lemma RefuseStep(s: State, t: ThreadId)
    requires t < |s.threads| && s.threads[t].WaitRefuse?
    ensures Executes(s, [Choice(t, Go)], Goto(Unlock(s, s.threads[t].req.loc), t, Idle))
  {
    hide WaiterKey, Executes, MoveOf, Enabled;
    StepOf(s, t);
    ExecutesMove(s, t, EntryMove(s, t, s.threads[t]));
  }

  /** A store is seen by every later comparison at that location and by no other. */
  lemma StoreWrites(s: State, t: ThreadId, l: Location, v: int, at: Location)
    requires t < |s.threads| && s.threads[t].Idle?
    ensures Enabled(s, t, Store(l, v))
    ensures CellAt(Step(s, t, Store(l, v)), at) == if at == l then v else CellAt(s, at)
  {
  }

  // ---- entering asynchronously ----

  /** The steps of `waitAsync` after the waiter was queued. */
  lemma AsyncLockStep(s: State, t: ThreadId)
    requires t < |s.threads| && s.threads[t].AsyncLockData? && s.threads[t].vm !in s.dataLocks
    ensures var pc := s.threads[t];
            Executes(s, [Choice(t, Go)],
                     Goto(s.(dataLocks := s.dataLocks[pc.vm := t]), t, AsyncSpawn(pc.w, pc.loc, pc.vm)))
  {
    hide WaiterKey, Executes, MoveOf, Enabled;
    StepOf(s, t);
    ExecutesMove(s, t, SpawnMove(s, t, s.threads[t]));
  }

  lemma AsyncSpawnStep(s: State, t: ThreadId)
    requires t < |s.threads| && s.threads[t].AsyncSpawn?
    ensures var pc := s.threads[t];
            Executes(s, [Choice(t, Go)],
                     s.(threads := s.threads[t := AsyncPush(pc.w, pc.loc, pc.vm)] + [Acquire(pc.w, pc.loc, Worker(pc.vm), false)]))
  {
    hide WaiterKey, Executes, MoveOf, Enabled;
    StepOf(s, t);
    var pc := s.threads[t];
    assert (s.threads + [Acquire(pc.w, pc.loc, Worker(pc.vm), false)])[t := AsyncPush(pc.w, pc.loc, pc.vm)] ==
           s.threads[t := AsyncPush(pc.w, pc.loc, pc.vm)] + [Acquire(pc.w, pc.loc, Worker(pc.vm), false)];
    ExecutesMove(s, t, SpawnMove(s, t, s.threads[t]));
  }

  lemma AsyncPushStep(s: State, t: ThreadId)
    requires t < |s.threads| && s.threads[t].AsyncPush?
    ensures var pc := s.threads[t];
            Executes(s, [Choice(t, Go)], Goto(PushEntry(s, pc.w, pc.vm), t, AsyncUnlockData(pc.w, pc.loc, pc.vm)))
  {
    hide WaiterKey, PushEntry, Executes, MoveOf, Enabled;
    StepOf(s, t);
    ExecutesMove(s, t, SpawnMove(s, t, s.threads[t]));
  }

  lemma AsyncUnlockDataStep(s: State, t: ThreadId)
    requires t < |s.threads| && s.threads[t].AsyncUnlockData?
    ensures var pc := s.threads[t];
            Executes(s, [Choice(t, Go)], Goto(s.(dataLocks := s.dataLocks - {pc.vm}), t, AsyncUnlock(pc.w, pc.loc)))
  {
    hide WaiterKey, Executes, MoveOf, Enabled;
    StepOf(s, t);
    ExecutesMove(s, t, SpawnMove(s, t, s.threads[t]));
  }

  lemma AsyncUnlockStep(s: State, t: ThreadId)
    requires t < |s.threads| && s.threads[t].AsyncUnlock?
    ensures Executes(s, [Choice(t, Go)], Goto(Unlock(s, s.threads[t].loc), t, Idle))
  {
    hide WaiterKey, Executes, MoveOf, Enabled;
    StepOf(s, t);
    ExecutesMove(s, t, SpawnMove(s, t, s.threads[t]));
  }

  function AsyncSchedule(t: ThreadId, r: Request): seq<Choice>
  {
    [Choice(t, BeginWait(r)), Choice(t, Go)] + seq(7, _ => Choice(t, Go))
  }

  /** A queued asynchronous wait: its waiter, its entry and its worker, and the agent free again. */
  function AsyncWaiting(s: State, t: ThreadId, r: Request): State
  {
    var w, wl, table := |s.items|, ListAt(s, WaiterKey(r.loc)), TableAt(s, r.vm);
    s.(items := s.items + [Item(r, false, None, Some(|table.entries|), false)],
       lists := s.lists[WaiterKey(r.loc) := wl.(list := wl.list + [w])],
       tables := s.tables[r.vm := table.(entries := table.entries + [Entry(w, Some(w), false)])],
       threads := s.threads + [Acquire(w, r.loc, Worker(r.vm), false)])
  }

  lemma EnqueueAsync(s: State, r: Request)
    requires r.isAsync
    ensures Enqueue(s, r).pc == AsyncLockData(|s.items|, r.loc, r.vm)
    ensures Enqueue(s, r).next.threads == s.threads && Enqueue(s, r).next.dataLocks == s.dataLocks
  {
    hide ListAt, WaiterKey;
  }

  lemma AsyncEnqueues(s: State, t: ThreadId, r: Request)
    requires t < |s.threads| && s.threads[t] == WaitEnqueue(r) && r.isAsync
    ensures Executes(s, [Choice(t, Go)], Goto(Enqueue(s, r).next, t, AsyncLockData(|s.items|, r.loc, r.vm)))
    ensures Enqueue(s, r).next.threads == s.threads && Enqueue(s, r).next.dataLocks == s.dataLocks
  {
    hide ListAt, WaiterKey, Executes, Enqueue, MoveOf, Enabled;
    EnqueueAsync(s, r);
    StepOf(s, t);
    ExecutesMove(s, t, EntryMove(s, t, s.threads[t]));
  }

  /** The positions of the threads and the mutexes do not matter to the entry that is pushed. */
  lemma PushCommutes(s: State, threads: seq<PC>, locks: map<int, ThreadId>, dataLocks: map<VmId, ThreadId>, w: WaiterId, vm: VmId)
    ensures PushEntry(s.(threads := threads, locks := locks, dataLocks := dataLocks), w, vm) ==
            PushEntry(s, w, vm).(threads := threads, locks := locks, dataLocks := dataLocks)
  {
    var s1 := s.(threads := threads, locks := locks, dataLocks := dataLocks);
    assert TableAt(s1, vm) == TableAt(s, vm);
    hide TableAt;
  }

  /** From the queue to the pushed entry. */
  lemma AsyncToPush(s: State, t: ThreadId, w: WaiterId, l: Location, vm: VmId)
    requires t < |s.threads| && s.threads[t] == AsyncLockData(w, l, vm) && vm !in s.dataLocks
    ensures Executes(s, [Choice(t, Go)] + [Choice(t, Go)] + [Choice(t, Go)],
                     PushEntry(s, w, vm).(threads := s.threads[t := AsyncUnlockData(w, l, vm)] + [Acquire(w, l, Worker(vm), false)],
                                          locks := s.locks, dataLocks := s.dataLocks[vm := t]))
  {
    hide Executes, PushEntry;
    var go := [Choice(t, Go)];
    var s1 := Goto(s.(dataLocks := s.dataLocks[vm := t]), t, AsyncSpawn(w, l, vm));
    var threads := s.threads[t := AsyncPush(w, l, vm)] + [Acquire(w, l, Worker(vm), false)];
    var s2 := s.(threads := threads, locks := s.locks, dataLocks := s.dataLocks[vm := t]);
    AsyncLockStep(s, t);
    AsyncSpawnStep(s1, t);
    assert s2 == s1.(threads := s1.threads[t := AsyncPush(w, l, vm)] + [Acquire(w, l, Worker(vm), false)]);
    AsyncPushStep(s2, t);
    PushCommutes(s, threads, s.locks, s.dataLocks[vm := t], w, vm);
    assert threads[t := AsyncUnlockData(w, l, vm)] == s.threads[t := AsyncUnlockData(w, l, vm)] + [Acquire(w, l, Worker(vm), false)];
    var s3 := Goto(PushEntry(s2, w, vm), t, AsyncUnlockData(w, l, vm));
    ExecutesJoin(s, go, s1, go, s2);
    ExecutesJoin(s, go + go, s2, go, s3);
  }

  /** From there to the end of the call. */
  lemma AsyncFromPush(s: State, t: ThreadId)
    requires t < |s.threads| && s.threads[t].AsyncUnlockData?
    ensures var pc := s.threads[t];
            Executes(s, [Choice(t, Go)] + [Choice(t, Go)],
                     s.(threads := s.threads[t := Idle], locks := s.locks - {WaiterKey(pc.loc)}, dataLocks := s.dataLocks - {pc.vm}))
  {
    hide Executes, WaiterKey;
    var pc := s.threads[t];
    var s1 := Goto(s.(dataLocks := s.dataLocks - {pc.vm}), t, AsyncUnlock(pc.w, pc.loc));
    AsyncUnlockDataStep(s, t);
    AsyncUnlockStep(s1, t);
    var s2 := Goto(Unlock(s1, pc.loc), t, Idle);
    ExecutesJoin(s, [Choice(t, Go)], s1, [Choice(t, Go)], s2);
    assert s2.threads == s.threads[t := Idle];
  }

  /** From the queue to the end of the call. */
  lemma AsyncFinishes(s: State, t: ThreadId, w: WaiterId, l: Location, vm: VmId)
    requires t < |s.threads| && s.threads[t] == AsyncLockData(w, l, vm) && vm !in s.dataLocks
    ensures Executes(s, seq(5, _ => Choice(t, Go)),
                     PushEntry(s, w, vm).(threads := s.threads[t := Idle] + [Acquire(w, l, Worker(vm), false)],
                                          locks := s.locks - {WaiterKey(l)}, dataLocks := s.dataLocks))
  {
    hide Executes, PushEntry, WaiterKey;
    var threads := s.threads[t := AsyncUnlockData(w, l, vm)] + [Acquire(w, l, Worker(vm), false)];
    var s3 := PushEntry(s, w, vm).(threads := threads, locks := s.locks, dataLocks := s.dataLocks[vm := t]);
    AsyncToPush(s, t, w, l, vm);
    AsyncFromPush(s3, t);
    assert s.dataLocks[vm := t] - {vm} == s.dataLocks;
    assert threads[t := Idle] == s.threads[t := Idle] + [Acquire(w, l, Worker(vm), false)];
    var go := [Choice(t, Go)];
    ExecutesJoin(s, go + go + go, s3, go + go,
                 s3.(threads := threads[t := Idle], locks := s.locks - {WaiterKey(l)}, dataLocks := s.dataLocks));
    FiveSteps(t);
  }

  lemma FiveSteps(t: ThreadId)
    ensures var go := [Choice(t, Go)]; go + go + go + (go + go) == seq(5, _ => Choice(t, Go))
  {
  }

  /** `waitAsync` from the call to its return: one waiter, one entry, one worker, and the mutexes free again. */
  lemma AsyncWaitExecutes(s: State, t: ThreadId, r: Request)
    requires t < |s.threads| && s.threads[t].Idle? && WaiterKey(r.loc) !in s.locks && r.vm !in s.dataLocks
    requires CellAt(s, r.loc) == r.expected && r.isAsync && r.timeout != Millis(0.0)
    ensures Executes(s, AsyncSchedule(t, r), AsyncWaiting(s, t, r))
  {
    hide Executes, WaiterKey, AsyncSchedule, AsyncWaiting;
    var s2 := Lock(Goto(s, t, WaitCompare(r)), t, r.loc);
    WaitBegins(s, t, r);
    CompareDecides(s2, t, r);
    var s3 := Goto(s2, t, WaitEnqueue(r));
    ExecutesOne(s2, Choice(t, Go), s3);
    AsyncEnqueues(s3, t, r);
    var s4 := Goto(Enqueue(s3, r).next, t, AsyncLockData(|s.items|, r.loc, r.vm));
    AsyncFinishes(s4, t, |s.items|, r.loc, r.vm);
    var s9 := PushEntry(s4, |s.items|, r.vm)
              .(threads := s4.threads[t := Idle] + [Acquire(|s.items|, r.loc, Worker(r.vm), false)],
                locks := s4.locks - {WaiterKey(r.loc)}, dataLocks := s4.dataLocks);
    var a, go := [Choice(t, BeginWait(r)), Choice(t, Go)], [Choice(t, Go)];
    ExecutesJoin(s, a, s2, go, s3);
    ExecutesJoin(s, a + go, s3, go, s4);
    ExecutesJoin(s, a + go + go, s4, seq(5, _ => Choice(t, Go)), s9);
    AsyncScheduleIs(t, r);
    AsyncState(s, t, r);
  }

  lemma AsyncScheduleIs(t: ThreadId, r: Request)
    ensures [Choice(t, BeginWait(r)), Choice(t, Go)] + [Choice(t, Go)] + [Choice(t, Go)] + seq(5, _ => Choice(t, Go)) == AsyncSchedule(t, r)
  {
    var go := [Choice(t, Go)];
    assert go + go + seq(5, _ => Choice(t, Go)) == seq(7, _ => Choice(t, Go));
  }

  lemma AsyncState(s: State, t: ThreadId, r: Request)
    requires t < |s.threads| && s.threads[t].Idle? && WaiterKey(r.loc) !in s.locks
    ensures var s3 := Goto(Lock(Goto(s, t, WaitCompare(r)), t, r.loc), t, WaitEnqueue(r));
            var s4 := Goto(Enqueue(s3, r).next, t, AsyncLockData(|s.items|, r.loc, r.vm));
            PushEntry(s4, |s.items|, r.vm)
              .(threads := s4.threads[t := Idle] + [Acquire(|s.items|, r.loc, Worker(r.vm), false)],
                locks := s4.locks - {WaiterKey(r.loc)}, dataLocks := s4.dataLocks) == AsyncWaiting(s, t, r)
  {
    hide WaiterKey;
    var k := WaiterKey(r.loc);
    assert s.locks[k := t] - {k} == s.locks;
    assert s.threads[t := Idle] == s.threads;
  }
}
