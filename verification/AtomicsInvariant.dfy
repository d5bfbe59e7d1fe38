/** What every step of the wait/notify protocol keeps. */
module AtomicsInvariant {
  import opened Common
  import opened Atomics

  /** A mutex is owned by exactly the thread whose program counter lies in its critical section. */
  ghost predicate LocksOk(threads: seq<PC>, locks: map<int, ThreadId>, dataLocks: map<VmId, ThreadId>)
  {
    && (forall t, k {:trigger threads[t], k in locks} :: 0 <= t < |threads| ==>
          (HeldKey(threads[t]) == Some(k) <==> k in locks && locks[k] == t))
    && (forall k :: k in locks ==> locks[k] < |threads|)
    && (forall t, vm {:trigger threads[t], vm in dataLocks} :: 0 <= t < |threads| ==>
          (HeldData(threads[t]) == Some(vm) <==> vm in dataLocks && dataLocks[vm] == t))
    && (forall vm :: vm in dataLocks ==> dataLocks[vm] < |threads|)
  }

  ghost predicate LocksInv(s: State)
  {
    LocksOk(s.threads, s.locks, s.dataLocks)
  }

  function LocksAfter(locks: map<int, ThreadId>, t: ThreadId, before: Option<int>, after: Option<int>): map<int, ThreadId>
  {
    if before == after then locks
    else if after.Some? then locks[after.value := t]
    else locks - {before.value}
  }

  function Spawned(pc: PC, a: Action): seq<PC>
  {
    if a.Go? && pc.AsyncSpawn? then [Acquire(pc.w, pc.loc, Worker(pc.vm), false)] else []
  }

  /** A mutex that is newly held was free, and no other one is held. */
  predicate TakesFree(locks: map<int, ThreadId>, before: Option<int>, after: Option<int>)
  {
    after.Some? ==> after == before || (before.None? && after.value !in locks)
  }

  /** What one move does to the two kinds of mutex. */
  ghost predicate LockEffect(s: State, t: ThreadId, pc: PC, m: Move)
  {
    && m.next.locks == LocksAfter(s.locks, t, HeldKey(pc), HeldKey(m.pc))
    && m.next.dataLocks == LocksAfter(s.dataLocks, t, HeldData(pc), HeldData(m.pc))
    && TakesFree(s.locks, HeldKey(pc), HeldKey(m.pc))
    && TakesFree(s.dataLocks, HeldData(pc), HeldData(m.pc))
  }

  lemma EntryLockEffect(s: State, t: ThreadId, pc: PC)
    requires InEntry(pc) && CanTake(s, pc)
    ensures LockEffect(s, t, pc, EntryMove(s, t, pc))
    ensures EntryMove(s, t, pc).next.threads == s.threads + Spawned(pc, Go)
  {
  }

  lemma SpawnLockEffect(s: State, t: ThreadId, pc: PC)
    requires InSpawn(pc) && CanTake(s, pc)
    ensures LockEffect(s, t, pc, SpawnMove(s, t, pc))
    ensures SpawnMove(s, t, pc).next.threads == s.threads + Spawned(pc, Go)
  {
    hide TableAt, FindEntry;
  }

  lemma EraseLocks(s: State, w: WaiterId, l: Location, notified: bool)
    ensures var s' := EraseWaiter(s, w, l, notified); s'.locks == s.locks && s'.dataLocks == s.dataLocks && s'.threads == s.threads
  {
    hide ListAt, Without;
  }

  lemma AcquireLockEffect(s: State, t: ThreadId, pc: PC)
    requires pc.Acquire? && CanTake(s, pc)
    ensures LockEffect(s, t, pc, SuspendMove(s, t, pc))
    ensures SuspendMove(s, t, pc).next.threads == s.threads + Spawned(pc, Go)
  {
    hide WaiterKey;
  }

  lemma CheckLockEffect(s: State, t: ThreadId, pc: PC)
    requires pc.Check? && CanTake(s, pc)
    ensures LockEffect(s, t, pc, SuspendMove(s, t, pc))
    ensures SuspendMove(s, t, pc).next.threads == s.threads + Spawned(pc, Go)
  {
    hide WaiterKey;
  }

  lemma EraseLockEffect(s: State, t: ThreadId, pc: PC)
    requires pc.Erase? && CanTake(s, pc)
    ensures LockEffect(s, t, pc, SuspendMove(s, t, pc))
    ensures SuspendMove(s, t, pc).next.threads == s.threads + Spawned(pc, Go)
  {
    hide WaiterKey, EraseWaiter;
    EraseLocks(s, pc.w, pc.loc, pc.notified);
  }

  lemma LeaveLockEffect(s: State, t: ThreadId, pc: PC)
    requires pc.Leave? && CanTake(s, pc)
    ensures LockEffect(s, t, pc, SuspendMove(s, t, pc))
    ensures SuspendMove(s, t, pc).next.threads == s.threads + Spawned(pc, Go)
  {
    hide WaiterKey;
  }

  lemma SuspendLockEffect(s: State, t: ThreadId, pc: PC)
    requires InSuspend(pc) && CanTake(s, pc)
    ensures LockEffect(s, t, pc, SuspendMove(s, t, pc))
    ensures SuspendMove(s, t, pc).next.threads == s.threads + Spawned(pc, Go)
  {
    hide LockEffect, SuspendMove, CanTake, Spawned;
    match pc {
      case Acquire(_, _, _, _) => AcquireLockEffect(s, t, pc);
      case Check(_, _, _, _) => CheckLockEffect(s, t, pc);
      case Erase(_, _, _, _) => EraseLockEffect(s, t, pc);
      case Leave(_, _, _, _) => LeaveLockEffect(s, t, pc);
    }
  }

  lemma ReportedLocks(s: State, w: WaiterId, vm: VmId, notified: bool)
    ensures var s' := ReportEntry(s, w, vm, notified); s'.locks == s.locks && s'.dataLocks == s.dataLocks && s'.threads == s.threads
  {
    hide TableAt, FindEntry;
  }

  lemma ReportLockEffect(s: State, t: ThreadId, pc: PC)
    requires InReport(pc) && CanTake(s, pc)
    ensures LockEffect(s, t, pc, ReportMove(s, t, pc))
    ensures ReportMove(s, t, pc).next.threads == s.threads + Spawned(pc, Go)
  {
    hide ReportEntry, WaiterKey;
    if pc.Report? {
      ReportedLocks(s, pc.w, pc.vm, pc.notified);
    }
  }

  lemma NotifyOneLocks(s: State, l: Location, c: Count, n: nat, total: nat)
    ensures var m := NotifyOne(s, l, c, n, total);
            && m.next.dataLocks == s.dataLocks && m.next.threads == s.threads
            && ((m.pc == NotifyLoop(l, c, n + 1, total) && m.next.locks == s.locks)
                || (m.pc == Idle && m.next.locks == s.locks - {WaiterKey(l)}))
  {
    hide ListAt, WaiterKey;
  }

  lemma NotifyLockLockEffect(s: State, t: ThreadId, pc: PC)
    requires pc.NotifyLock? && CanTake(s, pc)
    ensures LockEffect(s, t, pc, NotifyMove(s, t, pc))
    ensures NotifyMove(s, t, pc).next.threads == s.threads + Spawned(pc, Go)
  {
    hide WaiterKey;
  }

  lemma NotifyCountLockEffect(s: State, t: ThreadId, pc: PC)
    requires pc.NotifyCount? && CanTake(s, pc)
    ensures LockEffect(s, t, pc, NotifyMove(s, t, pc))
    ensures NotifyMove(s, t, pc).next.threads == s.threads + Spawned(pc, Go)
  {
    hide WaiterKey, ListAt;
  }

  lemma NotifyLoopLockEffect(s: State, t: ThreadId, pc: PC)
    requires pc.NotifyLoop? && CanTake(s, pc)
    ensures LockEffect(s, t, pc, NotifyMove(s, t, pc))
    ensures NotifyMove(s, t, pc).next.threads == s.threads + Spawned(pc, Go)
  {
    hide WaiterKey, NotifyOne;
    NotifyOneLocks(s, pc.loc, pc.count, pc.n, pc.total);
  }

  lemma NotifyLockEffect(s: State, t: ThreadId, pc: PC)
    requires InNotify(pc) && CanTake(s, pc)
    ensures LockEffect(s, t, pc, NotifyMove(s, t, pc))
    ensures NotifyMove(s, t, pc).next.threads == s.threads + Spawned(pc, Go)
  {
    hide LockEffect, NotifyMove, CanTake, Spawned;
    match pc {
      case NotifyLock(_, _) => NotifyLockLockEffect(s, t, pc);
      case NotifyCount(_, _) => NotifyCountLockEffect(s, t, pc);
      case NotifyLoop(_, _, _, _) => NotifyLoopLockEffect(s, t, pc);
    }
  }

  lemma MoveLockEffect(s: State, t: ThreadId, a: Action)
    requires Enabled(s, t, a)
    ensures LockEffect(s, t, s.threads[t], MoveOf(s, t, a))
    ensures MoveOf(s, t, a).next.threads == s.threads + Spawned(s.threads[t], a)
  {
    var pc := s.threads[t];
    if !a.Go? {
    } else if InEntry(pc) { EntryLockEffect(s, t, pc); }
    else if InSpawn(pc) { SpawnLockEffect(s, t, pc); }
    else if InSuspend(pc) { SuspendLockEffect(s, t, pc); }
    else if InReport(pc) { ReportLockEffect(s, t, pc); }
    else { NotifyLockEffect(s, t, pc); }
  }

  /** One kind of mutex: `held` says which one each thread holds. */
  ghost predicate OwnersOk(held: seq<Option<int>>, locks: map<int, ThreadId>)
  {
    && (forall t, k {:trigger held[t], k in locks} :: 0 <= t < |held| ==>
          (held[t] == Some(k) <==> k in locks && locks[k] == t))
    && (forall k :: k in locks ==> locks[k] < |held|)
  }

  /** One thread moves, and threads that hold nothing are added. */
  lemma OwnersKept(held: seq<Option<int>>, locks: map<int, ThreadId>, t: ThreadId, now: Option<int>, more: seq<Option<int>>)
    requires OwnersOk(held, locks) && t < |held| && TakesFree(locks, held[t], now)
    requires forall i :: 0 <= i < |more| ==> more[i].None?
    ensures OwnersOk(held[t := now] + more, LocksAfter(locks, t, held[t], now))
  {
    var held', locks' := held[t := now] + more, LocksAfter(locks, t, held[t], now);
    forall u, k | 0 <= u < |held'|
      ensures held'[u] == Some(k) <==> k in locks' && locks'[k] == u
    {
      assert held[t] == Some(k) <==> k in locks && locks[k] == t;
      if u < |held| {
        assert held[u] == Some(k) <==> k in locks && locks[k] == u;
      }
    }
  }

  function HeldKeys(threads: seq<PC>): seq<Option<int>>
  {
    seq(|threads|, i requires 0 <= i < |threads| => HeldKey(threads[i]))
  }

  function HeldDatas(threads: seq<PC>): seq<Option<int>>
  {
    seq(|threads|, i requires 0 <= i < |threads| => HeldData(threads[i]))
  }

  lemma LocksAreOwners(threads: seq<PC>, locks: map<int, ThreadId>, dataLocks: map<VmId, ThreadId>)
    ensures LocksOk(threads, locks, dataLocks) <==> OwnersOk(HeldKeys(threads), locks) && OwnersOk(HeldDatas(threads), dataLocks)
  {
    hide HeldKey, HeldData;
    if OwnersOk(HeldKeys(threads), locks) && OwnersOk(HeldDatas(threads), dataLocks) {
      forall t, k | 0 <= t < |threads| ensures HeldKey(threads[t]) == Some(k) <==> k in locks && locks[k] == t {
        assert HeldKeys(threads)[t] == HeldKey(threads[t]);
      }
      forall t, vm | 0 <= t < |threads| ensures HeldData(threads[t]) == Some(vm) <==> vm in dataLocks && dataLocks[vm] == t {
        assert HeldDatas(threads)[t] == HeldData(threads[t]);
      }
    }
    if LocksOk(threads, locks, dataLocks) {
      forall t, k | 0 <= t < |threads| ensures HeldKeys(threads)[t] == Some(k) <==> k in locks && locks[k] == t {
        assert HeldKeys(threads)[t] == HeldKey(threads[t]);
      }
      forall t, vm | 0 <= t < |threads| ensures HeldDatas(threads)[t] == Some(vm) <==> vm in dataLocks && dataLocks[vm] == t {
        assert HeldDatas(threads)[t] == HeldData(threads[t]);
      }
    }
  }

  /** The same for both kinds at once. */
  lemma LocksKept(threads: seq<PC>, locks: map<int, ThreadId>, dataLocks: map<VmId, ThreadId>, t: ThreadId, pc: PC, more: seq<PC>)
    requires LocksOk(threads, locks, dataLocks) && t < |threads|
    requires TakesFree(locks, HeldKey(threads[t]), HeldKey(pc)) && TakesFree(dataLocks, HeldData(threads[t]), HeldData(pc))
    requires forall i :: 0 <= i < |more| ==> HeldKey(more[i]).None? && HeldData(more[i]).None?
    ensures LocksOk(threads[t := pc] + more,
                    LocksAfter(locks, t, HeldKey(threads[t]), HeldKey(pc)),
                    LocksAfter(dataLocks, t, HeldData(threads[t]), HeldData(pc)))
  {
    hide HeldKey, HeldData, LocksOk, OwnersOk, LocksAfter, TakesFree;
    var threads' := threads[t := pc] + more;
    LocksAreOwners(threads, locks, dataLocks);
    OwnersKept(HeldKeys(threads), locks, t, HeldKey(pc), HeldKeys(more));
    OwnersKept(HeldDatas(threads), dataLocks, t, HeldData(pc), HeldDatas(more));
    assert HeldKeys(threads') == HeldKeys(threads)[t := HeldKey(pc)] + HeldKeys(more);
    assert HeldDatas(threads') == HeldDatas(threads)[t := HeldData(pc)] + HeldDatas(more);
    LocksAreOwners(threads', LocksAfter(locks, t, HeldKey(threads[t]), HeldKey(pc)),
                   LocksAfter(dataLocks, t, HeldData(threads[t]), HeldData(pc)));
  }

  lemma StepKeepsLocks(s: State, t: ThreadId, a: Action)
    requires LocksInv(s) && Enabled(s, t, a)
    ensures LocksInv(Step(s, t, a))
  {
    var more := Spawned(s.threads[t], a);
    assert forall i :: 0 <= i < |more| ==> HeldKey(more[i]).None? && HeldData(more[i]).None?;
    hide MoveOf, HeldKey, HeldData, LocksOk, LocksAfter, TakesFree, Spawned;
    MoveLockEffect(s, t, a);
    var m := MoveOf(s, t, a);
    LocksKept(s.threads, s.locks, s.dataLocks, t, m.pc, more);
    assert (s.threads + more)[t := m.pc] == s.threads[t := m.pc] + more;
  }
}
