/** Waiters, waiter lists and async entries: what every step of the protocol keeps about them. */
module AtomicsWaiters {
  import opened Common
  import opened Atomics
  import opened AtomicsInvariant

  ghost predicate Increasing(q: seq<WaiterId>)
  {
    forall i, j :: 0 <= i < j < |q| ==> q[i] < q[j]
  }

  function Key(item: Item): int
  {
    WaiterKey(item.req.loc)
  }

  /** The waiter a thread is responsible for; a waiter has at most one such thread. */
  function Handles(pc: PC): Option<WaiterId>
  {
    match pc
    case AsyncLockData(w, _, _) => Some(w)
    case AsyncSpawn(w, _, _) => Some(w)
    case Acquire(w, _, _, _) => Some(w)
    case Check(w, _, _, _) => Some(w)
    case Blocked(w, _, _) => Some(w)
    case Erase(w, _, _, _) => Some(w)
    case Leave(w, _, _, _) => Some(w)
    case ReportLock(w, _, _, _) => Some(w)
    case Report(w, _, _, _) => Some(w)
    case _ => None
  }

  predicate Known(items: seq<Item>, w: WaiterId, l: Location, mode: Mode)
  {
    && w < |items| && items[w].req.loc == l && items[w].req.isAsync == mode.Worker?
    && (mode.Worker? ==> items[w].req.vm == mode.vm)
  }

  /** What a thread knows about the waiter it is working for. */
  predicate KnowsWaiter(items: seq<Item>, pc: PC)
  {
    match pc
    case AsyncLockData(w, l, vm) => Known(items, w, l, Worker(vm)) && items[w].slot.None? && items[w].outcome.None? && !items[w].reported
    case AsyncSpawn(w, l, vm) => Known(items, w, l, Worker(vm)) && items[w].slot.None? && items[w].outcome.None? && !items[w].reported
    case AsyncPush(w, l, vm) => Known(items, w, l, Worker(vm)) && items[w].slot.None? && !items[w].reported
    case AsyncUnlockData(w, l, vm) => Known(items, w, l, Worker(vm))
    case Acquire(w, l, mode, timedOut) =>
      Known(items, w, l, mode) && items[w].outcome.None? && !items[w].reported && (timedOut ==> items[w].req.timeout.Millis?)
    case Check(w, l, mode, timedOut) =>
      Known(items, w, l, mode) && items[w].outcome.None? && !items[w].reported && (timedOut ==> items[w].req.timeout.Millis?)
    case Blocked(w, l, mode) => Known(items, w, l, mode) && items[w].outcome.None? && !items[w].reported
    case Erase(w, l, mode, n) =>
      && Known(items, w, l, mode) && items[w].outcome.None? && !items[w].reported && n == items[w].notified
      && (!n ==> items[w].req.timeout.Millis?)
    case Leave(w, l, mode, n) => Known(items, w, l, mode) && items[w].outcome == Some(n) && !items[w].reported
    case ReportLock(w, l, vm, n) => Known(items, w, l, Worker(vm)) && items[w].outcome == Some(n) && !items[w].reported
    case Report(w, l, vm, n) => Known(items, w, l, Worker(vm)) && items[w].outcome == Some(n) && !items[w].reported
    case ReportUnlock(w, l, vm) => Known(items, w, l, Worker(vm)) && items[w].reported
    case Finished(w, l) => w < |items| && items[w].req.isAsync && items[w].reported
    case _ => true
  }

  /** The agent that spawned the worker for `w` still holds the list mutex and has not pushed the entry. */
  predicate PushPending(s: State, w: WaiterId, l: Location)
  {
    && WaiterKey(l) in s.locks
    && s.locks[WaiterKey(l)] < |s.threads|
    && var pc := s.threads[s.locks[WaiterKey(l)]];
       pc.AsyncPush? && pc.w == w && pc.loc == l
  }

  predicate IsWorker(pc: PC)
  {
    match pc
    case Acquire(_, _, mode, _) => mode.Worker?
    case Check(_, _, mode, _) => mode.Worker?
    case Blocked(_, _, mode) => mode.Worker?
    case Erase(_, _, mode, _) => mode.Worker?
    case Leave(_, _, mode, _) => mode.Worker?
    case ReportLock(_, _, _, _) => true
    case Report(_, _, _, _) => true
    case _ => false
  }

  /** A worker past the list mutex has an entry to report into. */
  predicate HasEntry(s: State, pc: PC)
  {
    IsWorker(pc) ==>
      && pc.w < |s.items|
      && (s.items[pc.w].slot.Some? || (pc.Acquire? && PushPending(s, pc.w, pc.loc)))
  }

  predicate CountsRight(s: State, pc: PC)
  {
    pc.NotifyLoop? ==>
      var left := |ListAt(s, WaiterKey(pc.loc)).list|;
      && pc.n <= pc.total
      && pc.total - pc.n <= left
      && (pc.count.Unlimited? ==> pc.total - pc.n == left)
      && (pc.count.AtMost? ==> pc.total <= pc.count.n)
  }

  /** What a thread relies on between its steps. */
  ghost predicate Relies(s: State, pc: PC)
  {
    KnowsWaiter(s.items, pc) && HasEntry(s, pc) && CountsRight(s, pc)
  }

  ghost predicate ThreadsInv(s: State)
  {
    && (forall t :: 0 <= t < |s.threads| ==> Relies(s, s.threads[t]))
    && (forall t, u :: 0 <= t < u < |s.threads| && Handles(s.threads[t]).Some? ==>
          Handles(s.threads[t]) != Handles(s.threads[u]))
  }

  /** A waiter is queued exactly while it is un-notified and not departed. */
  ghost predicate Listed(item: Item, w: WaiterId, wl: WaiterList)
  {
    && (w in wl.list <==> !item.notified && item.outcome.None?)
    && (w in wl.log <==> item.notified)
    && (item.outcome.Some? ==> item.outcome.value == item.notified)
    && (item.outcome == Some(false) ==> item.req.timeout.Millis?)
  }

  /** A waiter with an entry is found there, and is reported only after it has departed. */
  ghost predicate Tabled(item: Item, w: WaiterId, table: Table)
  {
    && (item.reported ==> item.slot.Some? && item.outcome.Some?)
    && (item.slot.Some? ==>
          && item.slot.value < |table.entries|
          && table.entries[item.slot.value] ==
             Entry(w, if item.reported then None else Some(w), item.reported && item.notified))
  }

  ghost predicate ItemInv(s: State, w: WaiterId)
    requires w < |s.items|
  {
    var item := s.items[w];
    Listed(item, w, ListAt(s, Key(item))) && Tabled(item, w, TableAt(s, item.req.vm))
  }

  /** Notify calls in progress on key `k`: how many waiters the holder of the mutex has notified. */
  function InProgress(s: State, k: int): nat
  {
    if k in s.locks && s.locks[k] < |s.threads| && s.threads[s.locks[k]].NotifyLoop?
    then s.threads[s.locks[k]].n else 0
  }

  ghost predicate QueueInv(items: seq<Item>, k: int, wl: WaiterList)
  {
    && Increasing(wl.list)
    && Increasing(wl.log)
    && (forall w :: w in wl.list ==> w < |items| && Key(items[w]) == k)
    && (forall w :: w in wl.log ==> w < |items| && Key(items[w]) == k)
    && (forall v, w :: v in wl.log && w in wl.list ==> v < w)
    && |wl.calls| == |wl.log| && (forall i :: 0 <= i < |wl.calls| ==> WaiterKey(wl.calls[i]) == k)
  }

  ghost predicate ListsInv(s: State)
  {
    forall k :: QueueInv(s.items, k, ListAt(s, k)) &&
                |ListAt(s, k).log| == ListAt(s, k).returned + InProgress(s, k)
  }

  ghost predicate TableInv(items: seq<Item>, vm: VmId, table: Table)
  {
    && (forall i :: 0 <= i < |table.entries| ==>
          && table.entries[i].origin < |items|
          && items[table.entries[i].origin].slot == Some(i)
          && items[table.entries[i].origin].req.vm == vm)
    && table.pending == NullEntries(table.entries)
  }

  ghost predicate EntriesInv(s: State)
  {
    forall vm :: TableInv(s.items, vm, TableAt(s, vm))
  }

  ghost predicate ItemsInv(s: State)
  {
    forall w :: 0 <= w < |s.items| ==> ItemInv(s, w)
  }

  ghost predicate Inv(s: State)
  {
    LocksInv(s) && ThreadsInv(s) && ItemsInv(s) && ListsInv(s) && EntriesInv(s)
  }

  lemma {:induction false} WithoutMembers(q: seq<WaiterId>, w: WaiterId, x: WaiterId)
    ensures x in Without(q, w) <==> x in q && x != w
  {
    if q != [] {
      WithoutMembers(q[1..], w, x);
    }
  }

  lemma {:induction false} WithoutIncreasing(q: seq<WaiterId>, w: WaiterId)
    requires Increasing(q)
    ensures Increasing(Without(q, w))
  {
    if q != [] {
      WithoutIncreasing(q[1..], w);
      forall x | x in Without(q[1..], w) ensures q[0] < x {
        WithoutMembers(q[1..], w, x);
      }
      assert forall i :: 0 <= i < |Without(q[1..], w)| ==> Without(q[1..], w)[i] in Without(q[1..], w);
    }
  }

  /** `s'` is `s` after thread `t` made the move `m`. */
  ghost predicate Moved(s: State, t: ThreadId, m: Move, s': State)
  {
    && t < |s.threads|
    && LockEffect(s, t, s.threads[t], m)
    && |m.next.threads| >= |s.threads|
    && s' == Goto(m.next, t, m.pc)
  }

  /** Nothing but the thread's own position and the locks changes. */
  ghost predicate SameShared(s: State, s': State)
  {
    && s'.items == s.items && s'.lists == s.lists
    && s'.tables == s.tables
    && |s'.threads| == |s.threads|
  }

  ghost predicate QuietPC(s: State, pc: PC, pc': PC)
  {
    && KnowsWaiter(s.items, pc')
    && HasEntry(s, pc')
    && CountsRight(s, pc')
    && (Handles(pc').Some? ==> Handles(pc') == Handles(pc))
    && !pc.AsyncPush? && !pc.NotifyLoop?
    && (pc'.NotifyLoop? ==> pc'.n == 0)
  }

  lemma QuietThreads(s: State, t: ThreadId, m: Move, s': State)
    requires LocksInv(s) && ThreadsInv(s) && Moved(s, t, m, s')
    requires m.next.threads == s.threads
    requires SameShared(s, s') && QuietPC(s, s.threads[t], m.pc)
    requires m.pc.Acquire? ==> s.items[m.pc.w].slot.Some? || !IsWorker(m.pc)
    ensures ThreadsInv(s')
  {
    forall u | 0 <= u < |s.threads|
      ensures KnowsWaiter(s'.items, s'.threads[u]) && HasEntry(s', s'.threads[u]) && CountsRight(s', s'.threads[u])
    {
      if u != t && IsWorker(s.threads[u]) && s.items[s.threads[u].w].slot.None? {
        PushPendingStays(s, t, m, s', s.threads[u].w, s.threads[u].loc);
      }
    }
  }

  lemma PushPendingStays(s: State, t: ThreadId, m: Move, s': State, w: WaiterId, l: Location)
    requires LocksInv(s) && Moved(s, t, m, s') && m.next.threads == s.threads && !s.threads[t].AsyncPush?
    requires PushPending(s, w, l)
    ensures PushPending(s', w, l)
  {
    var k := WaiterKey(l);
    assert HeldKey(s.threads[t]) == Some(k) <==> k in s.locks && s.locks[k] == t;
  }

  lemma QuietLists(s: State, t: ThreadId, m: Move, s': State)
    requires LocksInv(s) && ListsInv(s) && Moved(s, t, m, s')
    requires m.next.threads == s.threads
    requires SameShared(s, s') && QuietPC(s, s.threads[t], m.pc)
    ensures ListsInv(s')
  {
    forall k
      ensures QueueInv(s'.items, k, ListAt(s', k)) &&
              |ListAt(s', k).log| == ListAt(s', k).returned + InProgress(s', k)
    {
      assert ListAt(s', k) == ListAt(s, k);
      assert HeldKey(s.threads[t]) == Some(k) <==> k in s.locks && s.locks[k] == t;
    }
  }

  lemma QuietItems(s: State, s': State)
    requires ItemsInv(s) && EntriesInv(s) && SameShared(s, s')
    ensures ItemsInv(s') && EntriesInv(s')
  {
    SameTables(s, s');
    forall w | 0 <= w < |s'.items| ensures ItemInv(s', w) {
      assert ItemInv(s, w);
      assert ListAt(s', Key(s.items[w])) == ListAt(s, Key(s.items[w]));
    }
  }

  /** No slot and no request changes: the tables stay in order. */
  lemma SameTables(s: State, s': State)
    requires EntriesInv(s) && s'.tables == s.tables && |s.items| <= |s'.items|
    requires forall w :: 0 <= w < |s.items| ==> s'.items[w].req == s.items[w].req && s'.items[w].slot == s.items[w].slot
    ensures EntriesInv(s')
  {
    forall v ensures TableInv(s'.items, v, TableAt(s', v)) {
      assert TableInv(s.items, v, TableAt(s, v));
    }
  }

  /** Two threads never hold the mutex of the same list. */
  lemma OneHolder(s: State, t: ThreadId, u: ThreadId, k: int)
    requires LocksInv(s) && t < |s.threads| && u < |s.threads| && u != t
    requires HeldKey(s.threads[t]) == Some(k)
    ensures HeldKey(s.threads[u]) != Some(k)
  {
    assert HeldKey(s.threads[t]) == Some(k) <==> k in s.locks && s.locks[k] == t;
  }

  /** A notifier of another list does not notice a change of the list of key `k`. */
  lemma OthersCount(s: State, t: ThreadId, u: ThreadId, k: int, s': State)
    requires LocksInv(s) && t < |s.threads| && u < |s.threads| && u != t
    requires HeldKey(s.threads[t]) == Some(k)
    requires CountsRight(s, s.threads[u])
    requires forall j :: j != k ==> ListAt(s', j).list == ListAt(s, j).list
    ensures CountsRight(s', s.threads[u])
  {
    OneHolder(s, t, u, k);
  }

  ghost predicate KeysKept(items: seq<Item>, items': seq<Item>)
  {
    |items| <= |items'| && forall w :: 0 <= w < |items| ==> Key(items'[w]) == Key(items[w])
  }

  /** Only the list of key `k` changes: it is enough to look at that one. */
  lemma OneListChanged(s: State, s': State, k: int)
    requires ListsInv(s) && KeysKept(s.items, s'.items)
    requires forall j :: j != k ==> ListAt(s', j) == ListAt(s, j) && InProgress(s', j) == InProgress(s, j)
    requires QueueInv(s'.items, k, ListAt(s', k))
    requires |ListAt(s', k).log| == ListAt(s', k).returned + InProgress(s', k)
    ensures ListsInv(s')
  {
    forall j
      ensures QueueInv(s'.items, j, ListAt(s', j)) &&
              |ListAt(s', j).log| == ListAt(s', j).returned + InProgress(s', j)
    {
      assert QueueInv(s.items, j, ListAt(s, j));
      if j != k {
        assert ListAt(s', j) == ListAt(s, j);
      }
    }
  }

  /** The same for the threads: the others must not notice, and the mover must know its new place. */
  lemma OneThreadMoved(s: State, t: ThreadId, pc: PC, s': State)
    requires ThreadsInv(s) && t < |s.threads| && s'.threads == s.threads[t := pc]
    requires Relies(s', pc)
    requires forall u :: 0 <= u < |s.threads| && u != t ==> Relies(s', s.threads[u])
    requires Handles(pc).Some? && Handles(pc) != Handles(s.threads[t]) ==>
               forall u :: 0 <= u < |s.threads| && u != t ==> Handles(s.threads[u]) != Handles(pc)
    ensures ThreadsInv(s')
  {
    hide KnowsWaiter, HasEntry, CountsRight, Handles;
  }

  // ---- adding a waiter ----

  lemma QueueAppend(items: seq<Item>, k: int, wl: WaiterList, item: Item)
    requires QueueInv(items, k, wl) && Key(item) == k
    ensures QueueInv(items + [item], k, wl.(list := wl.list + [|items|]))
  {
    forall i | 0 <= i < |wl.list| ensures wl.list[i] < |items| {
      assert wl.list[i] in wl.list;
    }
  }

  lemma KnowsMore(items: seq<Item>, item: Item, pc: PC)
    requires KnowsWaiter(items, pc)
    ensures KnowsWaiter(items + [item], pc)
    ensures Handles(pc) != Some(|items|)
  {
  }

  lemma EnqueueThreads(s: State, t: ThreadId, r: Request)
    requires LocksInv(s) && ThreadsInv(s) && t < |s.threads| && s.threads[t] == WaitEnqueue(r)
    ensures ThreadsInv(Goto(Enqueue(s, r).next, t, Enqueue(s, r).pc))
  {
    var m := Enqueue(s, r);
    var s' := Goto(m.next, t, m.pc);
    forall u | 0 <= u < |s.threads| && u != t
      ensures KnowsWaiter(s'.items, s.threads[u]) && Handles(s.threads[u]) != Some(|s.items|)
    {
      KnowsMore(s.items, Item(r, false, None, None, false), s.threads[u]);
    }
    forall u | 0 <= u < |s.threads| && u != t
      ensures HasEntry(s', s.threads[u])
    {
      assert HasEntry(s, s.threads[u]);
    }
    forall u | 0 <= u < |s.threads| && u != t
      ensures CountsRight(s', s.threads[u])
    {
      OthersCount(s, t, u, WaiterKey(r.loc), s');
    }
    OneThreadMoved(s, t, m.pc, s');
  }

  lemma EnqueueLists(s: State, t: ThreadId, r: Request)
    requires ListsInv(s) && t < |s.threads| && s.threads[t] == WaitEnqueue(r)
    ensures ListsInv(Goto(Enqueue(s, r).next, t, Enqueue(s, r).pc))
  {
    var m := Enqueue(s, r);
    var k := WaiterKey(r.loc);
    QueueAppend(s.items, k, ListAt(s, k), Item(r, false, None, None, false));
    OneListChanged(s, Goto(m.next, t, m.pc), k);
  }

  lemma EnqueueItems(s: State, t: ThreadId, r: Request)
    requires ItemsInv(s) && ListsInv(s) && EntriesInv(s) && t < |s.threads| && s.threads[t] == WaitEnqueue(r)
    ensures ItemsInv(Goto(Enqueue(s, r).next, t, Enqueue(s, r).pc))
    ensures EntriesInv(Goto(Enqueue(s, r).next, t, Enqueue(s, r).pc))
  {
    var s' := Goto(Enqueue(s, r).next, t, Enqueue(s, r).pc);
    SameTables(s, s');
    hide TableInv, Tabled;
    forall w | 0 <= w < |s'.items| ensures ItemInv(s', w) {
      if w < |s.items| {
        assert ItemInv(s, w);
      } else {
        assert QueueInv(s.items, WaiterKey(r.loc), ListAt(s, WaiterKey(r.loc)));
      }
    }
  }

  // ---- notifying a waiter ----

  function Notified(items: seq<Item>, f: WaiterId): seq<Item>
    requires f < |items|
  {
    items[f := items[f].(notified := true)]
  }

  lemma QueueNotify(items: seq<Item>, l: Location, wl: WaiterList)
    requires QueueInv(items, WaiterKey(l), wl) && |wl.list| > 0
    ensures wl.list[0] < |items|
    ensures QueueInv(Notified(items, wl.list[0]), WaiterKey(l),
                     wl.(list := wl.list[1..], log := wl.log + [wl.list[0]], calls := wl.calls + [l]))
    ensures forall w :: w in wl.list[1..] <==> w in wl.list && w != wl.list[0]
  {
    var f := wl.list[0];
    assert f in wl.list;
    HeadApart(wl.list);
    var log' := wl.log + [f];
    assert forall w :: w in log' <==> w in wl.log || w == f;
    assert Increasing(log') by {
      assert forall i :: 0 <= i < |wl.log| ==> wl.log[i] in wl.log;
    }
  }

  lemma HeadApart(q: seq<WaiterId>)
    requires Increasing(q) && |q| > 0
    ensures Increasing(q[1..])
    ensures forall w :: w in q[1..] <==> w in q && w != q[0]
    ensures forall w :: w in q[1..] ==> q[0] < w
  {
    assert q == [q[0]] + q[1..];
  }

  ghost predicate Notifying(s: State, t: ThreadId, l: Location)
  {
    && LocksInv(s) && ThreadsInv(s) && ListsInv(s)
    && t < |s.threads| && s.threads[t].NotifyLoop? && s.threads[t].loc == l
    && s.threads[t].n < s.threads[t].total
  }

  function AfterNotify(s: State, t: ThreadId): State
    requires t < |s.threads| && s.threads[t].NotifyLoop?
  {
    var pc := s.threads[t];
    var m := NotifyOne(s, pc.loc, pc.count, pc.n, pc.total);
    Goto(m.next, t, m.pc)
  }

  lemma NotifyKeepsKnowledge(s: State, t: ThreadId, l: Location, f: WaiterId, u: ThreadId)
    requires LocksInv(s) && ThreadsInv(s) && t < |s.threads| && u < |s.threads| && u != t
    requires HeldKey(s.threads[t]) == Some(WaiterKey(l))
    requires f < |s.items| && Key(s.items[f]) == WaiterKey(l)
    ensures KnowsWaiter(Notified(s.items, f), s.threads[u])
  {
    assert KnowsWaiter(s.items, s.threads[u]);
    OneHolder(s, t, u, WaiterKey(l));
  }

  /** What one turn of the notify loop changes. */
  lemma AfterNotifyIs(s: State, t: ThreadId, l: Location)
    requires t < |s.threads| && s.threads[t].NotifyLoop? && s.threads[t].loc == l && s.threads[t].n < s.threads[t].total
    requires var list := ListAt(s, WaiterKey(l)).list; |list| > 0 && list[0] < |s.items|
    ensures var s', pc, wl := AfterNotify(s, t), s.threads[t], ListAt(s, WaiterKey(l));
            && s'.items == Notified(s.items, wl.list[0]) && s'.locks == s.locks && s'.tables == s.tables
            && s'.threads == s.threads[t := NotifyLoop(l, pc.count, pc.n + 1, pc.total)]
            && s'.lists == s.lists[WaiterKey(l) := wl.(list := wl.list[1..], log := wl.log + [wl.list[0]], calls := wl.calls + [l])]
  {
  }

  lemma NotifyOthers(s: State, t: ThreadId, l: Location, u: ThreadId)
    requires Notifying(s, t, l) && u < |s.threads| && u != t
    ensures Relies(AfterNotify(s, t), s.threads[u])
  {
    var wl := ListAt(s, WaiterKey(l));
    assert CountsRight(s, s.threads[t]);
    QueueNotify(s.items, l, wl);
    assert wl.list[0] in wl.list;
    AfterNotifyIs(s, t, l);
    hide KnowsWaiter, CountsRight, QueueInv, AfterNotify;
    NotifyKeepsKnowledge(s, t, l, wl.list[0], u);
    assert HasEntry(s, s.threads[u]);
    OthersCount(s, t, u, WaiterKey(l), AfterNotify(s, t));
  }

  lemma NotifyThreads(s: State, t: ThreadId, l: Location)
    requires Notifying(s, t, l)
    ensures ThreadsInv(AfterNotify(s, t))
  {
    var pc, s' := s.threads[t], AfterNotify(s, t);
    var pc' := NotifyLoop(l, pc.count, pc.n + 1, pc.total);
    assert CountsRight(s, pc);
    assert s'.threads == s.threads[t := pc'] && Relies(s', pc') && Handles(pc').None?;
    hide AfterNotify, Notifying, KnowsWaiter, HasEntry, CountsRight, Handles;
    forall u | 0 <= u < |s.threads| && u != t ensures Relies(s', s.threads[u]) {
      NotifyOthers(s, t, l, u);
    }
    OneThreadMoved(s, t, pc', s');
  }

  lemma NotifyLists(s: State, t: ThreadId, l: Location)
    requires Notifying(s, t, l)
    ensures ListsInv(AfterNotify(s, t))
  {
    var k := WaiterKey(l);
    assert CountsRight(s, s.threads[t]);
    QueueNotify(s.items, l, ListAt(s, k));
    AfterNotifyIs(s, t, l);
    hide AfterNotify, QueueInv, CountsRight;
    assert HeldKey(s.threads[t]) == Some(k) <==> k in s.locks && s.locks[k] == t;
    forall j | j != k ensures InProgress(AfterNotify(s, t), j) == InProgress(s, j) {
      assert HeldKey(s.threads[t]) == Some(j) <==> j in s.locks && s.locks[j] == t;
    }
    OneListChanged(s, AfterNotify(s, t), k);
  }

  /** One waiter, after the first of the list `wl` was notified. */
  lemma NotifyItem(items: seq<Item>, w: WaiterId, f: WaiterId, wl: WaiterList, l: Location, table: Table)
    requires w < |items| && f < |items| && |wl.list| > 0 && wl.list[0] == f && Increasing(wl.list)
    requires Listed(items[w], w, wl) && Tabled(items[w], w, table)
    ensures var item := Notified(items, f)[w];
            && Listed(item, w, wl.(list := wl.list[1..], log := wl.log + [f], calls := wl.calls + [l]))
            && Tabled(item, w, table)
  {
    HeadApart(wl.list);
    assert f in wl.list;
  }

  lemma NotifyItems(s: State, t: ThreadId, l: Location)
    requires Notifying(s, t, l) && ItemsInv(s) && EntriesInv(s)
    ensures ItemsInv(AfterNotify(s, t)) && EntriesInv(AfterNotify(s, t))
  {
    var k, s' := WaiterKey(l), AfterNotify(s, t);
    var wl := ListAt(s, k);
    assert CountsRight(s, s.threads[t]);
    QueueNotify(s.items, l, wl);
    AfterNotifyIs(s, t, l);
    SameTables(s, s');
    assert QueueInv(s.items, k, wl) && wl.list[0] in wl.list;
    var f := wl.list[0];
    assert Increasing(wl.list) && Key(s.items[f]) == k;
    hide AfterNotify, TableInv, LocksInv, ThreadsInv, ListsInv, QueueInv, CountsRight, Listed, Tabled, Increasing, WaiterKey;
    forall w | 0 <= w < |s'.items| ensures ItemInv(s', w) {
      assert ItemInv(s, w);
      if Key(s.items[w]) == k {
        NotifyItem(s.items, w, f, wl, l, TableAt(s, s.items[w].req.vm));
      }
    }
  }

  /** Leaving the notify loop: the count of the call moves into the total. */
  lemma NotifyExit(s: State, t: ThreadId)
    requires Inv(s) && t < |s.threads| && s.threads[t].NotifyLoop? && s.threads[t].n == s.threads[t].total
    requires LocksInv(AfterNotify(s, t))
    ensures Inv(AfterNotify(s, t))
  {
    NotifyExitThreads(s, t);
    NotifyExitLists(s, t);
    NotifyExitItems(s, t);
  }

  lemma NotifyExitLists(s: State, t: ThreadId)
    requires LocksInv(s) && ListsInv(s)
    requires t < |s.threads| && s.threads[t].NotifyLoop? && s.threads[t].n == s.threads[t].total
    ensures ListsInv(AfterNotify(s, t))
  {
    var k, s' := WaiterKey(s.threads[t].loc), AfterNotify(s, t);
    forall j ensures HeldKey(s.threads[t]) == Some(j) <==> j in s.locks && s.locks[j] == t {
    }
    assert QueueInv(s.items, k, ListAt(s, k));
    hide QueueInv, HeldKey, LocksOk;
    forall j | j != k ensures InProgress(s', j) == InProgress(s, j) {
    }
    OneListChanged(s, s', k);
  }

  lemma NotifyExitItems(s: State, t: ThreadId)
    requires ItemsInv(s) && EntriesInv(s)
    requires t < |s.threads| && s.threads[t].NotifyLoop? && s.threads[t].n == s.threads[t].total
    ensures ItemsInv(AfterNotify(s, t)) && EntriesInv(AfterNotify(s, t))
  {
    var s' := AfterNotify(s, t);
    SameTables(s, s');
    hide TableInv, Tabled;
    forall w | 0 <= w < |s'.items| ensures ItemInv(s', w) {
      assert ItemInv(s, w);
    }
  }

  lemma NotifyExitThreads(s: State, t: ThreadId)
    requires Inv(s) && t < |s.threads| && s.threads[t].NotifyLoop? && s.threads[t].n == s.threads[t].total
    ensures ThreadsInv(AfterNotify(s, t))
  {
    var pc, s' := s.threads[t], AfterNotify(s, t);
    var k := WaiterKey(pc.loc);
    forall u | 0 <= u < |s.threads| && u != t
      ensures HasEntry(s', s.threads[u])
    {
      assert HasEntry(s, s.threads[u]);
      OneHolder(s, t, u, k);
      if IsWorker(s.threads[u]) && s.items[s.threads[u].w].slot.None? {
        var j := WaiterKey(s.threads[u].loc);
        assert HeldKey(s.threads[t]) == Some(j) <==> j in s.locks && s.locks[j] == t;
      }
    }
    OneThreadMoved(s, t, Idle, s');
  }

  // ---- a waiter departs ----

  function Departed(items: seq<Item>, w: WaiterId, notified: bool): seq<Item>
    requires w < |items|
  {
    items[w := items[w].(outcome := Some(notified))]
  }

  lemma QueueErase(items: seq<Item>, k: int, wl: WaiterList, w: WaiterId, notified: bool)
    requires QueueInv(items, k, wl) && w < |items|
    ensures QueueInv(Departed(items, w, notified), k, wl.(list := Without(wl.list, w)))
    ensures forall x :: x in Without(wl.list, w) <==> x in wl.list && x != w
  {
    WithoutIncreasing(wl.list, w);
    forall x ensures x in Without(wl.list, w) <==> x in wl.list && x != w {
      WithoutMembers(wl.list, w, x);
    }
  }

  function AfterErase(s: State, t: ThreadId): State
    requires t < |s.threads| && s.threads[t].Erase?
  {
    var pc := s.threads[t];
    Goto(EraseWaiter(s, pc.w, pc.loc, pc.notified), t, Leave(pc.w, pc.loc, pc.mode, pc.notified))
  }

  lemma EraseKeepsKnowledge(s: State, t: ThreadId, u: ThreadId)
    requires ThreadsInv(s) && t < |s.threads| && u < |s.threads| && u != t && s.threads[t].Erase?
    ensures s.threads[t].w < |s.items|
    ensures KnowsWaiter(Departed(s.items, s.threads[t].w, s.threads[t].notified), s.threads[u])
  {
    assert KnowsWaiter(s.items, s.threads[t]) && KnowsWaiter(s.items, s.threads[u]);
    assert Handles(s.threads[u]) != Handles(s.threads[t]);
  }

  lemma EraseThreads(s: State, t: ThreadId)
    requires LocksInv(s) && ThreadsInv(s) && t < |s.threads| && s.threads[t].Erase?
    ensures ThreadsInv(AfterErase(s, t))
  {
    var pc, s' := s.threads[t], AfterErase(s, t);
    assert KnowsWaiter(s.items, pc) && HasEntry(s, pc);
    forall u | 0 <= u < |s.threads| && u != t
      ensures KnowsWaiter(s'.items, s.threads[u]) && HasEntry(s', s.threads[u]) && CountsRight(s', s.threads[u])
    {
      EraseKeepsKnowledge(s, t, u);
      assert HasEntry(s, s.threads[u]);
      OthersCount(s, t, u, WaiterKey(pc.loc), s');
    }
    OneThreadMoved(s, t, Leave(pc.w, pc.loc, pc.mode, pc.notified), s');
  }

  lemma EraseLists(s: State, t: ThreadId)
    requires LocksInv(s) && ThreadsInv(s) && ListsInv(s) && t < |s.threads| && s.threads[t].Erase?
    ensures ListsInv(AfterErase(s, t))
  {
    var pc, s' := s.threads[t], AfterErase(s, t);
    var k := WaiterKey(pc.loc);
    assert KnowsWaiter(s.items, pc);
    QueueErase(s.items, k, ListAt(s, k), pc.w, pc.notified);
    assert HeldKey(s.threads[t]) == Some(k) <==> k in s.locks && s.locks[k] == t;
    OneListChanged(s, s', k);
  }

  lemma EraseItems(s: State, t: ThreadId)
    requires ThreadsInv(s) && ItemsInv(s) && ListsInv(s) && EntriesInv(s) && t < |s.threads| && s.threads[t].Erase?
    ensures ItemsInv(AfterErase(s, t)) && EntriesInv(AfterErase(s, t))
  {
    var pc, s' := s.threads[t], AfterErase(s, t);
    var k := WaiterKey(pc.loc);
    assert KnowsWaiter(s.items, pc);
    QueueErase(s.items, k, ListAt(s, k), pc.w, pc.notified);
    SameTables(s, s');
    hide TableInv, ThreadsInv, ListsInv, QueueInv;
    forall w | 0 <= w < |s'.items| ensures ItemInv(s', w) {
      assert ItemInv(s, w);
    }
  }

  // ---- the entry of an asynchronous wait ----

  /** The waiter lists stay as they are. */
  lemma SameLists(s: State, s': State)
    requires ListsInv(s) && KeysKept(s.items, s'.items) && s'.lists == s.lists
    requires forall j :: InProgress(s', j) == InProgress(s, j)
    ensures ListsInv(s')
  {
    forall j
      ensures QueueInv(s'.items, j, ListAt(s', j)) &&
              |ListAt(s', j).log| == ListAt(s', j).returned + InProgress(s', j)
    {
      assert QueueInv(s.items, j, ListAt(s, j));
    }
  }

  lemma SpawnKeepsInv(s: State, t: ThreadId, w: WaiterId, l: Location, vm: VmId, s': State)
    requires Inv(s) && t < |s.threads| && s.threads[t] == AsyncSpawn(w, l, vm)
    requires s' == Goto(SpawnMove(s, t, AsyncSpawn(w, l, vm)).next, t, AsyncPush(w, l, vm)) && LocksInv(s')
    ensures Inv(s')
  {
    assert s' == s.(threads := s.threads[t := AsyncPush(w, l, vm)] + [Acquire(w, l, Worker(vm), false)]);
    hide SpawnMove, Goto, ThreadsInv, ItemsInv, ListsInv, EntriesInv, LocksInv;
    SpawnThreads(s, t, w, l, vm, s');
    SpawnLists(s, t, w, l, vm, s');
    SpawnItems(s, s');
  }

  lemma SpawnLists(s: State, t: ThreadId, w: WaiterId, l: Location, vm: VmId, s': State)
    requires LocksInv(s) && ListsInv(s) && t < |s.threads| && s.threads[t] == AsyncSpawn(w, l, vm)
    requires s' == s.(threads := s.threads[t := AsyncPush(w, l, vm)] + [Acquire(w, l, Worker(vm), false)])
    ensures ListsInv(s')
  {
    hide ListsInv;
    forall j ensures InProgress(s', j) == InProgress(s, j) {
    }
    SameLists(s, s');
  }

  /** Only the threads change. */
  lemma SpawnItems(s: State, s': State)
    requires ItemsInv(s) && EntriesInv(s) && s' == s.(threads := s'.threads)
    ensures ItemsInv(s') && EntriesInv(s')
  {
    SameTables(s, s');
    hide TableInv, Listed, Tabled, EntriesInv;
    forall x | 0 <= x < |s'.items| ensures ItemInv(s', x) {
      assert ItemInv(s, x);
    }
  }

  lemma SpawnThreads(s: State, t: ThreadId, w: WaiterId, l: Location, vm: VmId, s': State)
    requires LocksInv(s) && ThreadsInv(s) && t < |s.threads| && s.threads[t] == AsyncSpawn(w, l, vm)
    requires s' == s.(threads := s.threads[t := AsyncPush(w, l, vm)] + [Acquire(w, l, Worker(vm), false)])
    ensures ThreadsInv(s')
  {
    assert KnowsWaiter(s.items, s.threads[t]);
    assert HeldKey(s.threads[t]) == Some(WaiterKey(l)) <==>
           WaiterKey(l) in s.locks && s.locks[WaiterKey(l)] == t;
    forall u | 0 <= u < |s'.threads|
      ensures KnowsWaiter(s'.items, s'.threads[u]) && HasEntry(s', s'.threads[u]) && CountsRight(s', s'.threads[u])
    {
      if u < |s.threads| {
        assert HasEntry(s, s.threads[u]) && CountsRight(s, s.threads[u]);
      }
    }
    forall u | 0 <= u < |s.threads| ensures Handles(s'.threads[u]) != Some(w) {
      assert u != t ==> Handles(s.threads[u]) != Handles(s.threads[t]);
    }
  }

  function AfterPush(s: State, t: ThreadId): State
    requires t < |s.threads| && s.threads[t].AsyncPush?
  {
    var pc := s.threads[t];
    Goto(PushEntry(s, pc.w, pc.vm), t, AsyncUnlockData(pc.w, pc.loc, pc.vm))
  }

  lemma PushThreads(s: State, t: ThreadId)
    requires LocksInv(s) && ThreadsInv(s) && t < |s.threads| && s.threads[t].AsyncPush?
    ensures ThreadsInv(AfterPush(s, t))
  {
    var pc, s' := s.threads[t], AfterPush(s, t);
    assert KnowsWaiter(s.items, pc);
    forall u | 0 <= u < |s.threads| && u != t
      ensures KnowsWaiter(s'.items, s.threads[u]) && HasEntry(s', s.threads[u]) && CountsRight(s', s.threads[u])
    {
      assert KnowsWaiter(s.items, s.threads[u]) && HasEntry(s, s.threads[u]);
      OthersCount(s, t, u, WaiterKey(pc.loc), s');
      OneHolder(s, t, u, WaiterKey(pc.loc));
    }
    OneThreadMoved(s, t, AsyncUnlockData(pc.w, pc.loc, pc.vm), s');
  }

  lemma {:induction false} NullEntriesAppend(entries: seq<Entry>, e: Entry)
    ensures NullEntries(entries + [e]) == NullEntries(entries) + NullEntries([e])
  {
    if entries == [] {
      assert [] + [e] == [e];
    } else {
      assert (entries + [e])[1..] == entries[1..] + [e];
      NullEntriesAppend(entries[1..], e);
    }
  }

  lemma {:induction false} NullEntriesUpdate(entries: seq<Entry>, i: nat, e: Entry)
    requires i < |entries| && entries[i].pointer.Some? && e.pointer.None?
    ensures NullEntries(entries[i := e]) == NullEntries(entries) + 1
  {
    if i == 0 {
      assert entries[i := e][1..] == entries[1..];
    } else {
      assert entries[i := e][1..] == entries[1..][i - 1 := e];
      NullEntriesUpdate(entries[1..], i - 1, e);
    }
  }

  lemma PushLists(s: State, t: ThreadId)
    requires ListsInv(s) && t < |s.threads| && s.threads[t].AsyncPush?
    ensures ListsInv(AfterPush(s, t))
  {
    SameLists(s, AfterPush(s, t));
  }

  /** Only the table of `vm` changes: it is enough to look at that one. */
  lemma OneTableChanged(s: State, s': State, vm: VmId)
    requires EntriesInv(s) && |s'.items| == |s.items|
    requires forall w :: 0 <= w < |s.items| ==>
               s'.items[w].req == s.items[w].req && (s.items[w].slot.Some? ==> s'.items[w].slot == s.items[w].slot)
    requires forall v :: v != vm ==> TableAt(s', v) == TableAt(s, v)
    requires TableInv(s'.items, vm, TableAt(s', vm))
    ensures EntriesInv(s')
  {
    forall v ensures TableInv(s'.items, v, TableAt(s', v)) {
      assert TableInv(s.items, v, TableAt(s, v));
    }
  }

  lemma PushEntries(s: State, t: ThreadId)
    requires ThreadsInv(s) && EntriesInv(s) && t < |s.threads| && s.threads[t].AsyncPush?
    ensures EntriesInv(AfterPush(s, t))
  {
    var pc := s.threads[t];
    assert KnowsWaiter(s.items, pc);
    var table := TableAt(s, pc.vm);
    assert TableInv(s.items, pc.vm, table);
    NullEntriesAppend(table.entries, Entry(pc.w, Some(pc.w), false));
    OneTableChanged(s, AfterPush(s, t), pc.vm);
  }

  lemma PushItems(s: State, t: ThreadId)
    requires ThreadsInv(s) && ItemsInv(s) && t < |s.threads| && s.threads[t].AsyncPush?
    ensures ItemsInv(AfterPush(s, t))
  {
    var pc, s' := s.threads[t], AfterPush(s, t);
    assert KnowsWaiter(s.items, pc);
    hide ThreadsInv, KnowsWaiter;
    forall w | 0 <= w < |s'.items| ensures ItemInv(s', w) {
      assert ItemInv(s, w);
    }
  }

  function AfterReport(s: State, t: ThreadId): State
    requires t < |s.threads| && s.threads[t].Report?
  {
    var pc := s.threads[t];
    Goto(ReportEntry(s, pc.w, pc.vm, pc.notified), t, ReportUnlock(pc.w, pc.loc, pc.vm))
  }

  /** The search of the worker stops at the entry pushed for its waiter, and there is no other. */
  lemma ReportFinds(s: State, t: ThreadId)
    requires ThreadsInv(s) && ItemsInv(s) && EntriesInv(s) && t < |s.threads| && s.threads[t].Report?
    ensures var w, entries := s.threads[t].w, TableAt(s, s.threads[t].vm).entries;
            && w < |s.items|
            && s.items[w].slot == Some(FindEntry(entries, w))
            && FindEntry(entries, w) < |entries|
            && entries[FindEntry(entries, w)] == Entry(w, Some(w), false)
            && forall i :: 0 <= i < |entries| && entries[i].pointer == Some(w) ==> i == FindEntry(entries, w)
  {
    var w, vm := s.threads[t].w, s.threads[t].vm;
    var entries := TableAt(s, vm).entries;
    assert KnowsWaiter(s.items, s.threads[t]) && HasEntry(s, s.threads[t]);
    assert ItemInv(s, w);
    assert TableInv(s.items, vm, TableAt(s, vm));
    forall i | 0 <= i < |entries| && entries[i].pointer == Some(w)
      ensures s.items[w].slot == Some(i)
    {
      assert ItemInv(s, entries[i].origin);
    }
  }

  lemma ReportThreads(s: State, t: ThreadId)
    requires ThreadsInv(s) && ItemsInv(s) && EntriesInv(s) && t < |s.threads| && s.threads[t].Report?
    ensures ThreadsInv(AfterReport(s, t))
  {
    var pc, s' := s.threads[t], AfterReport(s, t);
    ReportFinds(s, t);
    assert KnowsWaiter(s.items, pc);
    forall u | 0 <= u < |s.threads| && u != t
      ensures KnowsWaiter(s'.items, s.threads[u]) && HasEntry(s', s.threads[u]) && CountsRight(s', s.threads[u])
    {
      assert KnowsWaiter(s.items, s.threads[u]) && HasEntry(s, s.threads[u]) && CountsRight(s, s.threads[u]);
      assert Handles(s.threads[u]) != Handles(s.threads[t]);
    }
    OneThreadMoved(s, t, ReportUnlock(pc.w, pc.loc, pc.vm), s');
  }

  lemma ReportLists(s: State, t: ThreadId)
    requires ListsInv(s) && t < |s.threads| && s.threads[t].Report?
    ensures ListsInv(AfterReport(s, t))
  {
    SameLists(s, AfterReport(s, t));
  }

  lemma ReportEntries(s: State, t: ThreadId)
    requires ThreadsInv(s) && ItemsInv(s) && EntriesInv(s) && t < |s.threads| && s.threads[t].Report?
    ensures EntriesInv(AfterReport(s, t))
  {
    var pc := s.threads[t];
    ReportFinds(s, t);
    var table := TableAt(s, pc.vm);
    assert TableInv(s.items, pc.vm, table);
    hide ThreadsInv, ItemsInv, KnowsWaiter;
    var i := FindEntry(table.entries, pc.w);
    NullEntriesUpdate(table.entries, i, table.entries[i].(pointer := None, notified := pc.notified));
    OneTableChanged(s, AfterReport(s, t), pc.vm);
  }

  lemma ReportItems(s: State, t: ThreadId)
    requires ThreadsInv(s) && ItemsInv(s) && EntriesInv(s) && t < |s.threads| && s.threads[t].Report?
    ensures ItemsInv(AfterReport(s, t))
  {
    var pc, s' := s.threads[t], AfterReport(s, t);
    ReportFinds(s, t);
    assert KnowsWaiter(s.items, pc);
    assert ItemInv(s, pc.w);
    hide ThreadsInv, EntriesInv, KnowsWaiter;
    forall w | 0 <= w < |s'.items| ensures ItemInv(s', w) {
      assert ItemInv(s, w);
    }
  }

  // ---- every step ----

  /** The moves that change nothing but the mover's own place and the locks. */
  predicate IsQuiet(pc: PC, a: Action)
  {
    !a.Go? ||
    !(pc.WaitEnqueue? || pc.AsyncSpawn? || pc.AsyncPush? || pc.Erase? || pc.Report? || pc.NotifyLoop?)
  }

  lemma QuietExternal(s: State, t: ThreadId, a: Action)
    requires ThreadsInv(s) && Enabled(s, t, a) && !a.Go?
    ensures var m := MoveOf(s, t, a);
            SameShared(s, m.next) && m.next.threads == s.threads && QuietPC(s, s.threads[t], m.pc)
    ensures var m := MoveOf(s, t, a);
            m.pc.Acquire? ==> s.items[m.pc.w].slot.Some? || !IsWorker(m.pc)
  {
    assert KnowsWaiter(s.items, s.threads[t]) && HasEntry(s, s.threads[t]);
  }

  lemma QuietWait(s: State, t: ThreadId, pc: PC, m: Move)
    requires ThreadsInv(s) && t < |s.threads| && s.threads[t] == pc && IsQuiet(pc, Go)
    requires (InEntry(pc) && m == EntryMove(s, t, pc)) || (InSpawn(pc) && m == SpawnMove(s, t, pc))
    ensures SameShared(s, m.next) && m.next.threads == s.threads && QuietPC(s, pc, m.pc)
    ensures !m.pc.Acquire?
  {
    assert KnowsWaiter(s.items, pc) && HasEntry(s, pc);
  }

  lemma QuietResume(s: State, t: ThreadId, pc: PC, m: Move)
    requires ThreadsInv(s) && t < |s.threads| && s.threads[t] == pc && IsQuiet(pc, Go) && CanTake(s, pc)
    requires (InSuspend(pc) && m == SuspendMove(s, t, pc)) || (InReport(pc) && m == ReportMove(s, t, pc))
    ensures SameShared(s, m.next) && m.next.threads == s.threads && QuietPC(s, pc, m.pc)
    ensures !m.pc.Acquire?
  {
    assert KnowsWaiter(s.items, pc) && HasEntry(s, pc);
  }

  lemma QuietNotify(s: State, t: ThreadId, pc: PC, m: Move)
    requires IsQuiet(pc, Go) && InNotify(pc) && m == NotifyMove(s, t, pc)
    ensures SameShared(s, m.next) && m.next.threads == s.threads && QuietPC(s, pc, m.pc)
    ensures !m.pc.Acquire?
  {
  }

  lemma QuietGo(s: State, t: ThreadId, a: Action)
    requires ThreadsInv(s) && Enabled(s, t, a) && a.Go? && IsQuiet(s.threads[t], a)
    ensures var m := MoveOf(s, t, a);
            SameShared(s, m.next) && m.next.threads == s.threads && QuietPC(s, s.threads[t], m.pc) && !m.pc.Acquire?
  {
    var pc := s.threads[t];
    if InEntry(pc) || InSpawn(pc) {
      QuietWait(s, t, pc, MoveOf(s, t, a));
    } else if InSuspend(pc) || InReport(pc) {
      QuietResume(s, t, pc, MoveOf(s, t, a));
    } else {
      QuietNotify(s, t, pc, MoveOf(s, t, a));
    }
  }

  lemma QuietKeepsInv(s: State, t: ThreadId, a: Action)
    requires Inv(s) && Enabled(s, t, a) && IsQuiet(s.threads[t], a)
    ensures Inv(Step(s, t, a))
  {
    var m := MoveOf(s, t, a);
    MoveLockEffect(s, t, a);
    StepKeepsLocks(s, t, a);
    if a.Go? { QuietGo(s, t, a); } else { QuietExternal(s, t, a); }
    var s' := Goto(m.next, t, m.pc);
    QuietThreads(s, t, m, s');
    QuietLists(s, t, m, s');
    QuietItems(s, s');
  }

  lemma EnqueueKeepsInv(s: State, t: ThreadId)
    requires Inv(s) && t < |s.threads| && s.threads[t].WaitEnqueue? && Enabled(s, t, Go)
    ensures Inv(Step(s, t, Go))
  {
    var r := s.threads[t].req;
    StepKeepsLocks(s, t, Go);
    EnqueueThreads(s, t, r);
    EnqueueLists(s, t, r);
    EnqueueItems(s, t, r);
  }

  lemma PushKeepsInv(s: State, t: ThreadId)
    requires Inv(s) && t < |s.threads| && s.threads[t].AsyncPush? && LocksInv(AfterPush(s, t))
    ensures Inv(AfterPush(s, t))
  {
    PushThreads(s, t);
    PushLists(s, t);
    PushItems(s, t);
    PushEntries(s, t);
  }

  lemma EraseKeepsInv(s: State, t: ThreadId)
    requires Inv(s) && t < |s.threads| && s.threads[t].Erase? && LocksInv(AfterErase(s, t))
    ensures Inv(AfterErase(s, t))
  {
    EraseThreads(s, t);
    EraseLists(s, t);
    EraseItems(s, t);
  }

  lemma ReportKeepsInv(s: State, t: ThreadId)
    requires Inv(s) && t < |s.threads| && s.threads[t].Report? && LocksInv(AfterReport(s, t))
    ensures Inv(AfterReport(s, t))
  {
    ReportThreads(s, t);
    ReportLists(s, t);
    ReportItems(s, t);
    ReportEntries(s, t);
  }

  lemma NotifyKeepsInv(s: State, t: ThreadId)
    requires Inv(s) && t < |s.threads| && s.threads[t].NotifyLoop? && LocksInv(AfterNotify(s, t))
    ensures Inv(AfterNotify(s, t))
  {
    var pc := s.threads[t];
    assert CountsRight(s, pc);
    if pc.n < pc.total {
      NotifyThreads(s, t, pc.loc);
      NotifyLists(s, t, pc.loc);
      NotifyItems(s, t, pc.loc);
    } else {
      NotifyExit(s, t);
    }
  }

  /** Which named successor a step is. */
  lemma LoudSuccessor(s: State, t: ThreadId)
    requires Enabled(s, t, Go)
    ensures s.threads[t].AsyncPush? ==> Step(s, t, Go) == AfterPush(s, t)
    ensures s.threads[t].Erase? ==> Step(s, t, Go) == AfterErase(s, t)
    ensures s.threads[t].Report? ==> Step(s, t, Go) == AfterReport(s, t)
    ensures s.threads[t].NotifyLoop? ==> Step(s, t, Go) == AfterNotify(s, t)
  {
  }

  lemma LoudKeepsInv(s: State, t: ThreadId)
    requires Inv(s) && Enabled(s, t, Go) && !IsQuiet(s.threads[t], Go)
    ensures Inv(Step(s, t, Go))
  {
    StepKeepsLocks(s, t, Go);
    LoudSuccessor(s, t);
    var pc := s.threads[t];
    if pc.WaitEnqueue? { EnqueueKeepsInv(s, t); }
    else if pc.AsyncSpawn? { SpawnKeepsInv(s, t, pc.w, pc.loc, pc.vm, Step(s, t, Go)); }
    else if pc.AsyncPush? { PushKeepsInv(s, t); }
    else if pc.Erase? { EraseKeepsInv(s, t); }
    else if pc.Report? { ReportKeepsInv(s, t); }
    else { NotifyKeepsInv(s, t); }
  }

  lemma InitInv(cells: map<Location, int>, agents: nat)
    ensures Inv(Init(cells, agents))
  {
  }

  /** Every state of every run satisfies the invariant. */
  lemma {:induction false} RunInv(run: seq<State>, sched: seq<Choice>, cells: map<Location, int>, agents: nat, i: nat)
    requires IsRun(run, sched, cells, agents) && i < |run|
    ensures Inv(run[i])
  {
    if i == 0 {
      InitInv(cells, agents);
    } else {
      RunInv(run, sched, cells, agents, i - 1);
      var c := sched[i - 1];
      if IsQuiet(run[i - 1].threads[c.t], c.a) {
        QuietKeepsInv(run[i - 1], c.t, c.a);
      } else {
        LoudKeepsInv(run[i - 1], c.t);
      }
    }
  }
}
