/** What the wait/notify protocol guarantees in every run. */
module AtomicsTheorems {
  import opened Common
  import opened Atomics
  import opened AtomicsInvariant
  import opened AtomicsWaiters

  // ---- no lost wakeup ----

  /** No waiter that expects `v` at `l` is queued or about to be queued. */
  ghost predicate NonePending(s: State, l: Location, v: int)
  {
    && (forall w :: 0 <= w < |s.items| && s.items[w].req.loc == l && s.items[w].req.expected == v ==>
          w !in ListAt(s, WaiterKey(l)).list)
    && (forall t :: 0 <= t < |s.threads| && s.threads[t].WaitEnqueue? ==>
          !(s.threads[t].req.loc == l && s.threads[t].req.expected == v))
  }

  /** Thread `b` is inside a notify call on `l` without a limit. */
  predicate Draining(pc: PC, l: Location)
  {
    (pc.NotifyCount? || pc.NotifyLoop?) && pc.loc == l && pc.count.Unlimited?
  }

  ghost predicate RequestsKept(items: seq<Item>, items': seq<Item>)
  {
    |items| <= |items'| && forall w :: 0 <= w < |items| ==> items'[w].req == items[w].req
  }

  /** Only the enqueue step adds a waiter, and every other step leaves the lists alone or shrinks them. */
  ghost predicate AddsOnly(s: State, pc: PC, s': State)
  {
    && RequestsKept(s.items, s'.items)
    && (|s'.items| > |s.items| ==>
          pc.WaitEnqueue? && |s'.items| == |s.items| + 1 && s'.items[|s.items|].req == pc.req)
    && (forall k, w :: w in ListAt(s', k).list ==>
          w in ListAt(s, k).list || (|s'.items| > |s.items| && w == |s.items|))
  }

  lemma EraseAdds(s: State, pc: PC, w: WaiterId, l: Location, notified: bool)
    ensures AddsOnly(s, pc, EraseWaiter(s, w, l, notified))
  {
    var wl := ListAt(s, WaiterKey(l));
    forall x | x in Without(wl.list, w) ensures x in wl.list {
      WithoutMembers(wl.list, w, x);
    }
  }

  /** A step of the notify loop changes one list, and no request. */
  lemma NotifyOneIs(s: State, l: Location, c: Count, n: nat, total: nat)
    ensures var s', wl := NotifyOne(s, l, c, n, total).next, ListAt(s, WaiterKey(l));
            && |s'.items| == |s.items| && RequestsKept(s.items, s'.items)
            && WaiterKey(l) in s'.lists && s'.lists == s.lists[WaiterKey(l) := s'.lists[WaiterKey(l)]]
            && var list := s'.lists[WaiterKey(l)].list; list == wl.list || (|wl.list| > 0 && list == wl.list[1..])
  {
    hide WaiterKey, ListAt;
  }

  lemma NotifyAdds(s: State, pc: PC, l: Location, c: Count, n: nat, total: nat)
    ensures AddsOnly(s, pc, NotifyOne(s, l, c, n, total).next)
  {
    hide WaiterKey, NotifyOne, RequestsKept;
    NotifyOneIs(s, l, c, n, total);
  }

  lemma EnqueueAdds(s: State, r: Request)
    ensures AddsOnly(s, WaitEnqueue(r), Enqueue(s, r).next)
  {
  }

  lemma PushAdds(s: State, pc: PC, w: WaiterId, vm: VmId)
    ensures AddsOnly(s, pc, PushEntry(s, w, vm))
  {
    hide TableAt;
  }

  lemma ReportAdds(s: State, pc: PC, w: WaiterId, vm: VmId, notified: bool)
    ensures AddsOnly(s, pc, ReportEntry(s, w, vm, notified))
  {
    hide TableAt, FindEntry;
  }

  lemma NothingAdds(s: State, pc: PC, s': State)
    requires s'.lists == s.lists && s'.items == s.items
    ensures AddsOnly(s, pc, s')
  {
  }

  lemma StepAdds(s: State, t: ThreadId, a: Action)
    requires LocksInv(s) && ThreadsInv(s) && Enabled(s, t, a)
    ensures AddsOnly(s, s.threads[t], MoveOf(s, t, a).next)
  {
    hide AddsOnly, LocksInv, ThreadsInv, NotifyOne, EraseWaiter, Enqueue, PushEntry, ReportEntry, QuietPC;
    var pc := s.threads[t];
    var m := MoveOf(s, t, a);
    if IsQuiet(pc, a) {
      if a.Go? { QuietGo(s, t, a); } else { QuietExternal(s, t, a); }
      NothingAdds(s, pc, m.next);
    } else if pc.WaitEnqueue? {
      EnqueueAdds(s, pc.req);
    } else if pc.Erase? {
      EraseAdds(s, pc, pc.w, pc.loc, pc.notified);
    } else if pc.NotifyLoop? {
      NotifyAdds(s, pc, pc.loc, pc.count, pc.n, pc.total);
    } else if pc.AsyncSpawn? {
      NothingAdds(s, pc, m.next);
    } else if pc.AsyncPush? {
      PushAdds(s, pc, pc.w, pc.vm);
    } else {
      ReportAdds(s, pc, pc.w, pc.vm, pc.notified);
    }
  }

  /** A thread reaches the enqueue step only by finding the expected value in the cell. */
  lemma EnqueueComparedEqual(s: State, t: ThreadId, a: Action)
    requires Enabled(s, t, a) && MoveOf(s, t, a).pc.WaitEnqueue?
    ensures var r := MoveOf(s, t, a).pc.req;
            s.threads[t] == WaitCompare(r) && CellAt(s, r.loc) == r.expected
  {
  }

  lemma NonePendingStays(s: State, t: ThreadId, a: Action, l: Location, v: int)
    requires Inv(s) && Enabled(s, t, a) && NonePending(s, l, v) && CellAt(s, l) != v
    ensures NonePending(Step(s, t, a), l, v)
  {
    var m, s' := MoveOf(s, t, a), Step(s, t, a);
    StepAdds(s, t, a);
    MoveLockEffect(s, t, a);
    forall u | 0 <= u < |s'.threads| && s'.threads[u].WaitEnqueue?
      ensures !(s'.threads[u].req.loc == l && s'.threads[u].req.expected == v)
    {
      if u == t {
        EnqueueComparedEqual(s, t, a);
      }
    }
  }

  /** Leaving an unlimited notify call means that the list is empty. */
  lemma DrainEnds(s: State, t: ThreadId, l: Location, v: int)
    requires Inv(s) && Enabled(s, t, Go) && Draining(s.threads[t], l) && !Draining(Step(s, t, Go).threads[t], l)
    ensures NonePending(Step(s, t, Go), l, v)
  {
    var s' := Step(s, t, Go);
    assert CountsRight(s, s.threads[t]);
    assert ListAt(s', WaiterKey(l)).list == [];
    forall u | 0 <= u < |s'.threads| && s'.threads[u].WaitEnqueue?
      ensures s'.threads[u].req.loc != l
    {
      OneHolder(s, t, u, WaiterKey(l));
    }
  }

  ghost predicate Drained(s: State, b: ThreadId, l: Location, v: int)
  {
    b < |s.threads| && (Draining(s.threads[b], l) || NonePending(s, l, v))
  }

  /** From the moment the notifier owns the mutex, it is either still draining or nothing is pending. */
  lemma DrainStep(s: State, t: ThreadId, a: Action, b: ThreadId, l: Location, v: int)
    requires Inv(s) && Enabled(s, t, a) && CellAt(s, l) != v && Drained(s, b, l, v)
    ensures Drained(Step(s, t, a), b, l, v)
  {
    hide MoveOf, Inv, NonePending, CellAt;
    MoveLockEffect(s, t, a);
    if NonePending(s, l, v) {
      NonePendingStays(s, t, a, l, v);
    } else if t == b && !Draining(Step(s, t, a).threads[b], l) {
      DrainEnds(s, t, l, v);
    }
  }

  lemma DrainBegins(s: State, b: ThreadId, l: Location, v: int)
    requires Enabled(s, b, Go) && s.threads[b] == NotifyLock(l, Unlimited)
    ensures Drained(Step(s, b, Go), b, l, v)
  {
  }

  lemma {:induction false} DrainRun(
      run: seq<State>, sched: seq<Choice>, cells: map<Location, int>, agents: nat,
      l: Location, v: int, p: nat, b: ThreadId, j: nat)
    requires IsRun(run, sched, cells, agents) && p < j < |run|
    requires forall i :: p < i < j ==> CellAt(run[i], l) != v
    requires b < |run[p].threads| && run[p].threads[b] == NotifyLock(l, Unlimited) && sched[p] == Choice(b, Go)
    ensures Drained(run[j], b, l, v)
  {
    hide Inv, NonePending, CellAt, Drained;
    if j == p + 1 {
      DrainBegins(run[p], b, l, v);
    } else {
      DrainRun(run, sched, cells, agents, l, v, p, b, j - 1);
      RunInv(run, sched, cells, agents, j - 1);
      DrainStep(run[j - 1], sched[j - 1].t, sched[j - 1].a, b, l, v);
    }
  }

  /**
   * No lost wakeup.  An agent stores a value other than `v` at step `i`, the cell
   * never holds `v` again, and later some thread `b` runs an unlimited notify on
   * the location: it takes the mutex at step `p` and is back at `q`.  Then at no
   * later state is a waiter that expected `v` still queued, whatever the schedule.
   */
  lemma NoLostWakeup(
      run: seq<State>, sched: seq<Choice>, cells: map<Location, int>, agents: nat,
      l: Location, v: int, x: int, i: nat, a: ThreadId, p: nat, b: ThreadId, q: nat, j: nat)
    requires IsRun(run, sched, cells, agents) && i < p < q <= j < |run|
    requires sched[i] == Choice(a, Store(l, x)) && x != v
    requires forall n :: i < n <= j ==> CellAt(run[n], l) != v
    requires b < |run[p].threads| && run[p].threads[b] == NotifyLock(l, Unlimited) && sched[p] == Choice(b, Go)
    requires b < |run[q].threads| && run[q].threads[b].Idle?
    ensures forall w :: 0 <= w < |run[j].items| && run[j].items[w].req.loc == l && run[j].items[w].req.expected == v ==>
              && w !in ListAt(run[j], WaiterKey(l)).list
              && (run[j].items[w].notified || run[j].items[w].outcome == Some(false))
  {
    DrainRun(run, sched, cells, agents, l, v, p, b, q);
    StaysQuiet(run, sched, cells, agents, l, v, q, j);
    RunInv(run, sched, cells, agents, j);
    forall w | 0 <= w < |run[j].items| && run[j].items[w].req.loc == l && run[j].items[w].req.expected == v
      ensures run[j].items[w].notified || run[j].items[w].outcome == Some(false)
    {
      assert ItemInv(run[j], w);
    }
  }

  lemma {:induction false} StaysQuiet(
      run: seq<State>, sched: seq<Choice>, cells: map<Location, int>, agents: nat,
      l: Location, v: int, q: nat, j: nat)
    requires IsRun(run, sched, cells, agents) && q <= j < |run|
    requires forall n :: q <= n <= j ==> CellAt(run[n], l) != v
    requires NonePending(run[q], l, v)
    ensures NonePending(run[j], l, v)
  {
    hide Step, Inv, NonePending, CellAt;
    if j > q {
      StaysQuiet(run, sched, cells, agents, l, v, q, j - 1);
      RunInv(run, sched, cells, agents, j - 1);
      NonePendingStays(run[j - 1], sched[j - 1].t, sched[j - 1].a, l, v);
    }
  }

  // ---- conservation ----

  /**
   * Every waiter ever enqueued is in exactly one place: still queued, notified, or
   * departed by timeout; and it ends "ok" exactly when it was notified.
   */
  lemma WaiterConservation(
      run: seq<State>, sched: seq<Choice>, cells: map<Location, int>, agents: nat, j: nat, w: WaiterId)
    requires IsRun(run, sched, cells, agents) && j < |run| && w < |run[j].items|
    ensures var s := run[j]; var item := s.items[w]; var wl := ListAt(s, Key(item));
            && (w in wl.list <==> !item.notified && item.outcome.None?)
            && (w in wl.log <==> item.notified)
            && (w in wl.list ==> w !in wl.log)
            && (item.outcome.Some? ==> (item.outcome.value <==> w in wl.log))
            && (w in wl.list || w in wl.log || item.outcome == Some(false))
  {
    RunInv(run, sched, cells, agents, j);
    assert ItemInv(run[j], w);
  }

  /**
   * First in, first out: when a waiter has been notified, every waiter that entered
   * the same list before it was notified before it, or left by timeout.  No waiter
   * is notified twice.
   */
  lemma NotifiedInOrder(
      run: seq<State>, sched: seq<Choice>, cells: map<Location, int>, agents: nat, j: nat,
      v: WaiterId, w: WaiterId)
    requires IsRun(run, sched, cells, agents) && j < |run| && v < w < |run[j].items|
    requires Key(run[j].items[v]) == Key(run[j].items[w]) && run[j].items[w].notified
    ensures var log := ListAt(run[j], Key(run[j].items[w])).log;
            && (forall m, n :: 0 <= m < n < |log| ==> log[m] != log[n])
            && (run[j].items[v].outcome == Some(false) ||
                exists m, n :: 0 <= m < n < |log| && log[m] == v && log[n] == w)
  {
    RunInv(run, sched, cells, agents, j);
    var s := run[j];
    var wl := ListAt(s, Key(s.items[w]));
    assert ItemInv(s, v) && ItemInv(s, w);
    assert QueueInv(s.items, Key(s.items[w]), wl);
    if s.items[v].outcome != Some(false) {
      assert v in wl.log;
      var m :| 0 <= m < |wl.log| && wl.log[m] == v;
      var n :| 0 <= n < |wl.log| && wl.log[n] == w;
      assert m < n;
    }
  }

  /** The notify calls on a list have returned, in sum, exactly the number of waiters notified there. */
  lemma NotifyReturnsAddUp(
      run: seq<State>, sched: seq<Choice>, cells: map<Location, int>, agents: nat, j: nat, k: int)
    requires IsRun(run, sched, cells, agents) && j < |run|
    requires forall t :: 0 <= t < |run[j].threads| && run[j].threads[t].NotifyLoop? ==> WaiterKey(run[j].threads[t].loc) != k
    ensures ListAt(run[j], k).returned == |ListAt(run[j], k).log|
    ensures ListAt(run[j], k).returned == |set w | 0 <= w < |run[j].items| && Key(run[j].items[w]) == k && run[j].items[w].notified|
  {
    RunInv(run, sched, cells, agents, j);
    var s := run[j];
    var wl := ListAt(s, k);
    assert QueueInv(s.items, k, wl);
    if k in s.locks {
      assert HeldKey(s.threads[s.locks[k]]) == Some(k) <==> k in s.locks && s.locks[k] == s.locks[k];
    }
    IncreasingSize(wl.log);
    forall w ensures w in Elements(wl.log) <==> 0 <= w < |s.items| && Key(s.items[w]) == k && s.items[w].notified {
      if 0 <= w < |s.items| {
        assert ItemInv(s, w);
      }
    }
    assert Elements(wl.log) == (set w | 0 <= w < |s.items| && Key(s.items[w]) == k && s.items[w].notified);
  }

  function Elements(q: seq<WaiterId>): set<WaiterId>
  {
    set w | w in q
  }

  lemma {:induction false} IncreasingSize(q: seq<WaiterId>)
    requires Increasing(q)
    ensures |Elements(q)| == |q|
  {
    if q != [] {
      var init, last := q[..|q| - 1], q[|q| - 1];
      IncreasingSize(init);
      assert forall i :: 0 <= i < |init| ==> init[i] < last;
      assert last !in Elements(init);
      assert Elements(q) == Elements(init) + {last} by {
        assert q == init + [last];
      }
    }
  }

  // ---- reports of asynchronous waits ----

  /**
   * A worker at its report step finds exactly one entry for its waiter, clears it and
   * raises the pending count by one.
   */
  lemma WorkerReports(
      run: seq<State>, sched: seq<Choice>, cells: map<Location, int>, agents: nat, j: nat, t: ThreadId)
    requires IsRun(run, sched, cells, agents) && j < |run| && t < |run[j].threads| && run[j].threads[t].Report?
    ensures var s := run[j]; var w, vm := s.threads[t].w, s.threads[t].vm; var s' := Step(s, t, Go);
            var before, after := TableAt(s, vm), TableAt(s', vm);
            && (exists i :: 0 <= i < |before.entries| && before.entries[i].pointer == Some(w))
            && (forall i, n :: 0 <= i < n < |before.entries| ==>
                  !(before.entries[i].pointer == Some(w) && before.entries[n].pointer == Some(w)))
            && after.pending == before.pending + 1
            && (forall i :: 0 <= i < |after.entries| ==> after.entries[i].pointer != Some(w))
            && (exists i :: 0 <= i < |after.entries| && after.entries[i] == Entry(w, None, s.items[w].notified))
            && (forall v :: v != vm ==> TableAt(s', v) == TableAt(s, v))
  {
    RunInv(run, sched, cells, agents, j);
    var s := run[j];
    var w, vm := s.threads[t].w, s.threads[t].vm;
    ReportFinds(s, t);
    LoudSuccessor(s, t);
    assert KnowsWaiter(s.items, s.threads[t]);
    assert ItemInv(s, w);
    hide Inv, KnowsWaiter, Step, MoveOf, HeldKey, HeldData;
    var i := FindEntry(TableAt(s, vm).entries, w);
    assert TableAt(Step(s, t, Go), vm).entries[i] == Entry(w, None, s.items[w].notified);
  }

  /** Position `i` in the table of `vm` was pushed for waiter `w`. */
  predicate EntryOf(s: State, vm: VmId, i: int, w: WaiterId)
  {
    0 <= i < |TableAt(s, vm).entries| && TableAt(s, vm).entries[i].origin == w
  }

  lemma OneEntry(s: State, u: VmId, i: int, v: VmId, n: int, w: WaiterId)
    requires EntriesInv(s) && EntryOf(s, u, i, w) && EntryOf(s, v, n, w)
    ensures u == v && i == n
  {
    assert TableInv(s.items, u, TableAt(s, u)) && TableInv(s.items, v, TableAt(s, v));
  }

  /**
   * A worker whose entry is not pushed yet is still waiting for the list mutex and
   * cannot get it: the agent that started the worker holds it and is about to push.
   * So every worker past the mutex has exactly one entry in all tables.
   */
  lemma WorkerBehindEntry(
      run: seq<State>, sched: seq<Choice>, cells: map<Location, int>, agents: nat, j: nat, t: ThreadId)
    requires IsRun(run, sched, cells, agents) && j < |run| && t < |run[j].threads| && IsWorker(run[j].threads[t])
    ensures var s := run[j]; var pc := s.threads[t];
            || (pc.w < |s.items| && var entries := TableAt(s, s.items[pc.w].req.vm).entries;
                exists i :: 0 <= i < |entries| && entries[i] == Entry(pc.w, Some(pc.w), false))
            || (pc.Acquire? && !Enabled(s, t, Go) && PushPending(s, pc.w, pc.loc))
    ensures var s := run[j]; var w := s.threads[t].w;
            forall u, v, i, n :: EntryOf(s, u, i, w) && EntryOf(s, v, n, w) ==> u == v && i == n
  {
    RunInv(run, sched, cells, agents, j);
    var s := run[j];
    var pc := s.threads[t];
    assert Relies(s, pc);
    hide EntryOf, LocksInv, ListsInv, QueueInv, TableInv, CountsRight, Handles;
    if s.items[pc.w].slot.Some? {
      assert ItemInv(s, pc.w);
      assert TableAt(s, s.items[pc.w].req.vm).entries[s.items[pc.w].slot.value] == Entry(pc.w, Some(pc.w), false);
    }
    forall u, v, i, n | EntryOf(s, u, i, pc.w) && EntryOf(s, v, n, pc.w) ensures u == v && i == n {
      OneEntry(s, u, i, v, n, pc.w);
    }
  }

  /** The pending count of a VM instance is the number of its finished asynchronous waits, each counted once. */
  lemma PendingCountsReports(
      run: seq<State>, sched: seq<Choice>, cells: map<Location, int>, agents: nat, j: nat, vm: VmId)
    requires IsRun(run, sched, cells, agents) && j < |run|
    ensures var s := run[j]; var table := TableAt(s, vm); var entries := table.entries;
            && table.pending == NullEntries(entries)
            && (forall i, n :: 0 <= i < n < |entries| ==> entries[i].origin != entries[n].origin)
            && (forall i :: 0 <= i < |entries| ==>
                  && entries[i].origin < |s.items| && s.items[entries[i].origin].req.vm == vm
                  && (entries[i].pointer.None? <==> s.items[entries[i].origin].reported))
            && (forall t :: 0 <= t < |s.threads| && s.threads[t].Finished? ==>
                  s.threads[t].w < |s.items| && s.items[s.threads[t].w].reported)
  {
    RunInv(run, sched, cells, agents, j);
    var s := run[j];
    var entries := TableAt(s, vm).entries;
    assert TableInv(s.items, vm, TableAt(s, vm));
    forall i | 0 <= i < |entries|
      ensures entries[i].pointer.None? <==> s.items[entries[i].origin].reported
    {
      assert ItemInv(s, entries[i].origin);
    }
    forall t | 0 <= t < |s.threads| && s.threads[t].Finished?
      ensures s.threads[t].w < |s.items| && s.items[s.threads[t].w].reported
    {
      assert KnowsWaiter(s.items, s.threads[t]);
    }
  }

  // ---- deadlock freedom ----

  /**
   * If some thread is neither at rest nor suspended on its condition variable, then
   * some such thread can step.
   */
  lemma DeadlockFree(
      run: seq<State>, sched: seq<Choice>, cells: map<Location, int>, agents: nat, j: nat, t: ThreadId)
      returns (u: ThreadId)
    requires IsRun(run, sched, cells, agents) && j < |run|
    requires t < |run[j].threads| && !Resting(run[j].threads[t])
    ensures u < |run[j].threads| && !Resting(run[j].threads[u]) && Enabled(run[j], u, Go)
  {
    RunInv(run, sched, cells, agents, j);
    u := FreeThread(run[j], t);
  }

  /** Follow the locks: from a thread to the owner of the list mutex it wants, and on to the owner of the data mutex. */
  lemma FreeThread(s: State, t: ThreadId) returns (u: ThreadId)
    requires LocksInv(s) && t < |s.threads| && !Resting(s.threads[t])
    ensures u < |s.threads| && !Resting(s.threads[u]) && Enabled(s, u, Go)
  {
    u := t;
    if WantedKey(s.threads[u]).Some? && WantedKey(s.threads[u]).value in s.locks {
      var k := WantedKey(s.threads[u]).value;
      u := s.locks[k];
      assert HeldKey(s.threads[u]) == Some(k) <==> k in s.locks && s.locks[k] == u;
    }
    if WantedData(s.threads[u]).Some? && WantedData(s.threads[u]).value in s.dataLocks {
      var vm := WantedData(s.threads[u]).value;
      u := s.dataLocks[vm];
      assert HeldData(s.threads[u]) == Some(vm) <==> vm in s.dataLocks && s.dataLocks[vm] == u;
    }
  }
}
