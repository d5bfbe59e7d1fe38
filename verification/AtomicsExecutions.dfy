/** Schedules of the wait/notify protocol, and what the calls do when a thread is left to run. */
module AtomicsExecutions {
  import opened Common
  import opened Atomics
  import opened AtomicsNotify

  /** The schedule `sched` leads from `s` to `s'`. */
  ghost predicate Executes(s: State, sched: seq<Choice>, s': State)
    decreases |sched|
  {
    if sched == [] then s' == s
    else Enabled(s, sched[0].t, sched[0].a) && Executes(Step(s, sched[0].t, sched[0].a), sched[1..], s')
  }

  lemma {:induction false} ExecutesJoin(s: State, a: seq<Choice>, s1: State, b: seq<Choice>, s2: State)
    requires Executes(s, a, s1) && Executes(s1, b, s2)
    ensures Executes(s, a + b, s2)
    decreases |a|
  {
    hide Step, Enabled;
    if a == [] {
      assert a + b == b;
    } else {
      assert (a + b)[1..] == a[1..] + b;
      ExecutesJoin(Step(s, a[0].t, a[0].a), a[1..], s1, b, s2);
    }
  }

  lemma ExecutesOne(s: State, c: Choice, s': State)
    requires Enabled(s, c.t, c.a) && s' == Step(s, c.t, c.a)
    ensures Executes(s, [c], s')
  {
    hide Step, Enabled;
    assert [c][1..] == [];
    assert Executes(s', [], s');
  }

  lemma {:induction false} StepsExecute(s: State, t: ThreadId, n: nat, s': State)
    requires StepsTo(s, t, n, s')
    ensures Executes(s, seq(n, _ => Choice(t, Go)), s')
    decreases n
  {
    hide Step, Enabled;
    var sched := seq(n, _ => Choice(t, Go));
    if n > 0 {
      StepsExecute(Step(s, t, Go), t, n - 1, s');
      assert sched[1..] == seq(n - 1, _ => Choice(t, Go));
    }
  }

  /** An execution is a run. */
  lemma {:induction false} ExecutionStates(s: State, sched: seq<Choice>, s': State) returns (states: seq<State>)
    requires Executes(s, sched, s')
    ensures |states| == |sched| + 1 && states[0] == s && states[|sched|] == s'
    ensures forall i :: 0 <= i < |sched| ==>
              Enabled(states[i], sched[i].t, sched[i].a) && states[i + 1] == Step(states[i], sched[i].t, sched[i].a)
    decreases |sched|
  {
    hide Step, Enabled;
    if sched == [] {
      states := [s];
    } else {
      var rest := ExecutionStates(Step(s, sched[0].t, sched[0].a), sched[1..], s');
      states := [s] + rest;
    }
  }

  function WaitSchedule(t: ThreadId, r: Request): seq<Choice>
  {
    [Choice(t, BeginWait(r)), Choice(t, Go), Choice(t, Go), Choice(t, Go), Choice(t, Go)]
  }

  lemma WaitScheduleIs(t: ThreadId, r: Request)
    ensures [Choice(t, BeginWait(r)), Choice(t, Go)] + [Choice(t, Go)] + [Choice(t, Go)] + [Choice(t, Go)] == WaitSchedule(t, r)
  {
  }

  /** A synchronous wait that finds the expected value: one more waiter, and the agent suspended. */
  function Waiting(s: State, t: ThreadId, r: Request): State
  {
    var wl := ListAt(s, WaiterKey(r.loc));
    Goto(WithList(s.(items := s.items + [Item(r, false, None, None, false)]), r.loc, wl.(list := wl.list + [|s.items|])),
         t, Blocked(|s.items|, r.loc, Sync))
  }

  lemma WaitBegins(s: State, t: ThreadId, r: Request)
    requires t < |s.threads| && s.threads[t].Idle? && WaiterKey(r.loc) !in s.locks
    ensures Executes(s, [Choice(t, BeginWait(r)), Choice(t, Go)], Lock(Goto(s, t, WaitCompare(r)), t, r.loc))
  {
    var s1 := Step(s, t, BeginWait(r));
    assert s1 == Goto(s, t, WaitLock(r));
    var s2 := Step(s1, t, Go);
    assert s2 == Lock(Goto(s, t, WaitCompare(r)), t, r.loc);
    ExecutesOne(s, Choice(t, BeginWait(r)), s1);
    ExecutesOne(s1, Choice(t, Go), s2);
    ExecutesJoin(s, [Choice(t, BeginWait(r))], s1, [Choice(t, Go)], s2);
    assert [Choice(t, BeginWait(r))] + [Choice(t, Go)] == [Choice(t, BeginWait(r)), Choice(t, Go)];
  }

  lemma WaitCompares(s: State, t: ThreadId, r: Request)
    requires t < |s.threads| && s.threads[t] == WaitCompare(r) && CellAt(s, r.loc) == r.expected && !r.isAsync
    ensures Executes(s, [Choice(t, Go)], Goto(s, t, WaitEnqueue(r)))
  {
    hide WaiterKey, Executes, MoveOf, Enabled, CellAt;
    StepOf(s, t);
    ExecutesMove(s, t, EntryMove(s, t, s.threads[t]));
  }

  lemma EnqueueSuspends(s: State, r: Request)
    requires !r.isAsync
    ensures Enqueue(s, r).pc == Check(|s.items|, r.loc, Sync, false)
  {
    hide ListAt, WaiterKey;
  }

  lemma WaitEnqueues(s: State, t: ThreadId, r: Request)
    requires t < |s.threads| && s.threads[t] == WaitEnqueue(r) && !r.isAsync
    ensures Executes(s, [Choice(t, Go)], Goto(Enqueue(s, r).next, t, Check(|s.items|, r.loc, Sync, false)))
  {
    hide ListAt, WaiterKey, Enqueue, Executes, MoveOf, Enabled;
    EnqueueSuspends(s, r);
    StepOf(s, t);
    ExecutesMove(s, t, EntryMove(s, t, s.threads[t]));
  }

  lemma WaitSuspends(s: State, t: ThreadId, w: WaiterId, l: Location)
    requires t < |s.threads| && s.threads[t] == Check(w, l, Sync, false) && w < |s.items| && !s.items[w].notified
    ensures Executes(s, [Choice(t, Go)], Goto(Unlock(s, l), t, Blocked(w, l, Sync)))
  {
    hide WaiterKey, Executes, MoveOf, Enabled;
    StepOf(s, t);
    ExecutesMove(s, t, SuspendMove(s, t, s.threads[t]));
  }

  /** Where the five steps lead. */
  lemma WaitingState(s: State, t: ThreadId, r: Request)
    requires t < |s.threads| && WaiterKey(r.loc) !in s.locks
    ensures var s3 := Lock(Goto(s, t, WaitEnqueue(r)), t, r.loc);
            var s4 := Goto(Enqueue(s3, r).next, t, Check(|s.items|, r.loc, Sync, false));
            Goto(Unlock(s4, r.loc), t, Blocked(|s.items|, r.loc, Sync)) == Waiting(s, t, r)
  {
    hide WaiterKey;
    var k := WaiterKey(r.loc);
    assert s.locks[k := t] - {k} == s.locks;
  }

  lemma WaitExecutes(s: State, t: ThreadId, r: Request)
    requires t < |s.threads| && s.threads[t].Idle? && WaiterKey(r.loc) !in s.locks
    requires CellAt(s, r.loc) == r.expected && !r.isAsync
    ensures Executes(s, WaitSchedule(t, r), Waiting(s, t, r))
  {
    hide Executes, Waiting, WaiterKey, ListAt, WaitSchedule;
    var s2 := Lock(Goto(s, t, WaitCompare(r)), t, r.loc);
    var s3 := Goto(s2, t, WaitEnqueue(r));
    assert s3 == Lock(Goto(s, t, WaitEnqueue(r)), t, r.loc);
    var s4 := Goto(Enqueue(s3, r).next, t, Check(|s.items|, r.loc, Sync, false));
    var s5 := Goto(Unlock(s4, r.loc), t, Blocked(|s.items|, r.loc, Sync));
    WaitBegins(s, t, r);
    WaitCompares(s2, t, r);
    WaitEnqueues(s3, t, r);
    WaitSuspends(s4, t, |s.items|, r.loc);
    WaitingState(s, t, r);
    var a, go := [Choice(t, BeginWait(r)), Choice(t, Go)], [Choice(t, Go)];
    ExecutesJoin(s, a, s2, go, s3);
    ExecutesJoin(s, a + go, s3, go, s4);
    ExecutesJoin(s, a + go + go, s4, go, s5);
    WaitScheduleIs(t, r);
  }

  // ---- single steps ----

  lemma ExecutesMove(s: State, t: ThreadId, m: Move)
    requires Enabled(s, t, Go) && MoveOf(s, t, Go) == m
    ensures Executes(s, [Choice(t, Go)], Goto(m.next, t, m.pc))
  {
    hide MoveOf, Enabled, Executes;
    ExecutesOne(s, Choice(t, Go), Step(s, t, Go));
  }

  /** Which part of the protocol a step belongs to. */
  lemma StepOf(s: State, t: ThreadId)
    requires t < |s.threads| && CanTake(s, s.threads[t]) && !Resting(s.threads[t])
    ensures var pc := s.threads[t];
            && Enabled(s, t, Go)
            && (InSuspend(pc) ==> MoveOf(s, t, Go) == SuspendMove(s, t, pc))
            && (InSpawn(pc) ==> MoveOf(s, t, Go) == SpawnMove(s, t, pc))
            && (InEntry(pc) ==> MoveOf(s, t, Go) == EntryMove(s, t, pc))
  {
    hide SuspendMove, SpawnMove, EntryMove, ReportMove, NotifyMove, CanTake;
  }

  lemma WakeStep(s: State, t: ThreadId, a: Action)
    requires t < |s.threads| && s.threads[t].Blocked? && (a == Wake || (a == Expire && Enabled(s, t, a)))
    ensures var pc := s.threads[t]; Executes(s, [Choice(t, a)], Goto(s, t, Acquire(pc.w, pc.loc, pc.mode, a == Expire)))
  {
    ExecutesOne(s, Choice(t, a), Step(s, t, a));
  }

  lemma AcquireStep(s: State, t: ThreadId)
    requires t < |s.threads| && s.threads[t].Acquire? && WaiterKey(s.threads[t].loc) !in s.locks
    ensures var pc := s.threads[t];
            Executes(s, [Choice(t, Go)], Lock(Goto(s, t, Check(pc.w, pc.loc, pc.mode, pc.timedOut)), t, pc.loc))
  {
    hide WaiterKey, Executes, MoveOf, Enabled;
    StepOf(s, t);
    ExecutesMove(s, t, SuspendMove(s, t, s.threads[t]));
  }

  /** The predicate of the condition variable: leave when notified or timed out, else sleep again. */
  lemma CheckStep(s: State, t: ThreadId)
    requires t < |s.threads| && s.threads[t].Check? && s.threads[t].w < |s.items|
    ensures var pc := s.threads[t];
            && (s.items[pc.w].notified ==>
                  Executes(s, [Choice(t, Go)], Goto(s, t, Erase(pc.w, pc.loc, pc.mode, true))))
            && (!s.items[pc.w].notified && pc.timedOut ==>
                  Executes(s, [Choice(t, Go)], Goto(s, t, Erase(pc.w, pc.loc, pc.mode, false))))
            && (!s.items[pc.w].notified && !pc.timedOut ==>
                  Executes(s, [Choice(t, Go)], Goto(Unlock(s, pc.loc), t, Blocked(pc.w, pc.loc, pc.mode))))
  {
    hide WaiterKey, Executes, MoveOf, Enabled;
    StepOf(s, t);
    ExecutesMove(s, t, SuspendMove(s, t, s.threads[t]));
  }

  lemma EraseStep(s: State, t: ThreadId)
    requires t < |s.threads| && s.threads[t].Erase?
    ensures var pc := s.threads[t];
            Executes(s, [Choice(t, Go)],
                     Goto(EraseWaiter(s, pc.w, pc.loc, pc.notified), t, Leave(pc.w, pc.loc, pc.mode, pc.notified)))
  {
    hide WaiterKey, Executes, MoveOf, Enabled, EraseWaiter;
    StepOf(s, t);
    ExecutesMove(s, t, SuspendMove(s, t, s.threads[t]));
  }

  /** An agent returns, a worker goes on to report. */
  function AfterLeave(w: WaiterId, l: Location, mode: Mode, notified: bool): PC
  {
    if mode.Sync? then Idle else ReportLock(w, l, mode.vm, notified)
  }

  lemma LeaveStep(s: State, t: ThreadId)
    requires t < |s.threads| && s.threads[t].Leave?
    ensures var pc := s.threads[t];
            Executes(s, [Choice(t, Go)], Goto(Unlock(s, pc.loc), t, AfterLeave(pc.w, pc.loc, pc.mode, pc.notified)))
  {
    hide WaiterKey, Executes, MoveOf, Enabled;
    StepOf(s, t);
    ExecutesMove(s, t, SuspendMove(s, t, s.threads[t]));
  }
}
