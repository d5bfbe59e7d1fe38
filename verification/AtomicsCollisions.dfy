/** What sharing a waiter list between locations does to notify calls. */
module AtomicsCollisions {
  import opened Common
  import opened Atomics
  import opened AtomicsWaiters
  import opened AtomicsNotify
  import opened AtomicsExecutions

  /** A notified waiter was notified by a call for a location with the same key. */
  lemma NotifiedByOwnKey(
      run: seq<State>, sched: seq<Choice>, cells: map<Location, int>, agents: nat, j: nat, k: int, i: nat)
    requires IsRun(run, sched, cells, agents) && j < |run| && i < |ListAt(run[j], k).log|
    ensures var s := run[j]; var wl := ListAt(s, k);
            && |wl.calls| == |wl.log| && wl.log[i] < |s.items|
            && WaiterKey(wl.calls[i]) == Key(s.items[wl.log[i]]) == k
  {
    RunInv(run, sched, cells, agents, j);
    var s := run[j];
    assert QueueInv(s.items, k, ListAt(s, k));
    assert ListAt(s, k).log[i] in ListAt(s, k).log;
  }

  /** No two of these locations share a waiter list. */
  ghost predicate NoCollision(locs: set<Location>)
  {
    forall a, b :: a in locs && b in locs && WaiterKey(a) == WaiterKey(b) ==> a == b
  }

  /** The locations waiters and notify calls have used so far. */
  ghost predicate UsesOnly(s: State, locs: set<Location>)
  {
    && (forall w :: 0 <= w < |s.items| ==> s.items[w].req.loc in locs)
    && (forall k, i :: 0 <= i < |ListAt(s, k).calls| ==> ListAt(s, k).calls[i] in locs)
  }

  /** Unless two locations in use share a list, a waiter is notified by calls for its own location only. */
  lemma NotifiedByOwnLocation(
      run: seq<State>, sched: seq<Choice>, cells: map<Location, int>, agents: nat, j: nat, k: int, i: nat, locs: set<Location>)
    requires IsRun(run, sched, cells, agents) && j < |run| && i < |ListAt(run[j], k).log|
    requires UsesOnly(run[j], locs) && NoCollision(locs)
    ensures var s := run[j]; var wl := ListAt(s, k);
            i < |wl.calls| && wl.log[i] < |s.items| && wl.calls[i] == s.items[wl.log[i]].req.loc
  {
    NotifiedByOwnKey(run, sched, cells, agents, j, k, i);
  }

  // ---- a notification that goes astray ----

  lemma NotifyBegins(s: State, t: ThreadId, l: Location, c: Count)
    requires t < |s.threads| && s.threads[t].Idle? && WaiterKey(l) !in s.locks
    ensures Executes(s, [Choice(t, BeginNotify(l, c)), Choice(t, Go)], Lock(Goto(s, t, NotifyCount(l, c)), t, l))
  {
    var s1 := Step(s, t, BeginNotify(l, c));
    assert s1 == Goto(s, t, NotifyLock(l, c));
    var s2 := Step(s1, t, Go);
    assert s2 == Lock(Goto(s, t, NotifyCount(l, c)), t, l);
    ExecutesOne(s, Choice(t, BeginNotify(l, c)), s1);
    ExecutesOne(s1, Choice(t, Go), s2);
    ExecutesJoin(s, [Choice(t, BeginNotify(l, c))], s1, [Choice(t, Go)], s2);
    assert [Choice(t, BeginNotify(l, c))] + [Choice(t, Go)] == [Choice(t, BeginNotify(l, c)), Choice(t, Go)];
  }

  /** The two waiters: element 4 of one buffer and element 0 of another, which share a list. */
  function Stranger(): Request
  {
    Request(Int32Location(1024, 4), 0, Infinite, false, 0)
  }

  function Own(): Request
  {
    Request(Int32Location(1088, 0), 0, Infinite, false, 1)
  }

  /** Both wait; then a notify call with count 1 is made for the second location. */
  lemma BothWait() returns (s: State)
    ensures Executes(Init(map[], 3), WaitSchedule(0, Stranger()) + WaitSchedule(1, Own()), s)
    ensures s.items == [Item(Stranger(), false, None, None, false), Item(Own(), false, None, None, false)]
    ensures ListAt(s, 1088) == WaiterList([0, 1], [], [], 0) && s.locks == map[]
    ensures |s.threads| == 3 && s.threads[2].Idle?
  {
    hide Executes;
    var s0 := Init(map[], 3);
    WaitExecutes(s0, 0, Stranger());
    var s5 := Waiting(s0, 0, Stranger());
    WaitExecutes(s5, 1, Own());
    s := Waiting(s5, 1, Own());
    ExecutesJoin(s0, WaitSchedule(0, Stranger()), s5, WaitSchedule(1, Own()), s);
  }

  /** The call wakes the stranger and leaves the waiter of its own location queued. */
  lemma NotifyGoesAstray() returns (run: seq<State>, sched: seq<Choice>)
    ensures IsRun(run, sched, map[], 3)
    ensures var s := run[|run| - 1]; var wl := ListAt(s, WaiterKey(Own().loc));
            && |s.items| == 2 && s.items[0].req == Stranger() && s.items[1].req == Own()
            && wl.calls == [Own().loc] && wl.returned == 1
            && wl.log == [0] && s.items[0].notified
            && wl.list == [1] && !s.items[1].notified
  {
    hide Executes, NotifiesFirst, StepsTo;
    var l, c := Own().loc, AtMost(1);
    var s10 := BothWait();
    NotifyBegins(s10, 2, l, c);
    var s12 := Lock(Goto(s10, 2, NotifyCount(l, c)), 2, l);
    var s := SectionNotifies(s12, 2, l, c);
    StepsExecute(s12, 2, 3, s);
    var a, b, d := WaitSchedule(0, Stranger()) + WaitSchedule(1, Own()), [Choice(2, BeginNotify(l, c)), Choice(2, Go)], seq(3, _ => Choice(2, Go));
    ExecutesJoin(Init(map[], 3), a, s10, b, s12);
    ExecutesJoin(Init(map[], 3), a + b, s12, d, s);
    sched := a + b + d;
    run := ExecutionStates(Init(map[], 3), sched, s);
    FirstOfTwo(s12, l, s);
  }

  lemma FirstOfTwo(s: State, l: Location, s': State)
    requires NotifiesFirst(s, l, 1, s') && |s.items| == 2
    requires ListAt(s, WaiterKey(l)) == WaiterList([0, 1], [], [], 0)
    ensures |s'.items| == 2 && s'.items[0] == s.items[0].(notified := true) && s'.items[1] == s.items[1]
    ensures var wl := ListAt(s', WaiterKey(l)); wl.list == [1] && wl.log == [0] && wl.calls == [l]
  {
    var list := [0, 1];
    assert list[..1] == [0] && list[1..] == [1];
  }
}
