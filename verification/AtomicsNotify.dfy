/** The pieces of Atomics.wait / Atomics.notify that run inside one critical section or before it. */
module AtomicsNotify {
  import opened Common
  import opened Atomics

  class WaiterItem {
    var notified: bool

    constructor ()
      ensures !notified
    {
      notified := false;
    }
  }

  /** `m_waiterList` of one `Global::Waiter`. */
  class WaiterQueue {
    var list: seq<WaiterItem>

    ghost predicate Valid()
      reads this
    {
      forall i, j :: 0 <= i < j < |list| ==> list[i] != list[j]
    }

    /** The body of `Atomics.notify` between the lock and the unlock. */
    method Notify(c: Count) returns (n: nat)
      requires Valid()
      modifies this, list
      ensures Valid()
      ensures n == if c.Unlimited? then |old(list)| else Min(|old(list)|, c.n)
      ensures list == old(list)[n..]
      ensures forall i :: 0 <= i < n ==> old(list)[i].notified
      ensures forall i :: n <= i < |old(list)| ==> old(list)[i].notified == old(list[i].notified)
    {
      var count := if c.Unlimited? then |list| else Min(|list|, c.n);
      n := 0;
      while n < count
        invariant n <= count <= |old(list)|
        invariant list == old(list)[n..]
        invariant forall i :: 0 <= i < n ==> old(list)[i].notified
        invariant forall i :: n <= i < |old(list)| ==> old(list)[i].notified == old(list[i].notified)
      {
        var f := list[0];
        list := list[1..];
        f.notified := true;
        n := n + 1;
      }
    }
  }

  /** What a notify call may take at most. */
  function NotifyTotal(list: seq<WaiterId>, c: Count): nat
  {
    if c.Unlimited? then |list| else Min(|list|, c.n)
  }

  /** `s'` is reached from `s` by `n` steps of thread `t` alone. */
  ghost predicate StepsTo(s: State, t: ThreadId, n: nat, s': State)
    decreases n
  {
    if n == 0 then s' == s else Enabled(s, t, Go) && StepsTo(Step(s, t, Go), t, n - 1, s')
  }

  lemma NoStep(s: State, t: ThreadId)
    ensures StepsTo(s, t, 0, s)
  {
  }

  lemma OneMoreStep(s: State, t: ThreadId, n: nat, s': State)
    requires Enabled(s, t, Go) && StepsTo(Step(s, t, Go), t, n, s')
    ensures StepsTo(s, t, n + 1, s')
  {
    hide Enabled, Step;
  }

  /** The first `n` waiters of the list at `l` are removed and flagged; nothing else about the waiters changes. */
  ghost predicate NotifiesFirst(s: State, l: Location, n: nat, s': State)
  {
    var wl, wl' := ListAt(s, WaiterKey(l)), ListAt(s', WaiterKey(l));
    var list := wl.list;
    && n <= |list| && wl'.list == list[n..]
    && wl'.log == wl.log + list[..n] && wl'.calls == wl.calls + seq(n, _ => l)
    && |s'.items| == |s.items|
    && (forall w :: 0 <= w < |s.items| ==>
          s'.items[w] == if w in list[..n] then s.items[w].(notified := true) else s.items[w])
    && (forall k :: k != WaiterKey(l) ==> ListAt(s', k) == ListAt(s, k))
    && s'.cells == s.cells && s'.tables == s.tables
  }

  /** One turn of the loop, then the rest. */
  lemma NotifiesMore(s: State, l: Location, n: nat, s1: State, s2: State)
    requires NotifiesFirst(s, l, 1, s1) && NotifiesFirst(s1, l, n, s2)
    ensures NotifiesFirst(s, l, n + 1, s2)
  {
    var list := ListAt(s, WaiterKey(l)).list;
    assert list[..n + 1] == list[..1] + list[1..][..n];
    assert list[n + 1..] == list[1..][n..];
    assert seq(1, _ => l) + seq(n, _ => l) == seq(n + 1, _ => l);
  }

  /** The steps of the critical section of notify. */
  lemma NotifySteps(s: State, t: ThreadId)
    requires t < |s.threads|
    ensures s.threads[t].NotifyCount? ==>
              var pc := s.threads[t];
              && Enabled(s, t, Go)
              && Step(s, t, Go) == s.(threads := s.threads[t := NotifyLoop(pc.loc, pc.count, 0,
                                        NotifyTotal(ListAt(s, WaiterKey(pc.loc)).list, pc.count))])
    ensures s.threads[t].NotifyLoop? ==>
              var pc := s.threads[t];
              var m := NotifyOne(s, pc.loc, pc.count, pc.n, pc.total);
              Enabled(s, t, Go) && Step(s, t, Go) == Goto(m.next, t, m.pc)
  {
    hide NotifyOne, ListAt;
  }

  /** One turn of the loop takes the first waiter. */
  lemma TurnNotifies(s: State, t: ThreadId, l: Location, c: Count, n: nat, total: nat)
    requires t < |s.threads| && s.threads[t] == NotifyLoop(l, c, n, total)
    requires var list := ListAt(s, WaiterKey(l)).list; n < total && |list| > 0 && list[0] < |s.items|
    ensures var s1 := Step(s, t, Go); var wl, wl1 := ListAt(s, WaiterKey(l)), ListAt(s1, WaiterKey(l));
            && NotifiesFirst(s, l, 1, s1)
            && s1.threads == s.threads[t := NotifyLoop(l, c, n + 1, total)]
            && wl1.list == wl.list[1..] && wl1.returned == wl.returned && |s1.items| == |s.items|
  {
    NotifySteps(s, t);
    var list := ListAt(s, WaiterKey(l)).list;
    assert list[..1] == [list[0]] && seq(1, _ => l) == [l];
    hide Step;
  }

  /** Leaving the loop adds to the total and changes nothing else about the waiters. */
  lemma ExitNotifies(s: State, t: ThreadId, l: Location, c: Count, total: nat)
    requires t < |s.threads| && s.threads[t] == NotifyLoop(l, c, total, total)
    ensures var s1 := Step(s, t, Go);
            && NotifiesFirst(s, l, 0, s1) && s1.threads == s.threads[t := Idle]
            && ListAt(s1, WaiterKey(l)).returned == ListAt(s, WaiterKey(l)).returned + total
  {
    NotifySteps(s, t);
    hide Step;
  }

  lemma {:induction false} LoopNotifies(s: State, t: ThreadId, l: Location, c: Count, n: nat, total: nat) returns (s': State)
    requires t < |s.threads| && s.threads[t] == NotifyLoop(l, c, n, total) && n <= total
    requires var list := ListAt(s, WaiterKey(l)).list;
             total - n <= |list| && forall i :: 0 <= i < |list| ==> list[i] < |s.items|
    ensures StepsTo(s, t, total - n + 1, s') && NotifiesFirst(s, l, total - n, s')
    ensures s'.threads == s.threads[t := Idle]
    ensures ListAt(s', WaiterKey(l)).returned == ListAt(s, WaiterKey(l)).returned + total
    decreases total - n
  {
    hide Enabled, Step, WaiterKey, NotifyOne, Goto, NotifiesFirst, ListAt, StepsTo;
    NotifySteps(s, t);
    var s1 := Step(s, t, Go);
    if n == total {
      ExitNotifies(s, t, l, c, total);
      s' := s1;
      NoStep(s1, t);
    } else {
      TurnNotifies(s, t, l, c, n, total);
      s' := LoopNotifies(s1, t, l, c, n + 1, total);
      NotifiesMore(s, l, total - n - 1, s1, s');
    }
    OneMoreStep(s, t, total - n, s');
  }

  /** Where the threads are does not matter to the waiters. */
  lemma SameWaiters(s: State, threads: seq<PC>, l: Location, n: nat, s': State)
    requires NotifiesFirst(s.(threads := threads), l, n, s')
    ensures NotifiesFirst(s, l, n, s')
  {
    var s1 := s.(threads := threads);
    assert forall k :: ListAt(s1, k) == ListAt(s, k);
  }

  /** The critical section of the protocol, taken to its end, does what `WaiterQueue.Notify` does. */
  lemma SectionNotifies(s: State, t: ThreadId, l: Location, c: Count) returns (s': State)
    requires t < |s.threads| && s.threads[t] == NotifyCount(l, c)
    requires var list := ListAt(s, WaiterKey(l)).list; forall i :: 0 <= i < |list| ==> list[i] < |s.items|
    ensures var n := NotifyTotal(ListAt(s, WaiterKey(l)).list, c);
            && StepsTo(s, t, n + 2, s') && NotifiesFirst(s, l, n, s')
            && s'.threads == s.threads[t := Idle]
            && ListAt(s', WaiterKey(l)).returned == ListAt(s, WaiterKey(l)).returned + n
  {
    hide Enabled, Step, WaiterKey, StepsTo, NotifiesFirst;
    NotifySteps(s, t);
    var n := NotifyTotal(ListAt(s, WaiterKey(l)).list, c);
    var s1 := Step(s, t, Go);
    s' := LoopNotifies(s1, t, l, c, 0, n);
    OneMoreStep(s, t, n + 1, s');
    SameWaiters(s, s1.threads, l, n, s');
  }

  lemma {:induction false} MulMonotone(a: nat, b: nat, c: nat)
    requires a <= b
    ensures a * c <= b * c
  {
  }

  /** `validateAtomicAccess`: a byte position inside the view, or a RangeError. */
  function ValidateAtomicAccess(length: nat, index: ExtInt, elementSize: nat, byteOffset: nat): (r: Result<nat>)
    ensures r.Ok? <==> index.Fin? && 0 <= index.i < length && index.i <= MAX_LENGTH
    ensures r.Err? ==> r.error == RangeError
    ensures r.Ok? ==> r.value == index.i * elementSize + byteOffset
    ensures r.Ok? ==> byteOffset <= r.value && r.value + elementSize <= byteOffset + length * elementSize
  {
    if !index.Fin? || index.i < 0 || index.i > MAX_LENGTH || index.i >= length then Err(RangeError)
    else
      MulMonotone(index.i + 1, length, elementSize);
      Ok(index.i * elementSize + byteOffset)
  }

  /** The location of element `i` of an Int32Array that starts at the beginning of the block `data`. */
  function Int32Location(data: nat, i: nat): Location
  {
    Location(data, 4 * i)
  }

  /** Within one block, distinct elements have distinct waiter lists. */
  lemma OneListPerElement(data: nat, i: nat, j: nat)
    ensures WaiterKey(Int32Location(data, i)) == WaiterKey(Int32Location(data, j)) <==> i == j
  {
  }

  ghost predicate BlocksShareAList(d1: nat, n1: nat, d2: nat, n2: nat)
  {
    exists i: nat, j: nat :: i < n1 && j < n2 &&
      WaiterKey(Int32Location(d1, i)) == WaiterKey(Int32Location(d2, j))
  }

  /**
   * Elements of two different blocks can share a waiter list, because the byte
   * position is added to an int32 pointer and so counts four times.  For disjoint
   * blocks this happens exactly when the distance of their starts is a multiple of
   * 16 that is small enough.
   */
  lemma BlocksShareAListIff(d1: nat, n1: nat, d2: nat, n2: nat)
    requires 0 < n1 && 0 < n2 && d1 + 4 * n1 <= d2
    ensures BlocksShareAList(d1, n1, d2, n2) <==> (d2 - d1) % 16 == 0 && d2 - d1 <= 16 * (n1 - 1)
  {
    if (d2 - d1) % 16 == 0 && d2 - d1 <= 16 * (n1 - 1) {
      var i := (d2 - d1) / 16;
      assert WaiterKey(Int32Location(d1, i)) == WaiterKey(Int32Location(d2, 0));
    }
  }

  /** Two disjoint blocks of sixteen int32 elements whose elements 4 and 0 share a list. */
  lemma BlocksShareAListExample()
    ensures BlocksShareAList(1024, 16, 1088, 16)
  {
    BlocksShareAListIff(1024, 16, 1088, 16);
  }
}
