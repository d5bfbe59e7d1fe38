/** Array.prototype.map (section 23.1.3.21 of ECMA-262): a fast path that may be left in the middle of the loop. */
module ArrayMap {
  import opened Common
  import opened SparseObjects
  import opened FastArrays

  /** The source array in either representation. */
  datatype Source = Fast(slots: Slots) | Sparse(len: nat, elems: Elements)

  function ElementsOf(s: Source): (m: Elements)
    ensures s.Fast? ==> forall i :: At(m, i) == if 0 <= i < |s.slots| then s.slots[i] else None
    ensures s.Sparse? ==> forall i :: At(m, i) == At(s.elems, i)
  {
    match s
    case Fast(slots) => FastElements(slots)
    case Sparse(_, elems) => elems
  }

  function LengthOf(s: Source): (len: nat)
    ensures s.Fast? ==> forall i :: len <= i ==> At(ElementsOf(s), i) == None
    ensures s.Fast? ==> len == |s.slots|
    ensures s.Sparse? ==> len == s.len
  {
    match s
    case Fast(slots) => |slots|
    case Sparse(len, _) => len
  }

  /** One call of the callback: the value and the index it was given. */
  datatype Call = Call(value: Value, index: nat)

  /**
   * The script state `W` holds the source array among everything else; a callback
   * may change all of it, so it may switch the array's mode, resize or rewrite it.
   */
  datatype Script<!W> = Script(source: W -> Source, callback: (W, Value, nat) -> (W, Value))

  datatype Progress<W> = Progress(world: W, result: Slots, calls: seq<Call>)

  /** Call the callback for the element `v` at `k` and store what it returns. */
  function Visit<W>(script: Script<W>, p: Progress<W>, v: Value, k: nat): (r: Progress<W>)
    requires k < |p.result|
    ensures |r.result| == |p.result|
  {
    var (w, mapped) := script.callback(p.world, v, k);
    Progress(w, p.result[k := Some(mapped)], p.calls + [Call(v, k)])
  }

  /** The plain loop: every index in turn, present elements only. */
  function PlainMap<W>(script: Script<W>, p: Progress<W>, k: nat): (r: Progress<W>)
    ensures |r.result| == |p.result|
    decreases |p.result| - k
  {
    if k >= |p.result| then p
    else
      var v := At(ElementsOf(script.source(p.world)), k);
      PlainMap(script, if v.Some? then Visit(script, p, v.value, k) else p, k + 1)
  }

  /** The next present index after `cur`, or `end`. */
  function NextPresent(m: Elements, cur: nat, end: nat): (r: nat)
    requires cur < end
    ensures cur < r <= end && (r == end || r in m) && forall i :: cur < i < r ==> i !in m
    decreases end - cur
  {
    if cur + 1 == end || cur + 1 in m then cur + 1 else NextPresent(m, cur + 1, end)
  }

  lemma {:induction false} PlainSkipsHoles<W>(script: Script<W>, p: Progress<W>, k: nat, next: nat)
    requires k <= next <= |p.result|
    requires forall i :: k <= i < next ==> i !in ElementsOf(script.source(p.world))
    ensures PlainMap(script, p, k) == PlainMap(script, p, next)
    decreases next - k
  {
    if k < next {
      PlainSkipsHoles(script, p, k + 1, next);
    }
  }

  /** The slow loop, which jumps over holes. */
  method MapSlow<W>(script: Script<W>, from: Progress<W>, start: nat) returns (p: Progress<W>)
    requires start <= |from.result|
    ensures p == PlainMap(script, from, start)
  {
    p := from;
    var k, len := start, |from.result|;
    while k < len
      invariant 0 <= k <= len && |p.result| == len
      invariant PlainMap(script, p, k) == PlainMap(script, from, start)
      decreases len - k
    {
      var m := ElementsOf(script.source(p.world));
      if k in m {
        p := Visit(script, p, m[k], k);
        k := k + 1;
      } else {
        var next := NextPresent(m, k, len);
        PlainSkipsHoles(script, p, k, next);
        k := next;
      }
    }
  }

  predicate StillFast(s: Source, len: nat)
  {
    s.Fast? && |s.slots| == len
  }

  /** The whole builtin; `resultFast` says whether the fresh result array is in fast mode. */
  method Map<W>(script: Script<W>, w: W, resultFast: bool) returns (p: Progress<W>)
    ensures var len := LengthOf(script.source(w));
            p == PlainMap(script, Progress(w, seq(len, _ => None), []), 0)
    ensures |p.result| == LengthOf(script.source(w))
  {
    var len := LengthOf(script.source(w));
    ghost var begin := Progress(w, seq(len, _ => None), []);
    p := Progress(w, seq(len, _ => None), []);
    assert p.result == begin.result;
    var k := 0;
    if script.source(w).Fast? && resultFast {
      var bailedOut := false;
      while k < len && !bailedOut
        invariant 0 <= k <= len && |p.result| == len
        invariant forall i :: k <= i < len ==> p.result[i].None?
        invariant PlainMap(script, p, k) == PlainMap(script, begin, 0)
        decreases len - k, !bailedOut
      {
        var s := script.source(p.world);
        if !StillFast(s, len) {
          bailedOut := true;
        } else {
          var kValue := s.slots[k];
          if kValue.Some? {
            var (w', mapped) := script.callback(p.world, kValue.value, k);
            var calls := p.calls + [Call(kValue.value, k)];
            if !StillFast(script.source(w'), len) {
              p := Progress(w', p.result[k := Some(mapped)], calls);
              k := k + 1;
              bailedOut := true;
            } else {
              p := Progress(w', p.result[k := Some(mapped)], calls);
              k := k + 1;
            }
          } else {
            assert p.result[k := None] == p.result;
            p := p.(result := p.result[k := None]);
            k := k + 1;
          }
        }
      }
      if !bailedOut {
        return;
      }
    }
    p := MapSlow(script, p, k);
  }

  /** Whatever the callback does, it is called at most once per index, in increasing order, within the original length. */
  lemma {:induction false} CallsInOrder<W>(script: Script<W>, p: Progress<W>, k: nat)
    requires forall i :: 0 <= i < |p.calls| ==> p.calls[i].index < k
    requires forall i, j :: 0 <= i < j < |p.calls| ==> p.calls[i].index < p.calls[j].index
    requires k <= |p.result|
    ensures var calls := PlainMap(script, p, k).calls;
            && p.calls <= calls
            && (forall i :: 0 <= i < |calls| ==> calls[i].index < |p.result|)
            && (forall i, j :: 0 <= i < j < |calls| ==> calls[i].index < calls[j].index)
    decreases |p.result| - k
  {
    if k < |p.result| {
      var v := At(ElementsOf(script.source(p.world)), k);
      CallsInOrder(script, if v.Some? then Visit(script, p, v.value, k) else p, k + 1);
    }
  }

  /** With a callback that leaves the script state alone, the result is the element-wise image, holes kept. */
  lemma {:induction false} PureCallback<W(!new)>(script: Script<W>, f: (Value, nat) -> Value, p: Progress<W>, k: nat, i: nat)
    requires forall w, v, n :: script.callback(w, v, n) == (w, f(v, n))
    requires k <= |p.result| && i < |p.result|
    ensures PlainMap(script, p, k).result[i] ==
            var v := At(ElementsOf(script.source(p.world)), i);
            if k <= i && v.Some? then Some(f(v.value, i)) else p.result[i]
    decreases |p.result| - k
  {
    if k < |p.result| {
      var v := At(ElementsOf(script.source(p.world)), k);
      PureCallback(script, f, if v.Some? then Visit(script, p, v.value, k) else p, k + 1, i);
    }
  }

  // ---- what a run is ----

  /** The states a run goes through, the calls it makes and what they return. */
  datatype Trace<W> = Trace(states: seq<W>, calls: seq<Call>, returned: seq<Value>)

  /**
   * Call `i` is made in state `i`, for the element that state holds at the index of
   * the call, and leads to state `i + 1`.
   */
  ghost predicate Follows<W>(script: Script<W>, t: Trace<W>)
  {
    && |t.states| == |t.calls| + 1 && |t.returned| == |t.calls|
    && forall i :: 0 <= i < |t.calls| ==>
         && At(ElementsOf(script.source(t.states[i])), t.calls[i].index) == Some(t.calls[i].value)
         && script.callback(t.states[i], t.calls[i].value, t.calls[i].index) == (t.states[i + 1], t.returned[i])
  }

  /** Index `j` was a hole when its turn came: after the calls for lower indices, before those for higher ones. */
  ghost predicate HoleAtTurn<W>(script: Script<W>, t: Trace<W>, j: nat, i: nat)
    requires |t.states| == |t.calls| + 1
  {
    && i <= |t.calls|
    && (forall n :: 0 <= n < i ==> t.calls[n].index < j)
    && (forall n :: i <= n < |t.calls| ==> t.calls[n].index > j)
    && At(ElementsOf(script.source(t.states[i])), j) == None
  }

  ghost predicate Called(calls: seq<Call>, j: nat)
  {
    exists i :: 0 <= i < |calls| && calls[i].index == j
  }

  /** Each call stores what it returned, from index `k` on. */
  ghost predicate Stores(t: seq<Call>, returned: seq<Value>, k: nat, result: Slots)
  {
    |returned| == |t| && forall i :: 0 <= i < |t| ==> k <= t[i].index < |result| && result[t[i].index] == Some(returned[i])
  }

  ghost predicate Untouched(calls: seq<Call>, before: Slots, after: Slots)
  {
    |after| == |before| && forall j: nat :: j < |after| && !Called(calls, j) ==> after[j] == before[j]
  }

  ghost predicate HolesAtTurn<W>(script: Script<W>, t: Trace<W>, k: nat, len: nat)
  {
    |t.states| == |t.calls| + 1 &&
    forall j: nat :: k <= j < len && !Called(t.calls, j) ==> exists i: nat :: HoleAtTurn(script, t, j, i)
  }

  /** What a trace from index `k` on says about the result. */
  ghost predicate Explains<W>(script: Script<W>, p: Progress<W>, k: nat, t: Trace<W>, q: Progress<W>)
  {
    && Follows(script, t)
    && t.states[0] == p.world && t.states[|t.calls|] == q.world
    && q.calls == p.calls + t.calls
    && Stores(t.calls, t.returned, k, q.result)
    && Untouched(t.calls, p.result, q.result)
    && HolesAtTurn(script, t, k, |q.result|)
  }

  /** The trace with one more call in front. */
  function Preceded<W>(script: Script<W>, w: W, v: Value, k: nat, t: Trace<W>): Trace<W>
  {
    Trace([w] + t.states, [Call(v, k)] + t.calls, [script.callback(w, v, k).1] + t.returned)
  }

  lemma FollowsNext<W>(script: Script<W>, w: W, v: Value, k: nat, t: Trace<W>)
    requires Follows(script, t) && t.states[0] == script.callback(w, v, k).0
    requires At(ElementsOf(script.source(w)), k) == Some(v)
    ensures Follows(script, Preceded(script, w, v, k, t))
  {
    hide ElementsOf, At;
  }

  lemma CalledNext(calls: seq<Call>, c: Call)
    ensures forall j: nat :: Called([c] + calls, j) <==> j == c.index || Called(calls, j)
  {
    var all := [c] + calls;
    assert all[0] == c;
    forall j: nat | Called(calls, j) ensures Called(all, j) {
      var i :| 0 <= i < |calls| && calls[i].index == j;
      assert all[i + 1].index == j;
    }
  }

  /** The holes of the rest are holes of the whole. */
  lemma HolesNext<W>(script: Script<W>, w: W, v: Value, k: nat, t: Trace<W>, len: nat)
    requires HolesAtTurn(script, t, k + 1, len)
    ensures HolesAtTurn(script, Preceded(script, w, v, k, t), k, len)
  {
    var all := Preceded(script, w, v, k, t);
    CalledNext(t.calls, Call(v, k));
    forall j: nat | k <= j < len && !Called(all.calls, j) ensures exists i: nat :: HoleAtTurn(script, all, j, i) {
      var i: nat :| HoleAtTurn(script, t, j, i);
      assert HoleAtTurn(script, all, j, i + 1);
    }
  }

  lemma StoresNext(calls: seq<Call>, returned: seq<Value>, v: Value, k: nat, mapped: Value, before: Slots, after: Slots)
    requires k < |before| && Stores(calls, returned, k + 1, after) && Untouched(calls, before[k := Some(mapped)], after)
    ensures Stores([Call(v, k)] + calls, [mapped] + returned, k, after) && Untouched([Call(v, k)] + calls, before, after)
  {
    CalledNext(calls, Call(v, k));
    assert !Called(calls, k);
  }

  /** One visited element in front of the trace of the rest. */
  lemma VisitExplained<W>(script: Script<W>, p: Progress<W>, k: nat, v: Value, t: Trace<W>, q: Progress<W>)
    requires k < |p.result| && At(ElementsOf(script.source(p.world)), k) == Some(v)
    requires Explains(script, Visit(script, p, v, k), k + 1, t, q)
    ensures Explains(script, p, k, Preceded(script, p.world, v, k, t), q)
  {
    hide Stores, Untouched, HolesAtTurn, ElementsOf, At;
    FollowsNext(script, p.world, v, k, t);
    HolesNext(script, p.world, v, k, t, |q.result|);
    StoresNext(t.calls, t.returned, v, k, script.callback(p.world, v, k).1, p.result, q.result);
  }

  lemma HoleExplained<W>(script: Script<W>, p: Progress<W>, k: nat, t: Trace<W>, q: Progress<W>)
    requires k < |p.result| && At(ElementsOf(script.source(p.world)), k) == None
    requires Explains(script, p, k + 1, t, q)
    ensures Explains(script, p, k, t, q)
  {
    assert HoleAtTurn(script, t, k, 0);
  }

  /** Every run of the loop has such a trace. */
  lemma {:induction false} PlainMapExplained<W>(script: Script<W>, p: Progress<W>, k: nat) returns (t: Trace<W>)
    requires k <= |p.result|
    ensures Explains(script, p, k, t, PlainMap(script, p, k))
    decreases |p.result| - k
  {
    if k == |p.result| {
      t := Trace([p.world], [], []);
    } else {
      var v := At(ElementsOf(script.source(p.world)), k);
      if v.Some? {
        var rest := PlainMapExplained(script, Visit(script, p, v.value, k), k + 1);
        VisitExplained(script, p, k, v.value, rest, PlainMap(script, p, k));
        t := Preceded(script, p.world, v.value, k, rest);
      } else {
        t := PlainMapExplained(script, p, k + 1);
        HoleExplained(script, p, k, t, PlainMap(script, p, k));
      }
    }
  }

  /**
   * The whole builtin: each element is read from the state the previous call left, the
   * result holds what the calls returned, and its holes were holes when their turn came.
   */
  lemma MapExplained<W>(script: Script<W>, w: W) returns (t: Trace<W>)
    ensures var len := LengthOf(script.source(w));
            var begin := Progress(w, seq(len, _ => None), []);
            Explains(script, begin, 0, t, PlainMap(script, begin, 0))
  {
    hide Explains, PlainMap;
    var len := LengthOf(script.source(w));
    t := PlainMapExplained(script, Progress(w, seq(len, _ => None), []), 0);
  }
}
