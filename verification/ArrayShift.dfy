/** Array.prototype.shift and unshift (sections 23.1.3.27 and 23.1.3.37 of ECMA-262). */
module ArrayShift {
  import opened Common
  import opened SparseObjects
  import opened FastArrays

  // ---- shift ----

  /** What index `i` holds after the first of `len` elements is removed. */
  function ShiftAt(m: Elements, len: nat, i: int): Option<Value>
  {
    if 0 <= i < len - 1 then At(m, i + 1)
    else if i == len - 1 && len > 0 then None
    else At(m, i)
  }

  function FirstValue(m: Elements): Value
  {
    if 0 in m then m[0] else Undefined
  }

  /** The elements below `k` have moved down by one. */
  function PartlyShiftedAt(m: Elements, k: int, i: int): Option<Value>
  {
    if 0 <= i < k - 1 then At(m, i + 1) else At(m, i)
  }

  method ShiftSlow(O: JSObject) returns (first: Value)
    requires O.Valid()
    modifies O
    ensures O.Valid()
    ensures O.len == if old(O.len) == 0 then 0 else old(O.len) - 1
    ensures old(O.len) == 0 ==> first == Undefined
    ensures old(O.len) > 0 ==> first == FirstValue(old(O.elems))
    ensures forall i :: At(O.elems, i) == ShiftAt(old(O.elems), old(O.len), i)
  {
    var len := O.len;
    if len == 0 {
      O.SetLength(0);
      return Undefined;
    }
    first := if 0 in O.elems then O.elems[0] else Undefined;
    var k := 1;
    while k < len
      invariant 1 <= k <= len
      invariant O.Valid() && O.len == len
      invariant forall i :: At(O.elems, i) == PartlyShiftedAt(old(O.elems), k, i)
      decreases len - k
    {
      assert At(O.elems, k) == At(old(O.elems), k);
      if k in O.elems {
        O.Put(k - 1, O.elems[k]);
        k := k + 1;
      } else {
        O.Delete(k - 1);
        var r := O.NextIndexForward(k, len);
        HolesShift(O.elems, old(O.elems), k, r);
        k := if r > k then r else k - 1;
      }
    }
    O.Delete(len - 1);
    O.SetLength(len - 1);
  }

  /** Positions `k` to `r-1` are holes in both maps, so shifting them changes nothing. */
  lemma HolesShift(now: Elements, before: Elements, k: int, r: int)
    requires 1 <= k < r
    requires forall i :: At(now, i) == if i == k - 1 then None else PartlyShiftedAt(before, k, i)
    requires k !in before && forall i :: k < i < r ==> i !in now
    ensures forall i :: At(now, i) == PartlyShiftedAt(before, r, i)
  {
    forall i ensures At(now, i) == PartlyShiftedAt(before, r, i) {
      if k - 1 <= i < r - 1 {
        assert At(now, i + 1) == PartlyShiftedAt(before, k, i + 1);
      }
    }
  }

  method ShiftFast(A: FastArray, memory: nat -> Option<Value>) returns (first: Value)
    requires |A.slots| > 0
    modifies A
    ensures A.slots == old(A.slots)[1..]
    ensures first == FirstValue(FastElements(old(A.slots)))
  {
    var len := |A.slots|;
    first := if A.slots[0].None? then Undefined else A.slots[0].value;
    if len > 1 {
      for i := 0 to len - 1
        invariant |A.slots| == len
        invariant forall j :: 0 <= j < i ==> A.slots[j] == old(A.slots)[j + 1]
        invariant forall j :: i <= j < len ==> A.slots[j] == old(A.slots)[j]
      {
        A.slots := A.slots[i := A.slots[i + 1]];
      }
    }
    A.slots := A.slots[len - 1 := None];
    A.SetLengthDirect(len - 1, memory);
  }

  /** The two paths of `shift` have the same effect and the same result on every fast-mode array. */
  method ShiftPathsAgree(slots: Slots, memory: nat -> Option<Value>)
      returns (fast: Slots, slow: Elements, slowLen: nat, fastFirst: Value, slowFirst: Value)
    requires |slots| > 0
    ensures FastElements(fast) == slow && |fast| == slowLen && fastFirst == slowFirst
    ensures fast == slots[1..]
  {
    var A := new FastArray(slots);
    fastFirst := ShiftFast(A, memory);
    var O := new JSObject.ArrayOf(FastElements(slots), |slots|);
    slowFirst := ShiftSlow(O);
    fast, slow, slowLen := A.slots, O.elems, O.len;
    SameElements(FastElements(fast), slow);
  }

  // ---- unshift ----

  /** What index `i` holds after `items` are inserted in front of `len` elements. */
  function InsertAt(m: Elements, len: nat, items: seq<Value>, i: int): Option<Value>
  {
    if 0 <= i < |items| then Some(items[i])
    else if |items| <= i < len + |items| then At(m, i - |items|)
    else At(m, i)
  }

  ghost predicate HolesOnly(m: Elements, from: int, to: int)
  {
    forall j :: from <= j < to ==> j !in m
  }

  /** More than `c` holes end right before `e`. */
  ghost predicate LongGap(m: Elements, c: nat, e: int)
  {
    c < e && HolesOnly(m, e - 1 - c, e)
  }

  /**
   * An element that the hole-skipping loop leaves behind: it sits right after a run
   * of more than `c` holes that ends at `e`, closer to `e` than the last insertion.
   */
  ghost predicate StaleBy(m: Elements, len: nat, c: nat, p: int, e: int)
  {
    LongGap(m, c, e) && e <= len && e <= p <= e + c - 2 && p in m
  }

  ghost predicate Stale(m: Elements, len: nat, c: nat, p: int)
  {
    exists e :: StaleBy(m, len, c, p, e)
  }

  /** What the slow path of `unshift` really leaves at index `i`. */
  ghost function UnshiftSlowAt(ordinary: bool, m: Elements, len: nat, items: seq<Value>, i: int): Option<Value>
  {
    if ordinary && Stale(m, len, |items|, i) then At(m, i) else InsertAt(m, len, items, i)
  }

  /** The state of the moving loop at `k`: everything from `k + c` on has its final value. */
  ghost function PartlyMovedAt(ordinary: bool, m: Elements, len: nat, c: nat, k: int, i: int): Option<Value>
  {
    if k + c <= i < len + c && !(ordinary && Stale(m, len, c, i)) then At(m, i - c) else At(m, i)
  }

  /** The loop has jumped over every run of more than `c` holes that ends above `k`. */
  ghost predicate Jumped(m: Elements, len: nat, c: nat, k: int)
  {
    forall e :: k < e <= len && LongGap(m, c, e) ==> k <= e - 1 - c
  }

  lemma NotStaleHere(m: Elements, len: nat, c: nat, k: int)
    requires 0 < k <= len && Jumped(m, len, c, k)
    ensures !Stale(m, len, c, k + c - 1)
  {
  }

  /** `[r, k)` is a run of holes that cannot be extended downwards. */
  ghost predicate RunBelow(m: Elements, r: int, k: int)
  {
    0 <= r < k && HolesOnly(m, r, k) && (r == 0 || r - 1 in m)
  }

  lemma StepDown(m: Elements, len: nat, c: nat, k: int, r: int)
    requires 0 < k <= len && Jumped(m, len, c, k)
    requires k - 1 in m || (RunBelow(m, r, k) && k - r <= c)
    ensures Jumped(m, len, c, k - 1)
  {
    assert LongGap(m, c, k) ==> k - 1 !in m && (r == 0 || r - 1 !in m);
  }

  lemma JumpDown(m: Elements, len: nat, c: nat, k: int, r: int)
    requires 0 < k <= len && Jumped(m, len, c, k) && RunBelow(m, r, k) && k - r > c
    ensures Jumped(m, len, c, r)
    ensures forall i :: r + c <= i < k + c - 1 && !Stale(m, len, c, i) ==> At(m, i) == At(m, i - c)
  {
    forall i | r + c <= i < k + c - 1 && !Stale(m, len, c, i) ensures At(m, i) == At(m, i - c) {
      assert i - c !in m;
      if i >= k {
        assert !StaleBy(m, len, c, i, k);
      }
    }
  }

  method UnshiftSlow(O: JSObject, items: seq<Value>) returns (r: Result<nat>)
    requires O.Valid()
    modifies O
    ensures O.Valid()
    ensures r.Err? <==> items != [] && old(O.len) + |items| > MAX_LENGTH
    ensures r.Err? ==> r.error == TypeError && O.elems == old(O.elems) && O.len == old(O.len)
    ensures r.Ok? ==> r.value == O.len == old(O.len) + |items|
    ensures r.Ok? ==> forall i :: At(O.elems, i) == UnshiftSlowAt(O.ordinary, old(O.elems), old(O.len), items, i)
  {
    var len, c := O.len, |items|;
    ghost var m := O.elems;
    if c > 0 {
      if len + c > MAX_LENGTH {
        return Err(TypeError);
      }
      MoveUp(O, c);
      var j := 0;
      while j < c
        invariant 0 <= j <= c && O.Valid()
        invariant O.isArray ==> len <= O.len <= len + c
        invariant forall i :: At(O.elems, i) ==
                    if 0 <= i < j then Some(items[i]) else PartlyMovedAt(O.ordinary, m, len, c, 0, i)
      {
        O.Put(j, items[j]);
        j := j + 1;
      }
    }
    forall i ensures 0 <= i < c ==> !Stale(m, len, c, i) {}
    O.SetLength(len + c);
    return Ok(len + c);
  }

  /** The moving loop of the slow path. */
  method MoveUp(O: JSObject, c: nat)
    requires O.Valid() && c > 0
    modifies O
    ensures O.Valid()
    ensures O.isArray ==> old(O.len) <= O.len <= old(O.len) + c
    ensures forall i :: At(O.elems, i) == PartlyMovedAt(O.ordinary, old(O.elems), old(O.len), c, 0, i)
  {
    var len := O.len;
    ghost var m := O.elems;
    var k: int := len;
    while k > 0
      invariant 0 <= k <= len && O.Valid()
      invariant O.isArray ==> len <= O.len <= len + c
      invariant O.ordinary ==> Jumped(m, len, c, k)
      invariant forall i :: At(O.elems, i) == PartlyMovedAt(O.ordinary, m, len, c, k, i)
      decreases k
    {
      assert At(O.elems, k - 1) == PartlyMovedAt(O.ordinary, m, len, c, k, k - 1);
      NotStaleIfOrdinary(O.ordinary, m, len, c, k);
      if k - 1 in O.elems {
        if O.ordinary {
          StepDown(m, len, c, k, 0);
        }
        O.Put(k + c - 1, O.elems[k - 1]);
        k := k - 1;
      } else {
        O.Delete(k + c - 1);
        var result := O.NextIndexBackward(k, -1);
        var r := if result + 1 > result - c + 1 then result + 1 else result - c + 1;
        HolesBelow(O.elems, m, result, k);
        if r < k && k - r > c {
          JumpDown(m, len, c, k, r);
          k := r;
        } else {
          if O.ordinary {
            StepDown(m, len, c, k, r);
          }
          k := k - 1;
        }
      }
    }
  }

  lemma NotStaleIfOrdinary(ordinary: bool, m: Elements, len: nat, c: nat, k: int)
    requires 0 < k <= len && (ordinary ==> Jumped(m, len, c, k))
    ensures !(ordinary && Stale(m, len, c, k + c - 1))
  {
    if ordinary {
      NotStaleHere(m, len, c, k);
    }
  }

  /** Below `k` nothing has moved yet, so holes found there are holes of the original. */
  lemma HolesBelow(now: Elements, before: Elements, result: int, k: int)
    requires forall i :: i < k ==> At(now, i) == At(before, i)
    requires forall i :: result < i < k ==> i !in now
    ensures HolesOnly(before, result + 1, k)
    ensures result < k ==> (result in before <==> result in now)
  {
    forall j | result + 1 <= j < k ensures j !in before {
      assert At(now, j) == At(before, j);
    }
    assert result < k ==> At(now, result) == At(before, result);
  }

  /** Exactly when the slow path inserts correctly: no element is left behind. */
  lemma UnshiftSlowRightIff(m: Elements, len: nat, items: seq<Value>)
    ensures (forall i :: UnshiftSlowAt(true, m, len, items, i) == InsertAt(m, len, items, i)) <==>
            (forall p :: !Stale(m, len, |items|, p))
  {
    forall p | Stale(m, len, |items|, p)
      ensures UnshiftSlowAt(true, m, len, items, p) != InsertAt(m, len, items, p)
    {
      var e :| StaleBy(m, len, |items|, p, e);
      assert p - |items| !in m;
    }
  }

  lemma {:induction false} FirstPresent(m: Elements, from: int, p: int) returns (q: int)
    requires from <= p && p in m
    ensures from <= q <= p && q in m && HolesOnly(m, from, q)
    decreases p - from
  {
    if from in m {
      q := from;
    } else {
      q := FirstPresent(m, from + 1, p);
    }
  }

  /**
   * On an array: the slow path is right exactly when there is at most one argument,
   * or no element is preceded by more holes than there are arguments.
   */
  lemma UnshiftArrayRightIff(m: Elements, len: nat, items: seq<Value>)
    requires forall i :: i in m ==> 0 <= i < len
    ensures (forall i :: UnshiftSlowAt(true, m, len, items, i) == InsertAt(m, len, items, i)) <==>
            |items| <= 1 || forall e :: e in m ==> !LongGap(m, |items|, e)
  {
    UnshiftSlowRightIff(m, len, items);
    var c := |items|;
    if c >= 2 {
      forall p | Stale(m, len, c, p) ensures exists e :: e in m && LongGap(m, c, e) {
        var e :| StaleBy(m, len, c, p, e);
        var q := FirstPresent(m, e, p);
        assert LongGap(m, c, q);
      }
      forall e | e in m && LongGap(m, c, e) ensures Stale(m, len, c, e) {
        assert StaleBy(m, len, c, e, e);
      }
    }
  }

  /** With at most one argument nothing is ever left behind. */
  lemma OneArgumentIsRight(m: Elements, len: nat, items: seq<Value>, i: int)
    requires |items| <= 1
    ensures UnshiftSlowAt(true, m, len, items, i) == InsertAt(m, len, items, i)
  {
  }

  /** `[,,,x].unshift(a, b)` on a sparse array leaves a second copy of x at index 3. */
  lemma UnshiftSlowWrong(x: Value, a: Value, b: Value)
    ensures UnshiftSlowAt(true, map[3 := x], 4, [a, b], 3) == Some(x)
    ensures InsertAt(map[3 := x], 4, [a, b], 3) == None
  {
    assert StaleBy(map[3 := x], 4, 2, 3, 3);
  }

  /** The fast path inserts correctly for every number of arguments, whatever the new slots held before. */
  method UnshiftFast(A: FastArray, items: seq<Value>, memory: nat -> Option<Value>) returns (r: Result<nat>)
    modifies A
    ensures r.Err? <==> |old(A.slots)| + |items| > MAX_LENGTH
    ensures r.Err? ==> r.error == TypeError && A.slots == old(A.slots)
    ensures r.Ok? ==> r.value == |A.slots| == |old(A.slots)| + |items|
    ensures r.Ok? ==>
      forall i :: At(FastElements(A.slots), i) == InsertAt(FastElements(old(A.slots)), |old(A.slots)|, items, i)
  {
    var len, c := |A.slots|, |items|;
    if len + c > MAX_LENGTH {
      return Err(TypeError);
    }
    if c > 0 {
      A.SetLengthDirect(len + c, memory);
      var i := len - 1;
      while i >= 0
        invariant -1 <= i < len && |A.slots| == len + c
        invariant forall j :: 0 <= j <= i ==> A.slots[j] == old(A.slots)[j]
        invariant forall j :: i < j < len ==> A.slots[j + c] == old(A.slots)[j]
      {
        A.slots := A.slots[i + c := A.slots[i]];
        i := i - 1;
      }
      assert forall j :: c <= j < len + c ==> A.slots[j] == A.slots[(j - c) + c];
      for j := 0 to c
        invariant |A.slots| == len + c
        invariant forall n :: 0 <= n < j ==> A.slots[n] == Some(items[n])
        invariant forall n :: c <= n < len + c ==> A.slots[n] == old(A.slots)[n - c]
      {
        A.slots := A.slots[j := Some(items[j])];
      }
    }
    return Ok(len + c);
  }
}
