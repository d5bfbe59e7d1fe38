/** Array.prototype.slice and concat (sections 23.1.3.28 and 23.1.3.2 of ECMA-262). */
module ArraySlice {
  import opened Common
  import opened SparseObjects
  import opened FastArrays

  function SliceLength(from: nat, to: nat): (r: nat)
    ensures if from <= to then from + r == to else r == 0
  {
    if from < to then to - from else 0
  }

  /** The exact sub-map from `from` to `to`, moved to the origin. */
  function SlicedAt(m: Elements, from: nat, to: nat, i: int): Option<Value>
  {
    if 0 <= i < SliceLength(from, to) then At(m, from + i) else None
  }

  method SliceSlow(O: JSObject, start: ExtInt, end: Option<ExtInt>) returns (A: JSObject)
    requires O.Valid()
    ensures fresh(A) && A.Valid() && A.isArray && A.ordinary
    ensures A.len == SliceLength(Clamp(start, O.len), ClampEnd(end, O.len))
    ensures forall i :: At(A.elems, i) == SlicedAt(O.elems, Clamp(start, O.len), ClampEnd(end, O.len), i)
  {
    var len := O.len;
    var kStart, finalEnd := Clamp(start, len), ClampEnd(end, len);
    var k, n := kStart, 0;
    A := new JSObject.NewArray(SliceLength(kStart, finalEnd));
    while k < finalEnd
      invariant kStart <= k <= len && n == k - kStart
      invariant A.Valid() && A.isArray && A.ordinary && A.len == SliceLength(kStart, finalEnd)
      invariant forall i :: At(A.elems, i) == if i < n then SlicedAt(O.elems, kStart, finalEnd, i) else None
      decreases len - k
    {
      if k in O.elems {
        A.Put(n, O.elems[k]);
        k := k + 1;
        n := n + 1;
      } else {
        var result := O.NextIndexForward(k, len);
        assert forall i :: n <= i < result - kStart ==> SlicedAt(O.elems, kStart, finalEnd, i).None?;
        n := n + (result - k);
        k := result;
      }
    }
    if kStart < finalEnd {
      A.SetLength(finalEnd - kStart);
    } else {
      A.SetLength(0);
    }
  }

  /** `copyFastModeElementsFrom` into an array that is already long enough. */
  method CopyFastElements(dst: FastArray, src: FastArray, srcStart: nat, dstStart: nat, count: nat)
    requires dst != src && srcStart + count <= |src.slots| && dstStart + count <= |dst.slots|
    requires forall i :: dstStart <= i < dstStart + count ==> dst.slots[i].None?
    modifies dst
    ensures |dst.slots| == |old(dst.slots)|
    ensures forall i :: dstStart <= i < dstStart + count ==> dst.slots[i] == src.slots[i - dstStart + srcStart]
    ensures forall i :: 0 <= i < dstStart || dstStart + count <= i < |dst.slots| ==> dst.slots[i] == old(dst.slots)[i]
  {
    for i := 0 to count
      invariant |dst.slots| == |old(dst.slots)|
      invariant forall j :: dstStart <= j < dstStart + i ==> dst.slots[j] == src.slots[j - dstStart + srcStart]
      invariant forall j :: 0 <= j < dstStart || dstStart + i <= j < |dst.slots| ==> dst.slots[j] == old(dst.slots)[j]
    {
      var v := src.slots[srcStart + i];
      if v.Some? {
        dst.slots := dst.slots[dstStart + i := v];
      }
    }
  }

  /** The copying branch, taken when source and result are both in fast mode. */
  method SliceFast(src: FastArray, start: ExtInt, end: Option<ExtInt>) returns (dst: FastArray)
    ensures fresh(dst)
    ensures |dst.slots| == SliceLength(Clamp(start, |src.slots|), ClampEnd(end, |src.slots|))
    ensures forall i :: At(FastElements(dst.slots), i) ==
              SlicedAt(FastElements(src.slots), Clamp(start, |src.slots|), ClampEnd(end, |src.slots|), i)
  {
    var kStart, finalEnd := Clamp(start, |src.slots|), ClampEnd(end, |src.slots|);
    var count := SliceLength(kStart, finalEnd);
    dst := new FastArray(seq(count, _ => None));
    CopyFastElements(dst, src, kStart, 0, count);
  }

  /** The copying branch and the hole-skipping loop build the same array. */
  method SlicePathsAgree(slots: Slots, start: ExtInt, end: Option<ExtInt>)
      returns (fast: Slots, slow: Elements, slowLen: nat)
    ensures FastElements(fast) == slow && |fast| == slowLen
    ensures Clamp(start, |slots|) <= ClampEnd(end, |slots|) ==>
              fast == slots[Clamp(start, |slots|)..ClampEnd(end, |slots|)]
  {
    var src := new FastArray(slots);
    var dst := SliceFast(src, start, end);
    var O := new JSObject.ArrayOf(FastElements(slots), |slots|);
    var A := SliceSlow(O, start, end);
    fast, slow, slowLen := dst.slots, A.elems, A.len;
    SameElements(FastElements(fast), slow);
    forall i | 0 <= i < |fast| ensures fast[i] == slots[Clamp(start, |slots|) + i] {
      assert At(FastElements(fast), i) == fast[i];
    }
  }

  // ---- concat ----

  /** An argument of `concat`: spread element by element (`fast`: in fast mode), or appended as it is. */
  datatype ConcatArg = Spread(o: JSObject, fast: bool) | Single(v: Value)

  /** What an argument contributes; the length check is skipped for primitives only. */
  datatype Piece = Piece(m: Elements, len: nat, checked: bool)

  ghost predicate Describes(p: Piece, a: ConcatArg)
    reads if a.Spread? then {a.o} else {}
  {
    match a
    case Spread(o, fast) => o.Valid() && (fast ==> o.isArray) && p == Piece(o.elems, o.len, true)
    case Single(v) => p == Piece(map[0 := v], 1, v.Ref?)
  }

  function JoinedLength(pieces: seq<Piece>): nat
  {
    if pieces == [] then 0 else JoinedLength(pieces[..|pieces| - 1]) + pieces[|pieces| - 1].len
  }

  /** The juxtaposition of the pieces, holes included. */
  function JoinedAt(pieces: seq<Piece>, i: int): Option<Value>
  {
    if pieces == [] then None
    else
      var init, last := pieces[..|pieces| - 1], pieces[|pieces| - 1];
      var n := JoinedLength(init);
      if i < n then JoinedAt(init, i)
      else if i < n + last.len then At(last.m, i - n)
      else None
  }

  /** Appending piece `j` to the pieces before it. */
  lemma JoinNext(pieces: seq<Piece>, j: nat)
    requires j < |pieces|
    ensures JoinedLength(pieces[..j + 1]) == JoinedLength(pieces[..j]) + pieces[j].len
    ensures forall i :: JoinedAt(pieces[..j + 1], i) ==
              (var n := JoinedLength(pieces[..j]);
               if n <= i < n + pieces[j].len then At(pieces[j].m, i - n) else JoinedAt(pieces[..j], i))
  {
    var ps, n := pieces[..j + 1], JoinedLength(pieces[..j]);
    assert ps[..|ps| - 1] == pieces[..j] && ps[|ps| - 1] == pieces[j];
    forall i
      ensures JoinedAt(ps, i) == if n <= i < n + pieces[j].len then At(pieces[j].m, i - n) else JoinedAt(pieces[..j], i)
    {
      if n <= i {
        JoinedNothingPastEnd(pieces[..j], i);
      }
    }
  }

  ghost predicate TooLong(pieces: seq<Piece>, j: int)
    requires 0 <= j < |pieces|
  {
    pieces[j].checked && JoinedLength(pieces[..j + 1]) > MAX_LENGTH
  }

  lemma {:induction false} JoinedNothingPastEnd(pieces: seq<Piece>, i: int)
    requires JoinedLength(pieces) <= i
    ensures JoinedAt(pieces, i) == None
  {
  }

  /** Append one array element by element, jumping over holes. */
  method AppendSlow(A: JSObject, arr: JSObject, n: nat)
    requires A != arr && A.Valid() && A.isArray && arr.Valid() && n <= A.len <= n + arr.len
    requires forall i :: n <= i ==> At(A.elems, i).None?
    modifies A
    ensures A.Valid() && A.len == n + arr.len
    ensures forall i :: At(A.elems, i) ==
              if n <= i < n + arr.len then At(arr.elems, i - n) else At(old(A.elems), i)
  {
    var len := arr.len;
    ghost var m := A.elems;
    var k := 0;
    while k < len
      invariant 0 <= k <= len && A.Valid() && A.len <= n + len
      invariant forall i :: At(A.elems, i) == if n <= i < n + k then At(arr.elems, i - n) else At(m, i)
      decreases len - k
    {
      if k in arr.elems {
        A.Put(n + k, arr.elems[k]);
        k := k + 1;
      } else {
        var next := arr.NextIndexForward(k, len);
        forall i | n + k <= i < n + next ensures At(m, i) == None == At(arr.elems, i - n) {
          assert i - n !in arr.elems;
        }
        k := next;
      }
    }
    A.SetLength(n + len);
  }

  /** `copyFastModeElementsFrom`; when the result leaves fast mode it only has its length set. */
  method AppendFast(A: JSObject, arr: JSObject, staysFast: bool) returns (copied: bool)
    requires A != arr && A.Valid() && A.isArray && arr.Valid() && arr.isArray
    modifies A
    ensures A.Valid() && A.len == old(A.len) + arr.len
    ensures copied == staysFast
    ensures forall i :: At(A.elems, i) ==
              if copied && old(A.len) <= i < old(A.len) + arr.len then At(arr.elems, i - old(A.len))
              else At(old(A.elems), i)
  {
    var n, len := A.len, arr.len;
    ghost var m := A.elems;
    A.SetLength(n + len);
    assert forall i :: At(A.elems, i) == At(m, i);
    if !staysFast {
      return false;
    }
    for i := 0 to len
      invariant A.Valid() && A.len == n + len
      invariant forall j :: At(A.elems, j) == if n <= j < n + i then At(arr.elems, j - n) else At(m, j)
    {
      var v := At(arr.elems, i);
      if v.Some? {
        A.Put(n + i, v.value);
      }
    }
    copied := true;
  }

  /** One argument: its length check, then the copying branch or the loop, or the value itself. */
  method AppendArgument(A: JSObject, a: ConcatArg, ghost p: Piece, resultFast: bool, staysFast: bool) returns (ok: bool)
    requires A.Valid() && A.isArray && Describes(p, a) && (a.Spread? ==> a.o != A)
    modifies A
    ensures A.Valid()
    ensures ok <==> !(p.checked && old(A.len) + p.len > MAX_LENGTH)
    ensures ok ==> A.len == old(A.len) + p.len
    ensures ok ==>
              forall i :: At(A.elems, i) ==
                if old(A.len) <= i < old(A.len) + p.len then At(p.m, i - old(A.len)) else At(old(A.elems), i)
  {
    var n := A.len;
    match a {
      case Spread(o, fast) =>
        if n + o.len > MAX_LENGTH {
          return false;
        }
        var copied := false;
        if fast && resultFast && n + o.len < 0xFFFF_FFFF {
          copied := AppendFast(A, o, staysFast);
        }
        if !copied {
          AppendSlow(A, o, n);
        }
      case Single(v) =>
        if v.Ref? && n >= MAX_LENGTH {
          return false;
        }
        A.Put(n, v);
    }
    return true;
  }

  /** `resultFast(j)` and `staysFast(j)`: whether the result is in fast mode before and while taking argument `j`. */
  method Concat(args: seq<ConcatArg>, ghost pieces: seq<Piece>, resultFast: nat -> bool, staysFast: nat -> bool)
      returns (r: Result<JSObject>)
    requires |pieces| == |args| && forall j :: 0 <= j < |args| ==> Describes(pieces[j], args[j])
    ensures r.Err? <==> exists j :: 0 <= j < |pieces| && TooLong(pieces, j)
    ensures r.Err? ==> r.error == TypeError
    ensures r.Ok? ==> fresh(r.value) && r.value.Valid() && r.value.len == JoinedLength(pieces)
    ensures r.Ok? ==> forall i :: At(r.value.elems, i) == JoinedAt(pieces, i)
  {
    var A := new JSObject.NewArray(0);
    for j := 0 to |args|
      invariant A.Valid() && A.isArray && A.len == JoinedLength(pieces[..j]) && fresh(A)
      invariant forall i :: At(A.elems, i) == JoinedAt(pieces[..j], i)
      invariant forall i :: 0 <= i < j ==> !TooLong(pieces, i)
    {
      hide JoinedAt, JoinedLength, At;
      JoinNext(pieces, j);
      var ok := AppendArgument(A, args[j], pieces[j], resultFast(j), staysFast(j));
      if !ok {
        assert TooLong(pieces, j);
        return Err(TypeError);
      }
    }
    assert pieces[..|args|] == pieces;
    r := Ok(A);
  }

  /** Either branch of `slice`; `fast`: the array and the result are in fast mode. */
  method Slice(O: JSObject, start: ExtInt, end: Option<ExtInt>, fast: bool) returns (A: JSObject)
    requires O.Valid() && O.isArray
    ensures fresh(A) && A.Valid() && A.isArray
    ensures A.len == SliceLength(Clamp(start, O.len), ClampEnd(end, O.len))
    ensures forall i :: At(A.elems, i) == SlicedAt(O.elems, Clamp(start, O.len), ClampEnd(end, O.len), i)
  {
    if !fast {
      A := SliceSlow(O, start, end);
    } else {
      var m := O.elems;
      var src := new FastArray(seq(O.len, i => At(m, i)));
      assert forall i :: At(FastElements(src.slots), i) == At(O.elems, i);
      var dst := SliceFast(src, start, end);
      A := new JSObject.ArrayOf(FastElements(dst.slots), |dst.slots|);
    }
  }

  /**
   * Cutting an array at any point and concatenating the two slices rebuilds it, holes
   * and length included, whichever branch each of the four copies takes.
   */
  method SliceConcatRebuilds(O: JSObject, cut: nat, sliceFast: (bool, bool), concatFast: (bool, bool),
                             resultFast: nat -> bool, staysFast: nat -> bool) returns (B: JSObject)
    requires O.Valid() && O.isArray && cut <= O.len <= MAX_LENGTH
    ensures fresh(B) && B.len == O.len && B.elems == O.elems
  {
    var left := Slice(O, Fin(0), Some(Fin(cut)), sliceFast.0);
    var right := Slice(O, Fin(cut), None, sliceFast.1);
    ghost var p, q := Piece(left.elems, left.len, true), Piece(right.elems, right.len, true);
    JoinTwo(p, q);
    TwoFit(p, q);
    CutRebuilds(O.elems, O.len, cut, p, q);
    var r := Concat([Spread(left, concatFast.0), Spread(right, concatFast.1)], [p, q], resultFast, staysFast);
    B := r.value;
    forall i ensures At(B.elems, i) == At(O.elems, i) {
      assert At(B.elems, i) == JoinedAt([p, q], i) == BothAt(p, q, i);
    }
    SameElements(B.elems, O.elems);
  }

  function BothAt(p: Piece, q: Piece, i: int): Option<Value>
  {
    if 0 <= i < p.len then At(p.m, i)
    else if p.len <= i < p.len + q.len then At(q.m, i - p.len)
    else None
  }

  lemma TwoFit(p: Piece, q: Piece)
    requires p.len + q.len <= MAX_LENGTH
    ensures forall j :: 0 <= j < |[p, q]| ==> !TooLong([p, q], j)
  {
    JoinTwo(p, q);
  }

  lemma CutRebuilds(m: Elements, len: nat, cut: nat, p: Piece, q: Piece)
    requires cut <= len && forall i :: i in m ==> 0 <= i < len
    requires p.len == cut && q.len == len - cut
    requires forall i :: At(p.m, i) == SlicedAt(m, 0, cut, i)
    requires forall i :: At(q.m, i) == SlicedAt(m, cut, len, i)
    ensures forall i :: BothAt(p, q, i) == At(m, i)
  {
  }

  lemma JoinTwo(p: Piece, q: Piece)
    ensures JoinedLength([p, q]) == p.len + q.len
    ensures JoinedLength([p, q][..1]) == p.len && JoinedLength([p, q][..2]) == p.len + q.len
    ensures forall i :: JoinedAt([p, q], i) == BothAt(p, q, i)
  {
    var one, two := [p], [p, q];
    assert one[..|one| - 1] == [] && two[..|two| - 1] == one && two[..1] == one && two[..2] == two;
    assert JoinedLength(one) == JoinedLength([]) + p.len;
    assert JoinedLength(two) == JoinedLength(one) + q.len;
    forall i ensures JoinedAt(two, i) == BothAt(p, q, i) {
      assert JoinedAt(one, i) == if i < 0 then JoinedAt([], i) else if i < p.len then At(p.m, i) else None;
    }
  }
}
