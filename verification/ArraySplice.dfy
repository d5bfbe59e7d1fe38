/** Array.prototype.splice and toSpliced (sections 23.1.3.31 and 23.1.3.35 of ECMA-262). */
module ArraySplice {
  import opened Common
  import opened SparseObjects

  /** The arguments, after ToIntegerOrInfinity: what is missing changes the delete count. */
  datatype SpliceArgs =
    | NoArgs
    | StartOnly(start: ExtInt)
    | Full(start: ExtInt, deleteCount: ExtInt, items: seq<Value>)

  function ActualStart(args: SpliceArgs, len: nat): (r: nat)
    ensures r <= len
    ensures args.NoArgs? ==> r == 0
    ensures !args.NoArgs? && args.start.Fin? && 0 <= args.start.i <= len ==> r == args.start.i
    ensures !args.NoArgs? && args.start.Fin? && 0 - len <= args.start.i < 0 ==> r == args.start.i + len
    ensures !args.NoArgs? && (args.start.PosInf? || (args.start.Fin? && len < args.start.i)) ==> r == len
    ensures !args.NoArgs? && (args.start.NegInf? || (args.start.Fin? && args.start.i < 0 - len)) ==> r == 0
  {
    if args.NoArgs? then 0 else Clamp(args.start, len)
  }

  function ClampCount(count: ExtInt, limit: nat): (r: nat)
    ensures r <= limit
    ensures count.Fin? && 0 <= count.i <= limit ==> r == count.i
    ensures count.PosInf? || (count.Fin? && limit < count.i) ==> r == limit
    ensures count.NegInf? || (count.Fin? && count.i < 0) ==> r == 0
  {
    match count
    case NegInf => 0
    case PosInf => limit
    case Fin(i) => if i < 0 then 0 else if i < limit then i else limit
  }

  function ActualDelete(args: SpliceArgs, len: nat): (r: nat)
    ensures ActualStart(args, len) + r <= len
    ensures args.NoArgs? ==> r == 0
    ensures args.StartOnly? ==> ActualStart(args, len) + r == len
    ensures args.Full? && args.deleteCount.Fin? && args.deleteCount.i < 0 ==> r == 0
    ensures args.Full? && args.deleteCount.Fin? && 0 <= args.deleteCount.i <= len - ActualStart(args, len) ==>
              r == args.deleteCount.i
    ensures args.Full? && args.deleteCount.NegInf? ==> r == 0
    ensures args.Full? && (args.deleteCount.PosInf? || (args.deleteCount.Fin? && args.deleteCount.i > len - ActualStart(args, len))) ==>
              ActualStart(args, len) + r == len
  {
    match args
    case NoArgs => 0
    case StartOnly(_) => len - ActualStart(args, len)
    case Full(_, dc, _) => ClampCount(dc, len - ActualStart(args, len))
  }

  function Items(args: SpliceArgs): (r: seq<Value>)
    ensures !args.Full? ==> |r| == 0
    ensures args.Full? ==> |r| == |args.items| && forall i :: 0 <= i < |r| ==> r[i] == args.items[i]
  {
    if args.Full? then args.items else []
  }

  function NewLength(args: SpliceArgs, len: nat): nat
  {
    len - ActualDelete(args, len) + |Items(args)|
  }

  /** The reference result: prefix, items, suffix; holes keep their place. */
  function SplicedAt(m: Elements, len: nat, args: SpliceArgs, i: int): Option<Value>
  {
    var start, del, items := ActualStart(args, len), ActualDelete(args, len), Items(args);
    if start <= i < start + |items| then Some(items[i - start])
    else if start + |items| <= i < NewLength(args, len) then At(m, i - |items| + del)
    else if NewLength(args, len) <= i < len then None
    else At(m, i)
  }

  /** The removed range. */
  function RemovedAt(m: Elements, len: nat, args: SpliceArgs, i: int): Option<Value>
  {
    if 0 <= i < ActualDelete(args, len) then At(m, ActualStart(args, len) + i) else None
  }

  /** Positions `lo` to `hi-1` already hold the element `d` places further on. */
  function MovedAt(m: Elements, d: int, lo: int, hi: int, i: int): Option<Value>
  {
    if lo <= i < hi then At(m, i + d) else At(m, i)
  }

  /** The removed elements, copied into a fresh array. */
  method CopyRemoved(O: JSObject, start: nat, del: nat) returns (A: JSObject)
    requires O.Valid()
    ensures fresh(A) && A.Valid() && A.len == del
    ensures forall i :: At(A.elems, i) == if 0 <= i < del then At(O.elems, start + i) else None
  {
    A := new JSObject.NewArray(del);
    var k := 0;
    while k < del
      invariant 0 <= k <= del && A.Valid() && A.len == del && A.isArray
      invariant forall i :: At(A.elems, i) == if 0 <= i < k then At(O.elems, start + i) else None
    {
      var v := At(O.elems, start + k);
      if v.Some? {
        A.Put(k, v.value);
      }
      k := k + 1;
    }
    A.SetLength(del);
  }

  /** Fewer items than deleted elements: the suffix moves down, front to back, and the tail is deleted. */
  method MoveDown(O: JSObject, start: nat, del: nat, count: nat)
    requires O.Valid() && start + del <= O.len && count < del
    modifies O
    ensures O.Valid() && O.len == old(O.len)
    ensures forall i :: At(O.elems, i) ==
              if old(O.len) - del + count <= i < old(O.len) then None
              else MovedAt(old(O.elems), del - count, start + count, old(O.len) - del + count, i)
  {
    var len := O.len;
    ghost var m := O.elems;
    var k := start;
    while k < len - del
      invariant start <= k <= len - del && O.Valid() && O.len == len
      invariant forall i :: At(O.elems, i) == MovedAt(m, del - count, start + count, k + count, i)
    {
      var fromValue := At(O.elems, k + del);
      assert fromValue == MovedAt(m, del - count, start + count, k + count, k + del);
      if fromValue.Some? {
        O.Put(k + count, fromValue.value);
      } else {
        O.Delete(k + count);
      }
      k := k + 1;
    }
    k := len;
    while k > len - del + count
      invariant len - del + count <= k <= len && O.Valid() && O.len == len
      invariant forall i :: At(O.elems, i) ==
                  if k <= i < len then None
                  else MovedAt(m, del - count, start + count, len - del + count, i)
    {
      O.Delete(k - 1);
      k := k - 1;
    }
  }

  /** More items than deleted elements: the suffix moves up, back to front. */
  method MoveUp(O: JSObject, start: nat, del: nat, count: nat)
    requires O.Valid() && start + del <= O.len && del < count
    modifies O
    ensures O.Valid()
    ensures forall i :: At(O.elems, i) ==
              MovedAt(old(O.elems), del - count, start + count, old(O.len) - del + count, i)
  {
    var len := O.len;
    ghost var m := O.elems;
    var k := len - del;
    while k > start
      invariant start <= k <= len - del && O.Valid()
      invariant forall i :: At(O.elems, i) == MovedAt(m, del - count, k + count, len - del + count, i)
    {
      var fromValue := At(O.elems, k + del - 1);
      assert fromValue == MovedAt(m, del - count, k + count, len - del + count, k + del - 1);
      if fromValue.Some? {
        O.Put(k + count - 1, fromValue.value);
      } else {
        O.Delete(k + count - 1);
      }
      k := k - 1;
    }
  }

  /** Make room for `count` items in the place of `del` elements. */
  method MoveSuffix(O: JSObject, start: nat, del: nat, count: nat)
    requires O.Valid() && start + del <= O.len
    modifies O
    ensures O.Valid()
    ensures forall i :: At(O.elems, i) ==
              if old(O.len) - del + count <= i < old(O.len) then None
              else MovedAt(old(O.elems), del - count, start + count, old(O.len) - del + count, i)
  {
    if count < del {
      MoveDown(O, start, del, count);
    } else if count > del {
      MoveUp(O, start, del, count);
    }
  }

  method PutItems(O: JSObject, start: nat, items: seq<Value>)
    requires O.Valid()
    modifies O
    ensures O.Valid()
    ensures forall i :: At(O.elems, i) ==
              if start <= i < start + |items| then Some(items[i - start]) else At(old(O.elems), i)
  {
    ghost var m := O.elems;
    var n := 0;
    while n < |items|
      invariant 0 <= n <= |items| && O.Valid()
      invariant forall i :: At(O.elems, i) == if start <= i < start + n then Some(items[i - start]) else At(m, i)
    {
      O.Put(start + n, items[n]);
      n := n + 1;
    }
  }

  /** Moving the suffix, storing the items and setting the length give the reference result. */
  lemma SpliceComposes(m: Elements, len: nat, args: SpliceArgs, isArray: bool, moved: Elements, put: Elements, end: Elements)
    requires isArray ==> forall i :: i in m ==> i < len
    requires var start, del, count := ActualStart(args, len), ActualDelete(args, len), |Items(args)|;
             forall i :: At(moved, i) ==
               if len - del + count <= i < len then None
               else MovedAt(m, del - count, start + count, len - del + count, i)
    requires var start, items := ActualStart(args, len), Items(args);
             forall i :: At(put, i) == if start <= i < start + |items| then Some(items[i - start]) else At(moved, i)
    requires forall i :: At(end, i) == if isArray && NewLength(args, len) <= i then None else At(put, i)
    ensures forall i :: At(end, i) == SplicedAt(m, len, args, i)
  {
    hide ActualStart, ActualDelete, Items;
  }

  method Splice(O: JSObject, args: SpliceArgs) returns (r: Result<JSObject>)
    requires O.Valid()
    modifies O
    ensures O.Valid()
    ensures r.Err? <==> NewLength(args, old(O.len)) > MAX_LENGTH
    ensures r.Err? ==> r.error == TypeError && O.elems == old(O.elems) && O.len == old(O.len)
    ensures r.Ok? ==> fresh(r.value) && r.value.Valid() && r.value.len == ActualDelete(args, old(O.len))
    ensures r.Ok? ==> forall i :: At(r.value.elems, i) == RemovedAt(old(O.elems), old(O.len), args, i)
    ensures r.Ok? ==> O.len == NewLength(args, old(O.len))
    ensures r.Ok? ==> forall i :: At(O.elems, i) == SplicedAt(old(O.elems), old(O.len), args, i)
  {
    var len := O.len;
    var start, del, items := ActualStart(args, len), ActualDelete(args, len), Items(args);
    if len + |items| - del > MAX_LENGTH {
      return Err(TypeError);
    }
    ghost var m := O.elems;
    var A := CopyRemoved(O, start, del);
    assert forall i :: At(A.elems, i) == RemovedAt(m, len, args, i);
    hide SplicedAt, MovedAt, RemovedAt;
    MoveSuffix(O, start, del, |items|);
    ghost var moved := O.elems;
    PutItems(O, start, items);
    ghost var put := O.elems;
    O.SetLength(len - del + |items|);
    SpliceComposes(m, len, args, O.isArray, moved, put, O.elems);
    r := Ok(A);
  }

  function Filled(v: Option<Value>): (r: Value)
    ensures v == Some(r) || (v.None? && r == Undefined)
  {
    if v.Some? then v.value else Undefined
  }

  /** The copying variant: the state `splice` would leave, with every hole filled by undefined. */
  method ToSpliced(O: JSObject, args: SpliceArgs) returns (r: Result<JSObject>)
    requires O.Valid()
    ensures r.Err? <==> NewLength(args, O.len) > MAX_LENGTH
    ensures r.Err? ==> r.error == TypeError
    ensures r.Ok? ==> fresh(r.value) && r.value.Valid() && r.value.len == NewLength(args, O.len)
    ensures r.Ok? ==>
              forall i :: At(r.value.elems, i) ==
                if 0 <= i < NewLength(args, O.len) then Some(Filled(SplicedAt(O.elems, O.len, args, i))) else None
  {
    var len := O.len;
    var start, del, items := ActualStart(args, len), ActualDelete(args, len), Items(args);
    var newLen := len + |items| - del;
    if newLen > MAX_LENGTH {
      return Err(TypeError);
    }
    var A := new JSObject.NewArray(newLen);
    var i, from := 0, start + del;
    while i < start
      invariant 0 <= i <= start && A.Valid() && A.len == newLen && A.isArray
      invariant forall j :: 0 <= j < i ==> At(A.elems, j) == Some(Filled(SplicedAt(O.elems, len, args, j)))
    {
      A.Put(i, Filled(At(O.elems, i)));
      i := i + 1;
    }
    for k := 0 to |items|
      invariant i == start + k && A.Valid() && A.len == newLen && A.isArray
      invariant forall j :: 0 <= j < i ==> At(A.elems, j) == Some(Filled(SplicedAt(O.elems, len, args, j)))
    {
      A.Put(i, items[k]);
      i := i + 1;
    }
    while i < newLen
      invariant start + |items| <= i <= newLen && from == i - |items| + del
      invariant A.Valid() && A.len == newLen && A.isArray
      invariant forall j :: 0 <= j < i ==> At(A.elems, j) == Some(Filled(SplicedAt(O.elems, len, args, j)))
    {
      A.Put(i, Filled(At(O.elems, from)));
      i := i + 1;
      from := from + 1;
    }
    r := Ok(A);
  }

  /**
   * Splicing the removed elements back in for the inserted ones, a hole among them as
   * undefined: everything is as before, except that the removed holes are filled.
   */
  lemma SpliceBack(m: Elements, len: nat, args: SpliceArgs, m': Elements, removed: seq<Value>, i: int)
    requires forall j :: j in m ==> 0 <= j < len
    requires forall j :: At(m', j) == SplicedAt(m, len, args, j)
    requires |removed| == ActualDelete(args, len)
    requires forall j :: 0 <= j < |removed| ==> removed[j] == Filled(RemovedAt(m, len, args, j))
    ensures var back := Full(Fin(ActualStart(args, len)), Fin(|Items(args)|), removed);
            && NewLength(back, NewLength(args, len)) == len
            && SplicedAt(m', NewLength(args, len), back, i) ==
                 if ActualStart(args, len) <= i < ActualStart(args, len) + |removed| then Some(Filled(At(m, i))) else At(m, i)
  {
    var start, del, items := ActualStart(args, len), ActualDelete(args, len), Items(args);
    var back := Full(Fin(start), Fin(|items|), removed);
    assert ActualStart(back, NewLength(args, len)) == start;
    assert ActualDelete(back, NewLength(args, len)) == |items|;
    if start <= i < start + del {
      assert removed[i - start] == Filled(RemovedAt(m, len, args, i - start));
    } else if start + del <= i < len {
      assert At(m', i - del + |items|) == SplicedAt(m, len, args, i - del + |items|);
    }
  }

  /** So the array is restored if and only if no hole was removed. */
  lemma SpliceBackRestoresIff(m: Elements, len: nat, args: SpliceArgs, m': Elements, removed: seq<Value>)
    requires forall j :: j in m ==> 0 <= j < len
    requires forall j :: At(m', j) == SplicedAt(m, len, args, j)
    requires |removed| == ActualDelete(args, len)
    requires forall j :: 0 <= j < |removed| ==> removed[j] == Filled(RemovedAt(m, len, args, j))
    ensures var back := Full(Fin(ActualStart(args, len)), Fin(|Items(args)|), removed);
            (forall i :: SplicedAt(m', NewLength(args, len), back, i) == At(m, i)) <==>
            forall j :: ActualStart(args, len) <= j < ActualStart(args, len) + ActualDelete(args, len) ==> j in m
  {
    var start, del := ActualStart(args, len), ActualDelete(args, len);
    var back := Full(Fin(start), Fin(|Items(args)|), removed);
    forall i
      ensures SplicedAt(m', NewLength(args, len), back, i) ==
                if start <= i < start + del then Some(Filled(At(m, i))) else At(m, i)
    {
      SpliceBack(m, len, args, m', removed, i);
    }
    hide SplicedAt, ActualStart, ActualDelete, NewLength;
    forall j | start <= j < start + del && j !in m ensures SplicedAt(m', NewLength(args, len), back, j) != At(m, j) {
    }
  }

  /** On a vector without holes: the slices before and after the removed one, with the items between them. */
  lemma SplicesVector(v: seq<Value>, m: Elements, args: SpliceArgs, i: int)
    requires forall j :: At(m, j) == if 0 <= j < |v| then Some(v[j]) else None
    ensures var start, del := ActualStart(args, |v|), ActualDelete(args, |v|);
            var spliced := v[..start] + Items(args) + v[start + del..];
            && |spliced| == NewLength(args, |v|)
            && SplicedAt(m, |v|, args, i) == if 0 <= i < |spliced| then Some(spliced[i]) else None
  {
  }
}
