/** Array.prototype.join (section 23.1.3.18 of ECMA-262), jumping over undefined elements. */
module ArrayJoin {
  import opened Common
  import opened SparseObjects

  /** ToString of an element that is neither undefined nor null. */
  type Printer = Value -> string

  predicate IsUndefined(v: Option<Value>)
  {
    v.None? || v.value.Undefined?
  }

  function Rendered(str: Printer, m: Elements, i: int): string
  {
    var v := At(m, i);
    if IsUndefined(v) || v.value.Null? then "" else str(v.value)
  }

  /** Holes, undefined and null render as the empty string, everything else as its own text. */
  lemma Renders(str: Printer, m: Elements, i: int)
    ensures i !in m || m[i] == Undefined || m[i] == Null ==> Rendered(str, m, i) == ""
    ensures i in m && m[i] != Undefined && m[i] != Null ==> Rendered(str, m, i) == str(m[i])
  {
  }

  /** The element-by-element join of the first `n` elements. */
  function Joined(str: Printer, sep: string, m: Elements, n: nat): string
  {
    if n == 0 then ""
    else if n == 1 then Rendered(str, m, 0)
    else Joined(str, sep, m, n - 1) + sep + Rendered(str, m, n - 1)
  }

  function Repeat(sep: string, n: nat): string
  {
    if n == 0 then "" else Repeat(sep, n - 1) + sep
  }

  ghost predicate Blank(str: Printer, m: Elements, from: int, to: int)
  {
    forall i :: from <= i < to ==> Rendered(str, m, i) == ""
  }

  /** Over blank elements the join only grows by separators. */
  lemma {:induction false} JoinedOverBlanks(str: Printer, sep: string, m: Elements, a: nat, b: nat)
    requires 0 < a <= b && Blank(str, m, a, b)
    ensures Joined(str, sep, m, b) == Joined(str, sep, m, a) + Repeat(sep, b - a)
  {
    if a < b {
      JoinedOverBlanks(str, sep, m, a, b - 1);
      assert Rendered(str, m, b - 1) == "";
    }
  }

  lemma {:induction false} RepeatNothing(sep: string, n: nat)
    requires sep == ""
    ensures Repeat(sep, n) == ""
  {
    if n > 0 {
      RepeatNothing(sep, n - 1);
    }
  }

  /** Visiting `cur` after `prev` with only blanks between them. */
  lemma JoinedVisit(str: Printer, sep: string, m: Elements, prev: nat, cur: nat)
    requires prev < cur ==> Blank(str, m, prev + 1, cur)
    ensures prev < cur ==>
              Joined(str, sep, m, cur + 1) == Joined(str, sep, m, prev + 1) + Repeat(sep, cur - prev) + Rendered(str, m, cur)
    ensures prev < cur ==> Repeat(sep, cur - prev) == Repeat(sep, cur - prev - 1) + sep
    ensures cur == 0 ==> Joined(str, sep, m, cur + 1) == Rendered(str, m, 0)
  {
    if prev < cur {
      JoinedOverBlanks(str, sep, m, prev + 1, cur);
    }
  }

  /** The least index after `cur` whose value is not undefined, or `len`. */
  method NextDefined(O: JSObject, cur: int, len: int) returns (next: int)
    requires O.Valid() && cur < len
    ensures cur < next <= len
    ensures forall i :: cur < i < next ==> IsUndefined(At(O.elems, i))
  {
    next := len;
    var todo: set<int> := O.elems.Keys;
    while exists i :: i in todo
      invariant todo <= O.elems.Keys && cur < next <= len
      invariant forall i :: i in O.elems && i !in todo && cur < i < next ==> O.elems[i].Undefined?
      decreases todo
    {
      var i :| i in todo;
      todo := todo - {i};
      if !O.elems[i].Undefined? && i > cur && next > i {
        next := i;
      }
    }
  }

  /** The first undefined element from `from` on, or `len`. */
  function FirstUndefined(m: Elements, from: nat, len: nat): (r: nat)
    requires from <= len
    ensures from <= r <= len
    ensures forall i :: from <= i < r ==> !IsUndefined(At(m, i))
    ensures r < len ==> IsUndefined(At(m, r))
    decreases len - from
  {
    if from == len || IsUndefined(At(m, from)) then from else FirstUndefined(m, from + 1, len)
  }

  /** What `join` gets to see: on a proxy, nothing after the first undefined element. */
  function Seen(ordinary: bool, m: Elements, len: nat): Elements
  {
    if ordinary then m else map i | i in m && i < FirstUndefined(m, 0, len) :: m[i]
  }

  /** Up to the first undefined element, a proxy shows what it has; after it, nothing. */
  lemma SeenRendered(str: Printer, ordinary: bool, m: Elements, len: nat, i: nat)
    requires i < len
    ensures ordinary || i <= FirstUndefined(m, 0, len) ==> Rendered(str, Seen(ordinary, m, len), i) == Rendered(str, m, i)
    ensures !ordinary && i >= FirstUndefined(m, 0, len) ==> Rendered(str, Seen(ordinary, m, len), i) == ""
  {
  }

  /** The separators owed since `prev`, then the element at `cur`. */
  method Visit(s: string, sep: string, str: Printer, m: Elements, prev: nat, cur: nat, ghost seen: Elements)
      returns (r: string)
    requires prev <= cur && (cur > 0 ==> prev < cur)
    requires s == if cur == 0 then "" else Joined(str, sep, seen, prev + 1)
    requires cur > 0 ==> Blank(str, seen, prev + 1, cur)
    requires Rendered(str, seen, cur) == Rendered(str, m, cur)
    ensures r == Joined(str, sep, seen, cur + 1)
  {
    JoinedVisit(str, sep, seen, prev, cur);
    r := s;
    if cur != 0 {
      if |sep| > 0 {
        r := AppendSeparators(r, sep, prev, cur);
        r := r + sep;
      } else {
        RepeatNothing(sep, cur - prev);
      }
      assert r == s + Repeat(sep, cur - prev);
    }
    var elem := At(m, cur);
    if !IsUndefined(elem) && !elem.value.Null? {
      r := r + str(elem.value);
    }
  }

  /** The separators owed at the end. */
  method Finish(s: string, sep: string, str: Printer, prev: nat, len: nat, ghost seen: Elements) returns (r: string)
    requires prev <= len && (len > 0 ==> prev < len)
    requires s == if len == 0 then "" else Joined(str, sep, seen, prev + 1)
    requires len > 0 ==> Blank(str, seen, prev + 1, len)
    ensures r == Joined(str, sep, seen, len)
  {
    r := s;
    if len > 0 {
      JoinedOverBlanks(str, sep, seen, prev + 1, len);
    }
    if |sep| > 0 {
      r := AppendSeparators(r, sep, prev, len);
    } else if len > 0 {
      RepeatNothing(sep, len - prev - 1);
    }
  }

  /** `active`: the objects whose join is running already, for which the answer is the empty string. */
  method Join(O: JSObject, separator: Option<string>, str: Printer, active: set<JSObject>) returns (r: string)
    requires O.Valid()
    ensures O in active ==> r == ""
    ensures O !in active ==>
              var sep := if separator.Some? then separator.value else ",";
              r == Joined(str, sep, Seen(O.ordinary, O.elems, O.len), O.len)
  {
    var len := O.len;
    var sep := if separator.Some? then separator.value else ",";
    if O in active {
      return "";
    }
    ghost var seen := Seen(O.ordinary, O.elems, len);
    ghost var first := FirstUndefined(O.elems, 0, len);
    forall i | 0 <= i < len
      ensures O.ordinary || i <= first ==> Rendered(str, seen, i) == Rendered(str, O.elems, i)
      ensures !O.ordinary && i >= first ==> Rendered(str, seen, i) == ""
    {
      SeenRendered(str, O.ordinary, O.elems, len, i);
    }
    r := "";
    var prevIndex, curIndex := 0, 0;
    while curIndex < len
      invariant 0 <= prevIndex <= curIndex <= len && (curIndex > 0 ==> prevIndex < curIndex)
      invariant r == if curIndex == 0 then "" else Joined(str, sep, seen, prevIndex + 1)
      invariant curIndex > 0 ==> Blank(str, seen, prevIndex + 1, curIndex)
      invariant O.ordinary || curIndex <= first || curIndex == len
      decreases len - curIndex
    {
      r := Visit(r, sep, str, O.elems, prevIndex, curIndex, seen);
      prevIndex := curIndex;
      if IsUndefined(At(O.elems, curIndex)) {
        if O.ordinary {
          curIndex := NextDefined(O, curIndex, len);
        } else {
          curIndex := len;
        }
      } else {
        curIndex := curIndex + 1;
      }
    }
    r := Finish(r, sep, str, prevIndex, curIndex, seen);
  }

  /** `while (curIndex - prevIndex > 1)`: one separator for every skipped element. */
  method AppendSeparators(s: string, sep: string, prev: int, cur: int) returns (r: string)
    requires prev <= cur
    ensures r == s + Repeat(sep, if cur - prev > 1 then cur - prev - 1 else 0)
  {
    var prevIndex := prev;
    r := s;
    while cur - prevIndex > 1
      invariant prev <= prevIndex <= cur && (prev < cur ==> prevIndex < cur)
      invariant r == s + Repeat(sep, prevIndex - prev)
    {
      r := r + sep;
      prevIndex := prevIndex + 1;
    }
  }

  /** Hiding elements can only shorten the join, and leaves it alone only if they were blank. */
  lemma {:induction false} HidingShortens(str: Printer, sep: string, m: Elements, hidden: Elements, n: nat)
    requires forall i :: 0 <= i < n ==> Rendered(str, hidden, i) == Rendered(str, m, i) || Rendered(str, hidden, i) == ""
    ensures |Joined(str, sep, hidden, n)| <= |Joined(str, sep, m, n)|
    ensures |Joined(str, sep, hidden, n)| == |Joined(str, sep, m, n)| ==>
              forall i :: 0 <= i < n ==> Rendered(str, hidden, i) == Rendered(str, m, i)
    ensures (forall i :: 0 <= i < n ==> Rendered(str, hidden, i) == Rendered(str, m, i)) ==>
              Joined(str, sep, hidden, n) == Joined(str, sep, m, n)
  {
    if n == 0 {
    } else if n == 1 {
      assert Rendered(str, hidden, 0) == Rendered(str, m, 0) || Rendered(str, hidden, 0) == "";
    } else {
      HidingShortens(str, sep, m, hidden, n - 1);
      assert Rendered(str, hidden, n - 1) == Rendered(str, m, n - 1) || Rendered(str, hidden, n - 1) == "";
    }
  }

  /** On a proxy, `join` is right exactly when everything after the first undefined element is blank. */
  lemma ProxyJoinRightIff(str: Printer, sep: string, m: Elements, len: nat)
    ensures Joined(str, sep, Seen(false, m, len), len) == Joined(str, sep, m, len) <==>
            Blank(str, m, FirstUndefined(m, 0, len), len)
  {
    var seen := Seen(false, m, len);
    forall i | 0 <= i < len
      ensures i <= FirstUndefined(m, 0, len) ==> Rendered(str, seen, i) == Rendered(str, m, i)
      ensures i >= FirstUndefined(m, 0, len) ==> Rendered(str, seen, i) == ""
    {
      SeenRendered(str, false, m, len, i);
    }
    HidingShortens(str, sep, m, seen, len);
  }

  /** A proxy for `["a", undefined, "b"]` joins to "a,," instead of "a,,b". */
  lemma ProxyJoinWrong(str: Printer)
    requires str(Text("b")) == "b"
    ensures var m := map[0 := Text("a"), 1 := Undefined, 2 := Text("b")];
            Joined(str, ",", Seen(false, m, 3), 3) != Joined(str, ",", m, 3)
  {
    var m := map[0 := Text("a"), 1 := Undefined, 2 := Text("b")];
    ProxyJoinRightIff(str, ",", m, 3);
    assert FirstUndefined(m, 0, 3) <= 1;
    assert Rendered(str, m, 2) == "b";
  }

  /** Three elements, with a hole or null in the middle, and the default separator. */
  lemma JoinsThree(str: Printer, sep: string, m: Elements)
    requires 0 in m && m[0].Text? && 2 in m && m[2].Text? && (1 in m ==> m[1].Null? || m[1].Undefined?)
    ensures Joined(str, sep, m, 3) == str(m[0]) + sep + sep + str(m[2])
  {
    assert Joined(str, sep, m, 1) == str(m[0]);
    assert Joined(str, sep, m, 2) == Joined(str, sep, m, 1) + sep + "";
  }
}
