/** What the iterator helpers mean: functions on lists. */
module IteratorLists {
  import opened Common
  import opened SparseObjects

  /** The limit of `take` and `drop`. */
  datatype Limit = Finite(n: nat) | Infinity

  /** How a pipeline of helpers is put together; callbacks do not throw. */
  datatype Recipe =
    | Source(items: seq<Value>, endsOnReturn: bool)
    | Mapping(f: (Value, nat) -> Value, inner: Recipe)
    | Filtering(p: (Value, nat) -> bool, inner: Recipe)
    | Taking(limit: Limit, inner: Recipe)
    | Dropping(limit: Limit, inner: Recipe)
    | FlatMapping(pool: seq<Recipe>, otherwise: Recipe, choose: (Value, nat) -> nat, inner: Recipe)
    | Concatenation(parts: seq<Recipe>)

  function MapFrom(f: (Value, nat) -> Value, c: nat, s: seq<Value>): seq<Value>
    decreases |s|
  {
    if s == [] then [] else [f(s[0], c)] + MapFrom(f, c + 1, s[1..])
  }

  function FilterFrom(p: (Value, nat) -> bool, c: nat, s: seq<Value>): seq<Value>
    decreases |s|
  {
    if s == [] then []
    else (if p(s[0], c) then [s[0]] else []) + FilterFrom(p, c + 1, s[1..])
  }

  function TakeFrom(limit: Limit, s: seq<Value>): seq<Value>
  {
    if limit.Finite? && limit.n < |s| then s[..limit.n] else s
  }

  function DropFrom(limit: Limit, s: seq<Value>): seq<Value>
  {
    if limit.Finite? && limit.n <= |s| then s[limit.n..] else []
  }

  /** The iterable a flatMap callback returns: one of a finite pool, or a default. */
  function Pick<T>(pool: seq<T>, i: nat, otherwise: T): (r: T)
    ensures i < |pool| ==> r == pool[i]
    ensures i >= |pool| ==> r == otherwise
  {
    if i < |pool| then pool[i] else otherwise
  }

  function FlatFrom(pool: seq<seq<Value>>, otherwise: seq<Value>, choose: (Value, nat) -> nat, c: nat, s: seq<Value>): seq<Value>
    decreases |s|
  {
    if s == [] then []
    else Pick(pool, choose(s[0], c), otherwise) + FlatFrom(pool, otherwise, choose, c + 1, s[1..])
  }

  function ConcatAll(lists: seq<seq<Value>>): seq<Value>
  {
    if lists == [] then [] else lists[0] + ConcatAll(lists[1..])
  }

  /** The list a pipeline stands for. */
  function Denote(r: Recipe): seq<Value>
    decreases r, 0
  {
    match r
    case Source(items, _) => items
    case Mapping(f, inner) => MapFrom(f, 0, Denote(inner))
    case Filtering(p, inner) => FilterFrom(p, 0, Denote(inner))
    case Taking(limit, inner) => TakeFrom(limit, Denote(inner))
    case Dropping(limit, inner) => DropFrom(limit, Denote(inner))
    case FlatMapping(pool, otherwise, choose, inner) =>
      FlatFrom(DenoteAll(pool), Denote(otherwise), choose, 0, Denote(inner))
    case Concatenation(parts) => ConcatAll(DenoteAll(parts))
  }

  function DenoteAll(rs: seq<Recipe>): (lists: seq<seq<Value>>)
    ensures |lists| == |rs|
    ensures forall i :: 0 <= i < |rs| ==> lists[i] == Denote(rs[i])
    decreases rs, 1
  {
    if rs == [] then [] else [Denote(rs[0])] + DenoteAll(rs[1..])
  }

  function Height(r: Recipe): nat
    decreases r, 0
  {
    match r
    case Source(_, _) => 0
    case Mapping(_, inner) => 1 + Height(inner)
    case Filtering(_, inner) => 1 + Height(inner)
    case Taking(_, inner) => 1 + Height(inner)
    case Dropping(_, inner) => 1 + Height(inner)
    case FlatMapping(pool, otherwise, _, inner) => 1 + HeightAll(pool) + Height(otherwise) + Height(inner)
    case Concatenation(parts) => 1 + HeightAll(parts)
  }

  function HeightAll(rs: seq<Recipe>): (h: nat)
    ensures forall i :: 0 <= i < |rs| ==> Height(rs[i]) <= h
    decreases rs, 1
  {
    if rs == [] then 0 else Height(rs[0]) + HeightAll(rs[1..])
  }

  /** After `return()` such a pipeline yields nothing more. */
  predicate Sealed(r: Recipe)
    decreases r, 0
  {
    match r
    case Source(_, endsOnReturn) => endsOnReturn
    case Mapping(_, inner) => Sealed(inner)
    case Filtering(_, inner) => Sealed(inner)
    case Taking(_, inner) => Sealed(inner)
    case Dropping(_, inner) => Sealed(inner)
    case FlatMapping(pool, otherwise, _, inner) => SealedAll(pool) && Sealed(otherwise) && Sealed(inner)
    case Concatenation(_) => true
  }

  predicate SealedAll(rs: seq<Recipe>)
    ensures SealedAll(rs) ==> forall i :: 0 <= i < |rs| ==> Sealed(rs[i])
    decreases rs, 1
  {
    rs == [] || (Sealed(rs[0]) && SealedAll(rs[1..]))
  }

  /** Such a pipeline does not notice `return()` at all. */
  predicate Transparent(r: Recipe)
    decreases r, 0
  {
    match r
    case Source(_, endsOnReturn) => !endsOnReturn
    case Mapping(_, inner) => Transparent(inner)
    case Filtering(_, inner) => Transparent(inner)
    case Taking(_, inner) => Transparent(inner)
    case Dropping(_, inner) => Transparent(inner)
    case FlatMapping(pool, otherwise, _, inner) => TransparentAll(pool) && Transparent(otherwise) && Transparent(inner)
    case Concatenation(_) => false
  }

  predicate TransparentAll(rs: seq<Recipe>)
    ensures TransparentAll(rs) ==> forall i :: 0 <= i < |rs| ==> Transparent(rs[i])
    decreases rs, 1
  {
    rs == [] || (Transparent(rs[0]) && TransparentAll(rs[1..]))
  }

  /** The list a pipeline stands for when `return()` is the first call on it. */
  function LeftOver(r: Recipe): seq<Value>
  {
    match r
    case Source(items, endsOnReturn) => if endsOnReturn then [] else items
    case Mapping(f, inner) => MapFrom(f, 0, LeftOver(inner))
    case Filtering(p, inner) => FilterFrom(p, 0, LeftOver(inner))
    case Taking(limit, inner) => TakeFrom(limit, LeftOver(inner))
    case Dropping(limit, inner) => DropFrom(limit, LeftOver(inner))
    case FlatMapping(pool, otherwise, choose, inner) =>
      FlatFrom(DenoteAll(pool), Denote(otherwise), choose, 0, LeftOver(inner))
    case Concatenation(_) => []
  }

  /** The two extremes of what is left. */
  lemma {:induction false} LeftOverExtremes(r: Recipe)
    ensures Sealed(r) ==> LeftOver(r) == []
    ensures Transparent(r) ==> LeftOver(r) == Denote(r)
  {
    match r {
      case Source(_, _) =>
      case Concatenation(_) =>
      case _ => LeftOverExtremes(r.inner);
    }
  }

  // ---- laws that determine the list functions ----

  /** The value at a position is mapped with that position. */
  lemma {:induction false} MapFromAt(f: (Value, nat) -> Value, c: nat, s: seq<Value>, i: nat)
    requires i < |s|
    ensures |MapFrom(f, c, s)| == |s| && MapFrom(f, c, s)[i] == f(s[i], c + i)
    decreases |s|
  {
    if |s| > 1 {
      MapFromAt(f, c + 1, s[1..], if i > 0 then i - 1 else 0);
    }
  }

  lemma Regroup(a: seq<Value>, b: seq<Value>, c: seq<Value>)
    ensures a + (b + c) == (a + b) + c
  {
  }

  /** A value at the end is kept exactly when the predicate holds of it and its position. */
  lemma {:induction false} FilterFromEnd(p: (Value, nat) -> bool, c: nat, s: seq<Value>, x: Value)
    ensures FilterFrom(p, c, s + [x]) == FilterFrom(p, c, s) + if p(x, c + |s|) then [x] else []
    decreases |s|
  {
    if s == [] {
      assert [] + [x] == [x] && [x][1..] == [];
    } else {
      var first, last := if p(s[0], c) then [s[0]] else [], if p(x, c + |s|) then [x] else [];
      assert (s + [x])[1..] == s[1..] + [x];
      FilterFromEnd(p, c + 1, s[1..], x);
      Regroup(first, FilterFrom(p, c + 1, s[1..]), last);
    }
  }

  /** Taking and dropping cut the list at the limit. */
  lemma TakeDropCut(limit: Limit, s: seq<Value>)
    ensures TakeFrom(limit, s) + DropFrom(limit, s) == s
    ensures limit.Finite? ==> |TakeFrom(limit, s)| == if limit.n < |s| then limit.n else |s|
    ensures limit.Infinity? ==> TakeFrom(limit, s) == s
  {
  }

  /** A value at the end adds the list chosen for it and its position. */
  lemma {:induction false} FlatFromEnd(
      pool: seq<seq<Value>>, otherwise: seq<Value>, choose: (Value, nat) -> nat, c: nat, s: seq<Value>, x: Value)
    ensures FlatFrom(pool, otherwise, choose, c, s + [x]) ==
            FlatFrom(pool, otherwise, choose, c, s) + Pick(pool, choose(x, c + |s|), otherwise)
    decreases |s|
  {
    if s == [] {
      assert [] + [x] == [x] && [x][1..] == [];
    } else {
      assert (s + [x])[1..] == s[1..] + [x];
      FlatFromEnd(pool, otherwise, choose, c + 1, s[1..], x);
    }
  }

  lemma {:induction false} ConcatAllEnd(lists: seq<seq<Value>>, x: seq<Value>)
    ensures ConcatAll(lists + [x]) == ConcatAll(lists) + x
  {
    if lists == [] {
      assert [] + [x] == [x] && [x][1..] == [];
    } else {
      assert (lists + [x])[1..] == lists[1..] + [x];
      ConcatAllEnd(lists[1..], x);
    }
  }
}
