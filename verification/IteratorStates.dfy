/** The state of one iterator helper as a value, and what each of its closures keeps. */
module IteratorStates {
  import opened Common
  import opened SparseObjects
  import opened IteratorLists

  function HeadOf(s: seq<Value>): Option<Value>
  {
    if s == [] then None else Some(s[0])
  }

  function TailOf(s: seq<Value>): seq<Value>
  {
    if s == [] then [] else s[1..]
  }

  /** An IteratorRecord: its done flag, and the history of its use. */
  datatype RecState = RecState(
    recipe: Recipe,       // what it iterates
    rest: seq<Value>,     // the values it still has
    after: seq<Value>,    // the values it would still have after `return()`
    done: bool,           // m_done
    pulled: nat,          // how many values it has yielded
    exhausted: bool,      // it has reported done
    closes: nat,          // how often it was closed
    lateClose: bool)      // it was closed after it had reported done

  function Stepped(r: RecState, after: seq<Value>): RecState
  {
    if r.rest == [] then r.(exhausted := true, after := after)
    else r.(rest := r.rest[1..], pulled := r.pulled + 1, after := after)
  }

  /** `r'` is `r` after its iterator's `return` was called. */
  ghost predicate Closed(r: RecState, r': RecState)
  {
    && r' == r.(closes := r.closes + 1, lateClose := r.lateClose || r.exhausted, rest := r.after, after := r'.after)
    && (Sealed(r.recipe) ==> r'.rest == [])
    && (Transparent(r.recipe) ==> r'.rest == r.rest)
  }

  /** Closed at most once, and never after it reported done. */
  ghost predicate Disciplined(r: RecState)
  {
    r.closes <= 1 && (r.closes == 1 ==> r.done) && (r.exhausted ==> r.done) && !r.lateClose
  }

  /** A helper object with its closure data; `rest` is what it still stands for. */
  datatype HelperState = HelperState(
    items: seq<Value>,
    isDone: bool,
    counter: nat,
    remaining: Limit,
    innerAlive: bool,
    recs: seq<RecState>,
    rest: seq<Value>)

  ghost predicate Good(r: Recipe, s: HelperState)
  {
    && Means(r, s)
    && (Sealed(r) && s.isDone ==> s.rest == [])
  }

  ghost predicate Means(r: Recipe, s: HelperState)
  {
    match r
    case Source(_, _) => s.recs == [] && s.rest == s.items && !s.isDone && !s.innerAlive
    case Mapping(f, inner) =>
      One(inner, s) && s.counter == s.recs[0].pulled && s.rest == MapFrom(f, s.counter, s.recs[0].rest)
    case Filtering(p, inner) =>
      One(inner, s) && s.counter == s.recs[0].pulled && s.rest == FilterFrom(p, s.counter, s.recs[0].rest)
    case Taking(_, inner) => One(inner, s) && s.rest == TakeFrom(s.remaining, s.recs[0].rest)
    case Dropping(_, inner) => One(inner, s) && s.rest == DropFrom(s.remaining, s.recs[0].rest)
    case FlatMapping(_, _, _, _) => Flat(r, s)
    case Concatenation(_) => Chain(r, s)
  }

  ghost predicate One(inner: Recipe, s: HelperState)
  {
    && |s.recs| == 1 && s.recs[0].recipe == inner && Disciplined(s.recs[0])
    && (s.recs[0].done ==> s.isDone) && !s.innerAlive
  }

  ghost predicate Flat(r: Recipe, s: HelperState)
    requires r.FlatMapping?
  {
    && |s.recs| >= 1 && s.recs[0].recipe == r.inner
    && s.counter == s.recs[0].pulled == |s.recs| - 1
    && (s.recs[0].done ==> s.isDone)
    && (s.innerAlive ==> |s.recs| >= 2 && (Last(s).done ==> s.isDone))
    && (forall i :: 0 <= i < |s.recs| ==> Disciplined(s.recs[i]))
    && (forall i :: 1 <= i < |s.recs| ==> InnerRecord(r, s, i))
    && s.rest == InnerRest(s) + FlatRest(r, s.counter, s.recs[0].rest)
  }

  /** All inner records but the latest are done. */
  ghost predicate InnerRecord(r: Recipe, s: HelperState, i: int)
    requires 0 <= i < |s.recs|
  {
    && (s.recs[i].done || (s.innerAlive && i == |s.recs| - 1))
    && (Sealed(r) ==> Sealed(s.recs[i].recipe))
    && (Transparent(r) ==> Transparent(s.recs[i].recipe))
  }

  function Last(s: HelperState): RecState
    requires s.recs != []
  {
    s.recs[|s.recs| - 1]
  }

  function InnerRest(s: HelperState): seq<Value>
  {
    if s.innerAlive && s.recs != [] then Last(s).rest else []
  }

  function FlatRest(r: Recipe, c: nat, s: seq<Value>): seq<Value>
    requires r.FlatMapping?
  {
    FlatFrom(DenoteAll(r.pool), Denote(r.otherwise), r.choose, c, s)
  }

  ghost predicate Chain(r: Recipe, s: HelperState)
    requires r.Concatenation?
  {
    && |s.recs| == s.counter + (if s.innerAlive then 1 else 0) <= |r.parts|
    && (forall i :: 0 <= i < |s.recs| ==> s.recs[i].closes <= 1 && (s.recs[i].closes == 1 ==> s.recs[i].done))
    && (!s.isDone ==> forall i :: 0 <= i < |s.recs| ==> OpenRecord(r, s, i))
    && s.rest == if s.isDone then [] else InnerRest(s) + ConcatAll(DenoteAll(r.parts[|s.recs|..]))
  }

  /** A record of a concatenation keeps its done flag clear, even when it is exhausted. */
  ghost predicate OpenRecord(r: Recipe, s: HelperState, i: int)
    requires r.Concatenation? && 0 <= i < |s.recs|
  {
    var rec := s.recs[i];
    && !rec.done && rec.closes == 0 && !rec.lateClose && (rec.exhausted <==> i < s.counter)
    && i < |r.parts| && rec.recipe == r.parts[i]
    && rec.pulled <= |Denote(r.parts[i])| && rec.rest == Denote(r.parts[i])[rec.pulled..]
  }

  /** A helper over one iterator, as its constructor leaves it. */
  function Initial(r: Recipe): HelperState
    requires !r.Source? && !r.Concatenation?
  {
    HelperState([], false, 0, if r.Taking? || r.Dropping? then r.limit else Infinity, false, [Opened(r.inner)], Denote(r))
  }

  lemma InitialIsGood(r: Recipe)
    requires !r.Source? && !r.Concatenation?
    ensures Good(r, Initial(r)) && AfterReturn(r, Initial(r)) == LeftOver(r)
  {
  }

  // ---- map, filter, take, drop ----

  predicate OneInner(r: Recipe)
  {
    r.Mapping? || r.Filtering? || r.Taking? || r.Dropping?
  }

  lemma OneHasRecord(r: Recipe, s: HelperState)
    requires Good(r, s)
    ensures OneInner(r) ==> |s.recs| == 1 && !s.innerAlive
    ensures r.FlatMapping? ==> |s.recs| >= 1 && (s.innerAlive ==> |s.recs| >= 2)
    ensures r.Concatenation? ==> s.innerAlive == (|s.recs| > s.counter) && s.counter <= |r.parts|
  {
  }

  function Ended(s: HelperState, after: seq<Value>): HelperState
    requires s.recs != []
  {
    s.(recs := s.recs[0 := Stepped(s.recs[0], after).(done := true)], isDone := true)
  }

  /** The only underlying iterator is exhausted: there was nothing left to yield. */
  lemma OneEnds(r: Recipe, s: HelperState, after: seq<Value>, remaining: Limit)
    requires OneInner(r) && Good(r, s) && s.recs[0].rest == []
    ensures s.rest == [] && Good(r, Ended(s, after).(remaining := remaining))
  {
  }

  function OneStep(s: HelperState, after: seq<Value>): HelperState
    requires s.recs != []
  {
    s.(recs := s.recs[0 := Stepped(s.recs[0], after)])
  }

  lemma MapYields(r: Recipe, s: HelperState, after: seq<Value>)
    requires r.Mapping? && Good(r, s) && s.recs[0].rest != []
    ensures Good(r, OneStep(s, after).(counter := s.counter + 1, rest := TailOf(s.rest)))
    ensures HeadOf(s.rest) == Some(r.f(s.recs[0].rest[0], s.counter))
  {
  }

  lemma FilterSteps(r: Recipe, s: HelperState, after: seq<Value>)
    requires r.Filtering? && Good(r, s) && s.recs[0].rest != []
    ensures var v := s.recs[0].rest[0];
            var s' := OneStep(s, after).(counter := s.counter + 1);
            if r.p(v, s.counter) then Good(r, s'.(rest := TailOf(s.rest))) && HeadOf(s.rest) == Some(v) else Good(r, s')
  {
    var v := s.recs[0].rest[0];
    assert s.rest == (if r.p(v, s.counter) then [v] else []) + FilterFrom(r.p, s.counter + 1, s.recs[0].rest[1..]);
    assert [] + FilterFrom(r.p, s.counter + 1, s.recs[0].rest[1..]) == FilterFrom(r.p, s.counter + 1, s.recs[0].rest[1..]);
    assert s.rest != [] && r.p(v, s.counter) ==> s.rest[1..] == FilterFrom(r.p, s.counter + 1, s.recs[0].rest[1..]);
  }

  function Less(limit: Limit): Limit
  {
    if limit.Finite? && limit.n > 0 then Finite(limit.n - 1) else limit
  }

  lemma TakeYields(r: Recipe, s: HelperState, after: seq<Value>)
    requires r.Taking? && Good(r, s) && s.recs[0].rest != [] && s.remaining != Finite(0)
    ensures Good(r, OneStep(s, after).(remaining := Less(s.remaining), rest := TailOf(s.rest)))
    ensures HeadOf(s.rest) == Some(s.recs[0].rest[0])
  {
  }

  /** The limit is used up: the underlying iterator is flagged and closed, unless it is done. */
  lemma TakeEnds(r: Recipe, s: HelperState, s': HelperState)
    requires r.Taking? && Good(r, s) && s.remaining == Finite(0)
    requires |s'.recs| == 1 && ClosedUnlessDone(s.recs[0], s'.recs[0]) && s' == s.(isDone := true, recs := s'.recs)
    ensures Good(r, s') && s.rest == []
  {
  }

  /** What one `next` of a take does to its record and its limit. */
  ghost predicate TakeMoves(s: HelperState, s': HelperState)
  {
    && |s.recs| == 1 && |s'.recs| == 1
    && if s.remaining == Finite(0) then s'.isDone && ClosedUnlessDone(s.recs[0], s'.recs[0])
       else
         && s'.remaining == Less(s.remaining)
         && var stepped := Stepped(s.recs[0], s'.recs[0].after);
            s'.recs[0] == if s.recs[0].rest == [] then stepped.(done := true) else stepped
  }

  /** A take whose underlying iterator is still open. */
  predicate TakeOpen(r: Recipe, s: HelperState)
  {
    r.Taking? && |s.recs| == 1 && !s.recs[0].done && s.recs[0].closes == 0
  }

  /** The limit will be used up before the underlying iterator reports done. */
  predicate WillClose(s: HelperState)
  {
    |s.recs| == 1 && s.remaining.Finite? && s.remaining.n <= |s.recs[0].rest|
  }

  /** While values come, nothing is closed; at the end, the iterator has been closed once if the limit stopped it, else never. */
  lemma TakeClosesIff(r: Recipe, s: HelperState, s': HelperState)
    requires Good(r, s) && TakeOpen(r, s) && TakeMoves(s, s')
    ensures s.rest != [] ==> TakeOpen(r, s') && WillClose(s') == WillClose(s)
    ensures s.rest == [] ==> |s'.recs| == 1 && s'.recs[0].closes == if WillClose(s) then 1 else 0
  {
  }

  /** One value is dropped. */
  lemma DropSkips(r: Recipe, s: HelperState, after: seq<Value>)
    requires r.Dropping? && Good(r, s) && s.recs[0].rest != [] && s.remaining != Finite(0)
    ensures Good(r, OneStep(s, after).(remaining := Less(s.remaining)))
  {
  }

  lemma DropYields(r: Recipe, s: HelperState, after: seq<Value>)
    requires r.Dropping? && Good(r, s) && s.recs[0].rest != [] && s.remaining == Finite(0)
    ensures Good(r, OneStep(s, after).(rest := TailOf(s.rest))) && HeadOf(s.rest) == Some(s.recs[0].rest[0])
  {
  }

  // ---- flatMap ----

  /** The inner iterator yields a value. */
  lemma FlatYields(r: Recipe, s: HelperState, s': HelperState, after: seq<Value>)
    requires r.FlatMapping? && Good(r, s) && s.innerAlive && Last(s).rest != []
    requires s' == s.(recs := s.recs[|s.recs| - 1 := Stepped(Last(s), after)], rest := TailOf(s.rest))
    ensures Good(r, s') && HeadOf(Last(s).rest) == HeadOf(s.rest)
  {
    forall i | 1 <= i < |s'.recs| ensures InnerRecord(r, s', i) {
      assert InnerRecord(r, s, i);
    }
  }

  /** The inner iterator is exhausted: it is flagged and forgotten. */
  lemma FlatForgets(r: Recipe, s: HelperState, s': HelperState, after: seq<Value>)
    requires r.FlatMapping? && Good(r, s) && s.innerAlive && Last(s).rest == []
    requires s' == s.(recs := s.recs[|s.recs| - 1 := Stepped(Last(s), after).(done := true)], innerAlive := false)
    ensures Good(r, s')
  {
    forall i | 1 <= i < |s'.recs| ensures InnerRecord(r, s', i) {
      assert InnerRecord(r, s, i);
    }
  }

  /** The outer iterator is exhausted. */
  lemma FlatEnds(r: Recipe, s: HelperState, s': HelperState, after: seq<Value>)
    requires r.FlatMapping? && Good(r, s) && !s.innerAlive && s.recs[0].rest == []
    requires s' == s.(recs := s.recs[0 := Stepped(s.recs[0], after).(done := true)], isDone := true)
    ensures Good(r, s') && s.rest == []
  {
    forall i | 1 <= i < |s'.recs| ensures InnerRecord(r, s', i) {
      assert InnerRecord(r, s, i);
    }
  }

  function PickedRecipe(r: Recipe, s: HelperState): Recipe
    requires r.FlatMapping? && s.recs != [] && s.recs[0].rest != []
  {
    Pick(r.pool, r.choose(s.recs[0].rest[0], s.counter), r.otherwise)
  }

  function Opened(r: Recipe): RecState
  {
    RecState(r, Denote(r), LeftOver(r), false, 0, false, 0, false)
  }

  /** The callback is called and its iterable opened. */
  lemma FlatOpens(r: Recipe, s: HelperState, s': HelperState, after: seq<Value>)
    requires r.FlatMapping? && Good(r, s) && !s.innerAlive && s.recs[0].rest != []
    requires s' == s.(recs := s.recs[0 := Stepped(s.recs[0], after)] + [Opened(PickedRecipe(r, s))],
                      innerAlive := true, counter := s.counter + 1)
    ensures Good(r, s')
  {
    forall i | 1 <= i < |s'.recs| ensures InnerRecord(r, s', i) {
      if i < |s.recs| {
        assert InnerRecord(r, s, i);
      }
    }
  }

  // ---- concat ----

  lemma ChainYields(r: Recipe, s: HelperState, s': HelperState, after: seq<Value>)
    requires r.Concatenation? && Good(r, s) && !s.isDone && s.innerAlive && Last(s).rest != []
    requires s' == s.(recs := s.recs[|s.recs| - 1 := Stepped(Last(s), after)], rest := TailOf(s.rest))
    ensures Good(r, s') && HeadOf(Last(s).rest) == HeadOf(s.rest)
  {
    hide DenoteAll, Denote, ConcatAll, Sealed;
    forall i | 0 <= i < |s'.recs| ensures OpenRecord(r, s', i) {
      assert OpenRecord(r, s, i);
    }
  }

  /** The current part is exhausted; its record is not flagged. */
  lemma ChainMoves(r: Recipe, s: HelperState, s': HelperState, after: seq<Value>)
    requires r.Concatenation? && Good(r, s) && !s.isDone && s.innerAlive && Last(s).rest == []
    requires s' == s.(recs := s.recs[|s.recs| - 1 := Stepped(Last(s), after)], innerAlive := false, counter := s.counter + 1)
    ensures Good(r, s')
  {
    hide DenoteAll, Denote, ConcatAll, Sealed;
    forall i | 0 <= i < |s'.recs| ensures OpenRecord(r, s', i) {
      assert OpenRecord(r, s, i);
    }
  }

  lemma ChainOpens(r: Recipe, s: HelperState, s': HelperState)
    requires r.Concatenation? && Good(r, s) && !s.isDone && !s.innerAlive && s.counter < |r.parts|
    requires s' == s.(recs := s.recs + [Opened(r.parts[s.counter])], innerAlive := true)
    ensures Good(r, s')
  {
    forall i | 0 <= i < |s'.recs| ensures OpenRecord(r, s', i) {
      if i < |s.recs| {
        assert OpenRecord(r, s, i);
      }
    }
    var left := r.parts[s.counter..];
    assert left[0] == r.parts[s.counter] && left[1..] == r.parts[s.counter + 1..];
    DenoteAllTail(left);
  }

  lemma ChainEnds(r: Recipe, s: HelperState)
    requires r.Concatenation? && Good(r, s) && (s.isDone || s.counter >= |r.parts|)
    ensures s.rest == [] && Good(r, s.(isDone := true))
  {
  }

  lemma DenoteAllTail(rs: seq<Recipe>)
    requires rs != []
    ensures DenoteAll(rs) == [Denote(rs[0])] + DenoteAll(rs[1..])
  {
  }

  // ---- return ----

  /** What a helper stands for after `return()`: a concatenation is over, the others follow their records. */
  ghost function RestAfterReturn(r: Recipe, s: HelperState): seq<Value>
  {
    match r
    case Source(_, _) => s.items
    case Mapping(f, _) => if s.recs == [] then [] else MapFrom(f, s.counter, s.recs[0].rest)
    case Filtering(p, _) => if s.recs == [] then [] else FilterFrom(p, s.counter, s.recs[0].rest)
    case Taking(_, _) => if s.recs == [] then [] else TakeFrom(s.remaining, s.recs[0].rest)
    case Dropping(_, _) => if s.recs == [] then [] else DropFrom(s.remaining, s.recs[0].rest)
    case FlatMapping(_, _, _, _) => if s.recs == [] then [] else InnerRest(s) + FlatRest(r, s.counter, s.recs[0].rest)
    case Concatenation(_) => []
  }

  /**
   * What a helper in state `s` will stand for after `return()`.  It never looks at
   * its own done flag: unless it is a concatenation, it goes on with whatever its
   * records yield after they were closed.
   */
  ghost function AfterReturn(r: Recipe, s: HelperState): seq<Value>
  {
    if !r.Source? && s.isDone then s.rest
    else
      match r
      case Source(_, endsOnReturn) => if endsOnReturn then [] else s.items
      case Mapping(f, _) => if s.recs == [] then [] else MapFrom(f, s.counter, s.recs[0].after)
      case Filtering(p, _) => if s.recs == [] then [] else FilterFrom(p, s.counter, s.recs[0].after)
      case Taking(_, _) => if s.recs == [] then [] else TakeFrom(s.remaining, s.recs[0].after)
      case Dropping(_, _) => if s.recs == [] then [] else DropFrom(s.remaining, s.recs[0].after)
      case FlatMapping(_, _, _, _) =>
        if s.recs == [] then []
        else (if s.innerAlive then Last(s).after else []) + FlatRest(r, s.counter, s.recs[0].after)
      case Concatenation(_) => []
  }

  /** Every record that was not done has been flagged and closed. */
  ghost predicate AllClosed(recs: seq<RecState>, recs': seq<RecState>)
  {
    && |recs'| == |recs|
    && forall i :: 0 <= i < |recs| ==> ClosedUnlessDone(recs[i], recs'[i])
  }

  ghost predicate ClosedUnlessDone(a: RecState, b: RecState)
  {
    if a.done then b == a else Closed(a.(done := true), b)
  }

  /** A finished helper: `return()` leaves it alone. */
  lemma DoneStays(r: Recipe, s: HelperState)
    requires Good(r, s) && s.isDone
    ensures Sealed(r) ==> s.rest == []
  {
  }

  lemma ReturnKeeps(r: Recipe, s: HelperState, s': HelperState)
    requires !r.Source? && Good(r, s) && !s.isDone && AllClosed(s.recs, s'.recs)
    requires s' == s.(isDone := true, recs := s'.recs, rest := s'.rest) && s'.rest == RestAfterReturn(r, s')
    ensures Good(r, s') && s'.rest == AfterReturn(r, s)
    ensures Sealed(r) ==> s'.rest == []
    ensures Transparent(r) ==> s'.rest == s.rest
  {
    if r.FlatMapping? {
      ReturnFlat(r, s, s');
    } else if r.Concatenation? {
      ReturnChain(r, s, s');
    } else {
      assert ClosedUnlessDone(s.recs[0], s'.recs[0]);
    }
  }

  lemma ReturnFlat(r: Recipe, s: HelperState, s': HelperState)
    requires r.FlatMapping? && Good(r, s) && !s.isDone && AllClosed(s.recs, s'.recs)
    requires s' == s.(isDone := true, recs := s'.recs, rest := s'.rest) && s'.rest == RestAfterReturn(r, s')
    ensures Good(r, s') && s'.rest == AfterReturn(r, s)
    ensures Sealed(r) ==> s'.rest == []
    ensures Transparent(r) ==> s'.rest == s.rest
  {
    forall i | 0 <= i < |s'.recs| ensures Disciplined(s'.recs[i]) && s'.recs[i].recipe == s.recs[i].recipe && s'.recs[i].done {
      assert Disciplined(s.recs[i]) && ClosedUnlessDone(s.recs[i], s'.recs[i]);
    }
    forall i | 1 <= i < |s'.recs| ensures InnerRecord(r, s', i) {
      assert InnerRecord(r, s, i);
    }
    assert ClosedUnlessDone(s.recs[0], s'.recs[0]);
    if s.innerAlive {
      assert InnerRecord(r, s, |s.recs| - 1) && ClosedUnlessDone(Last(s), Last(s'));
    }
  }

  /** A concatenation closes every record it has opened, also those that had already reported done. */
  lemma ReturnChain(r: Recipe, s: HelperState, s': HelperState)
    requires r.Concatenation? && Good(r, s) && !s.isDone && AllClosed(s.recs, s'.recs)
    requires s' == s.(isDone := true, recs := s'.recs, rest := s'.rest) && s'.rest == RestAfterReturn(r, s')
    ensures Good(r, s') && s'.rest == []
    ensures forall i :: 0 <= i < |s'.recs| ==> s'.recs[i].closes == 1 && (s'.recs[i].lateClose <==> i < s.counter)
  {
    forall i | 0 <= i < |s'.recs|
      ensures s'.recs[i].closes == 1 && s'.recs[i].done && (s'.recs[i].lateClose <==> i < s.counter)
    {
      assert OpenRecord(r, s, i) && ClosedUnlessDone(s.recs[i], s'.recs[i]);
    }
  }

  /** What the invariant says about the records of each kind of helper. */
  lemma DisciplineKept(r: Recipe, s: HelperState)
    requires Good(r, s)
    ensures !r.Source? && !r.Concatenation? ==> forall i :: 0 <= i < |s.recs| ==> Disciplined(s.recs[i])
    ensures r.FlatMapping? ==> forall i :: 1 <= i < |s.recs| - 1 ==> s.recs[i].done
    ensures r.Concatenation? ==> forall i :: 0 <= i < |s.recs| ==> s.recs[i].closes <= 1
  {
    if r.FlatMapping? {
      forall i | 1 <= i < |s.recs| - 1 ensures s.recs[i].done {
        assert InnerRecord(r, s, i);
      }
    }
  }

  /** A mapped list that ignores `return()` is not over after it. */
  lemma ReturnDoesNotEnd(f: (Value, nat) -> Value, x: Value)
    ensures LeftOver(Mapping(f, Source([x], false))) == [f(x, 0)]
  {
    assert LeftOver(Source([x], false)) == [x] && [x][1..] == [];
    assert MapFrom(f, 0, [x]) == [f(x, 0)] + MapFrom(f, 1, []);
  }

  // ---- the order of closing ----

  /** The records from `i` on that are not flagged, in list order: this is how `return()` closes them. */
  function UnflaggedFrom(recs: seq<RecState>, i: nat): seq<nat>
    requires i <= |recs|
    decreases |recs| - i
  {
    if i == |recs| then [] else (if recs[i].done then [] else [i]) + UnflaggedFrom(recs, i + 1)
  }

  lemma {:induction false} FlaggedRun(recs: seq<RecState>, i: nat, j: nat)
    requires i <= j <= |recs| && forall n :: i <= n < j ==> recs[n].done
    ensures UnflaggedFrom(recs, i) == UnflaggedFrom(recs, j)
    decreases j - i
  {
    if i < j {
      FlaggedRun(recs, i + 1, j);
    }
  }

  /** The order of ECMA-262: a live inner iterator first, then the outer one; a concatenation closes the current part only. */
  function StandardOrder(r: Recipe, s: HelperState): seq<nat>
  {
    match r
    case Source(_, _) => []
    case FlatMapping(_, _, _, _) => if s.innerAlive && s.recs != [] then [|s.recs| - 1, 0] else [0]
    case Concatenation(_) => if s.innerAlive && s.recs != [] then [|s.recs| - 1] else []
    case _ => [0]
  }

  /**
   * `return()` on an unfinished helper closes in the standard's order if and only if no
   * inner iterator of a flatMap is alive and a concatenation is still at its first part.
   */
  lemma ReturnOrderIff(r: Recipe, s: HelperState)
    requires !r.Source? && Good(r, s) && !s.isDone
    ensures UnflaggedFrom(s.recs, 0) == StandardOrder(r, s) <==>
            (r.FlatMapping? ==> !s.innerAlive) && (r.Concatenation? ==> s.counter == 0)
  {
    if r.FlatMapping? {
      FlatOrder(r, s);
      if s.innerAlive {
        assert UnflaggedFrom(s.recs, 0)[0] != StandardOrder(r, s)[0];
      }
    } else if r.Concatenation? {
      forall i | 0 <= i < |s.recs| ensures !s.recs[i].done {
        assert OpenRecord(r, s, i);
      }
      AllUnflagged(s.recs, 0);
    } else {
      assert UnflaggedFrom(s.recs, 0) == [0] + UnflaggedFrom(s.recs, 1);
    }
  }

  /** A flatMap closes the outer iterator, and then the inner one if it is alive. */
  lemma FlatOrder(r: Recipe, s: HelperState)
    requires r.FlatMapping? && Good(r, s) && !s.isDone
    ensures UnflaggedFrom(s.recs, 0) == [0] + if s.innerAlive then [|s.recs| - 1] else []
    ensures s.innerAlive ==> |s.recs| >= 2
  {
    var n := |s.recs|;
    forall i | 1 <= i < (if s.innerAlive then n - 1 else n) ensures s.recs[i].done {
      assert InnerRecord(r, s, i);
    }
    assert UnflaggedFrom(s.recs, 0) == [0] + UnflaggedFrom(s.recs, 1);
    FlaggedRun(s.recs, 1, if s.innerAlive then n - 1 else n);
    assert s.innerAlive ==> UnflaggedFrom(s.recs, n - 1) == [n - 1] + UnflaggedFrom(s.recs, n);
  }

  lemma {:induction false} AllUnflagged(recs: seq<RecState>, i: nat)
    requires i <= |recs| && forall n :: i <= n < |recs| ==> !recs[n].done
    ensures |UnflaggedFrom(recs, i)| == |recs| - i
    ensures i < |recs| ==> UnflaggedFrom(recs, i)[0] == i
    decreases |recs| - i
  {
    if i < |recs| {
      AllUnflagged(recs, i + 1);
    }
  }
}
