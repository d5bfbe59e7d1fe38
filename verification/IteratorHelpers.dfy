/**
 * The iterator helper machines of section 27.1 of ECMA-262.  An `Iter` is a source
 * or a helper object with its closure data; a `Record` is the IteratorRecord
 * through which a helper holds an underlying iterator.
 */
module IteratorHelpers {
  import opened Common
  import opened SparseObjects
  import opened IteratorLists
  import opened IteratorStates

  class Record {
    const iter: Iter
    var mDone: bool             // m_done
    ghost var pulled: nat
    ghost var exhausted: bool
    ghost var closes: nat
    ghost var lateClose: bool

    constructor (iter: Iter)
      ensures this.iter == iter && !mDone && pulled == 0 && !exhausted && closes == 0 && !lateClose
    {
      this.iter := iter;
      mDone, pulled, exhausted, closes, lateClose := false, 0, false, 0, false;
    }

    ghost function Footprint(): set<object>
      reads this, iter
    {
      {this} + iter.Repr
    }

    ghost function State(): RecState
      reads this, iter
    {
      RecState(iter.recipe, iter.rest, iter.After(), mDone, pulled, exhausted, closes, lateClose)
    }

    /** `iteratorStepValue`: it does not touch the done flag. */
    method Step() returns (v: Option<Value>)
      requires iter.Valid() && this !in iter.Repr
      modifies this, iter.Repr
      ensures iter.Valid() && this !in iter.Repr && fresh(iter.Repr - old(iter.Repr))
      ensures v == HeadOf(old(iter.rest)) && State() == Stepped(old(State()), iter.After())
      ensures iter.recipe.Taking? ==> TakeMoves(old(iter.State()), iter.State())
      decreases Height(iter.recipe), 5
    {
      hide Good, Iter.Shape, Iter.Owns, AfterReturn, TakeMoves, UnflaggedFrom;
      v := iter.Next();
      if v.None? {
        exhausted := true;
      } else {
        pulled := pulled + 1;
      }
    }

    /** `iteratorClose` with a normal completion: call the iterator's `return`. */
    method Close()
      requires iter.Valid() && this !in iter.Repr
      modifies this, iter.Repr
      ensures iter.Valid() && iter.Repr == old(iter.Repr)
      ensures Closed(old(State()), State())
      decreases Height(iter.recipe), 5
    {
      hide Good, Iter.Shape, Iter.Owns, AllClosed, UnflaggedFrom;
      closes := closes + 1;
      lateClose := lateClose || exhausted;
      iter.Return();
    }
  }

  class Iter {
    const recipe: Recipe
    var items: seq<Value>       // of a source: what is left
    var isDone: bool            // m_isDone
    var counter: nat
    var remaining: Limit        // `callback` of take and drop
    var under: seq<Record>      // m_underlyingIterators
    var innerAlive: bool
    var inner: Record?          // innerIterator of flatMap, iteratorRecord of concat
    ghost var rest: seq<Value>  // the values still to come
    ghost var recs: seq<RecState> // the states of the records in `under`
    ghost var closings: seq<nat>  // the records this helper has closed, in order
    ghost var Repr: set<object>

    ghost predicate Owns()
      reads this, Repr
    {
      && this in Repr
      && (forall i :: 0 <= i < |under| ==>
            && under[i] in Repr && under[i].iter in Repr && under[i].iter in under[i].iter.Repr
            && under[i].Footprint() <= Repr && this !in under[i].Footprint()
            && under[i] !in under[i].iter.Repr)
      && (forall i, j :: 0 <= i < j < |under| ==> under[i].Footprint() !! under[j].Footprint())
    }

    /** The inner-alive flag is set exactly when there is an inner iterator, and that is the latest one. */
    ghost predicate InnerIsLatest()
      reads this
    {
      (innerAlive <==> inner != null) && (innerAlive ==> under != [] && inner == under[|under| - 1])
    }

    ghost predicate Shape()
      reads this, Repr
      decreases Height(recipe), 0
    {
      && Owns()
      && |recs| == |under|
      && (forall i :: 0 <= i < |under| ==>
            Height(under[i].iter.recipe) < Height(recipe) && under[i].iter.Valid() && recs[i] == under[i].State())
    }

    ghost function State(): HelperState
      reads this
    {
      HelperState(items, isDone, counter, remaining, innerAlive, recs, rest)
    }

    /** The values that will be left after `return()`. */
    ghost function After(): seq<Value>
      reads this
    {
      AfterReturn(recipe, State())
    }

    ghost predicate Valid()
      reads this, Repr
      decreases Height(recipe), 1
    {
      this in Repr && Shape() && InnerIsLatest() && Good(recipe, State())
    }

    lemma Aligned()
      requires Shape()
      ensures |recs| == |under| && forall i :: 0 <= i < |under| ==> recs[i] == under[i].State()
    {
    }

    /** The closing discipline of this helper and of every helper below it. */
    ghost predicate AllDisciplined()
      reads this, Repr
      decreases Height(recipe)
    {
      && Shape()
      && (!recipe.Source? && !recipe.Concatenation? ==>
            forall i :: 0 <= i < |under| ==>
              under[i].closes <= 1 && !under[i].lateClose && (under[i].exhausted ==> under[i].mDone))
      && (recipe.FlatMapping? ==>
            (innerAlive <==> inner != null) && forall i :: 1 <= i < |under| - 1 ==> under[i].mDone)
      && (recipe.Concatenation? ==> forall i :: 0 <= i < |under| ==> under[i].closes <= 1)
      && (forall i :: 0 <= i < |under| ==> under[i].iter.AllDisciplined())
    }

    lemma ValidIsDisciplined()
      requires Valid()
      ensures AllDisciplined()
      decreases Height(recipe)
    {
      hide Good;
      Aligned();
      DisciplineKept(recipe, State());
      forall i | 0 <= i < |under| ensures under[i].iter.AllDisciplined() {
        under[i].iter.ValidIsDisciplined();
      }
    }

    /** One underlying iterator has grown by fresh objects; the others are as they were. */
    twostate lemma ShapeGrows(n: nat)
      requires old(Shape()) && n < |old(under)| && under == old(under)
      requires Repr == old(Repr) + under[n].iter.Repr
      requires under[n].iter.Valid() && under[n].iter in under[n].iter.Repr && under[n] !in under[n].iter.Repr
      requires fresh(under[n].iter.Repr - old(under[n].iter.Repr))
      requires forall o :: o in old(Repr) && o !in old(under[n].Footprint()) && o != this ==> unchanged(o)
      requires recs == old(recs)[n := under[n].State()]
      ensures Shape()
    {
      hide Good;
      forall i | 0 <= i < |under| && i != n
        ensures under[i].Footprint() == old(under[i].Footprint()) && under[i].iter.Valid()
        ensures under[i].State() == old(under[i].State())
      {
        assert old(under[i].iter.Valid());
        assert old(under[i].Footprint() !! under[n].Footprint());
      }
    }

    /** Everything of this helper but its records and its done flag is as it was. */
    twostate predicate Kept()
      reads this
    {
      && items == old(items) && counter == old(counter) && remaining == old(remaining) && under == old(under)
      && innerAlive == old(innerAlive) && inner == old(inner) && rest == old(rest)
    }

    /** Step one underlying iterator; nothing else of this helper changes. */
    method Pull(n: nat) returns (value: Option<Value>)
      requires Shape() && n < |recs|
      modifies Repr
      ensures Shape() && fresh(Repr - old(Repr)) && old(Repr) <= Repr && Kept() && isDone == old(isDone)
      ensures value == HeadOf(old(recs)[n].rest) && closings == old(closings)
      ensures recs == old(recs)[n := Stepped(old(recs)[n], recs[n].after)]
      decreases Height(recipe), 0
    {
      hide Good;
      value := under[n].Step();
      Repr := Repr + under[n].iter.Repr;
      recs := recs[n := under[n].State()];
      ShapeGrows(n);
    }

    /** Close one underlying iterator; nothing else of this helper changes. */
    method CloseUnder(n: nat)
      requires Shape() && n < |recs|
      modifies Repr
      ensures Shape() && Repr == old(Repr) && Kept() && isDone == old(isDone) && |recs| == |old(recs)|
      ensures recs == old(recs)[n := recs[n]] && Closed(old(recs)[n], recs[n]) && closings == old(closings) + [n]
      decreases Height(recipe), 0
    {
      hide Good;
      under[n].Close();
      closings := closings + [n];
      recs := recs[n := under[n].State()];
      ShapeGrows(n);
    }

    /** Set the done flag of one record. */
    method Flag(n: nat)
      requires Shape() && n < |recs|
      modifies Repr
      ensures Shape() && Repr == old(Repr) && Kept() && isDone == old(isDone)
      ensures recs == old(recs)[n := old(recs)[n].(done := true)] && closings == old(closings)
    {
      hide Good;
      under[n].mDone := true;
      recs := recs[n := under[n].State()];
      ShapeGrows(n);
    }

    /** Changing this object's own fields does not disturb what it owns. */
    twostate lemma ShapeStays()
      requires old(Shape()) && under == old(under) && Repr == old(Repr) && recs == old(recs)
      requires forall o :: o in old(Repr) && o != this ==> unchanged(o)
      ensures Shape()
    {
      hide Good;
      forall i | 0 <= i < |under|
        ensures under[i].iter.Valid() && under[i].Footprint() == old(under[i].Footprint())
      {
        assert old(under[i].iter.Valid());
      }
    }

    /** A fresh record joins the underlying iterators. */
    twostate lemma ShapeAppends(new rec: Record)
      requires old(Shape()) && under == old(under) + [rec] && Repr == old(Repr) + rec.Footprint()
      requires fresh(rec.Footprint()) && rec.iter.Valid() && rec.iter in rec.iter.Repr && rec !in rec.iter.Repr
      requires Height(rec.iter.recipe) < Height(recipe)
      requires forall o :: o in old(Repr) && o != this ==> unchanged(o)
      requires recs == old(recs) + [rec.State()]
      ensures Shape()
    {
      hide Good;
      forall i | 0 <= i < |old(under)|
        ensures under[i].Footprint() == old(under[i].Footprint()) && under[i].iter.Valid()
        ensures under[i].State() == old(under[i].State())
      {
        assert old(under[i].iter.Valid());
      }
    }

    /** Open the iterable described by `r` and append its record. */
    method Open(r: Recipe) returns (rec: Record)
      requires Shape() && Height(r) < Height(recipe)
      modifies this`under, this`Repr, this`recs
      ensures Shape() && under == old(under) + [rec] && fresh(Repr - old(Repr)) && old(Repr) <= Repr
      ensures recs == old(recs) + [Opened(r)]
      decreases Height(recipe), 0
    {
      hide Good;
      var iter := Build(r);
      rec := new Record(iter);
      under := under + [rec];
      Repr := Repr + rec.Footprint();
      recs := recs + [rec.State()];
      ShapeAppends(rec);
    }

    method Next() returns (v: Option<Value>)
      requires Valid()
      modifies Repr
      ensures Valid() && fresh(Repr - old(Repr)) && v == HeadOf(old(rest)) && rest == TailOf(old(rest))
      ensures recipe.Taking? ==> TakeMoves(old(State()), State())
      ensures closings == old(closings) + if recipe.Taking? && old(remaining) == Finite(0) then UnflaggedFrom(old(recs), 0) else []
      ensures v.Some? ==> isDone == old(isDone)
      ensures v.Some? && recipe.FlatMapping? ==> innerAlive
      ensures v.Some? && recipe.Concatenation? ==> innerAlive && !isDone && recs != [] && recs[|recs| - 1].pulled > 0
      decreases Height(recipe), 4
    {
      hide Good, Shape, Owns;
      match recipe {
        case Source(_, _) => v := NextItem();
        case Mapping(_, _) => v := NextMap();
        case Filtering(_, _) => v := NextFilter();
        case Taking(_, _) => v := NextTake();
        case Dropping(_, _) => v := NextDrop();
        case FlatMapping(_, _, _, _) => v := NextFlatMap();
        case Concatenation(_) => v := NextConcat();
      }
    }

    method NextItem() returns (v: Option<Value>)
      requires Valid() && recipe.Source?
      modifies Repr
      ensures Valid() && fresh(Repr - old(Repr)) && v == HeadOf(old(rest)) && rest == TailOf(old(rest))
      ensures closings == old(closings)
      ensures v.Some? ==> isDone == old(isDone)
      decreases Height(recipe), 2
    {
      if items == [] {
        return None;
      }
      v := Some(items[0]);
      items, rest := items[1..], rest[1..];
    }

    /** Step the first underlying iterator and mark it and this helper done when it is exhausted. */
    method PullFirst() returns (value: Option<Value>)
      requires this in Repr && Shape() && recs != []
      modifies Repr
      ensures Shape() && fresh(Repr - old(Repr)) && old(Repr) <= Repr && Kept()
      ensures value == HeadOf(old(recs)[0].rest)
      ensures recs != [] && var r := Stepped(old(recs)[0], recs[0].after);
              recs == old(recs)[0 := if value.None? then r.(done := true) else r]
      ensures isDone == (old(isDone) || value.None?) && closings == old(closings)
      decreases Height(recipe), 1
    {
      hide Good, Shape, Owns;
      value := Pull(0);
      if value.None? {
        Flag(0);
        label flagged:
        isDone := true;
        ShapeStays@flagged();
      }
    }

    method NextMap() returns (v: Option<Value>)
      requires Valid() && recipe.Mapping?
      modifies Repr
      ensures Valid() && fresh(Repr - old(Repr)) && v == HeadOf(old(rest)) && rest == TailOf(old(rest))
      ensures closings == old(closings)
      ensures v.Some? ==> isDone == old(isDone)
      decreases Height(recipe), 2
    {
      hide Good, Shape, Owns;
      ghost var s := State();
      OneHasRecord(recipe, s);
      var value := PullFirst();
      if value.None? {
        OneEnds(recipe, s, recs[0].after, remaining);
        return None;
      }
      MapYields(recipe, s, recs[0].after);
      label pulled:
      v := Some(recipe.f(value.value, counter));
      counter, rest := counter + 1, TailOf(rest);
      ShapeStays@pulled();
    }

    method NextFilter() returns (v: Option<Value>)
      requires Valid() && recipe.Filtering?
      modifies Repr
      ensures Valid() && fresh(Repr - old(Repr)) && v == HeadOf(old(rest)) && rest == TailOf(old(rest))
      ensures closings == old(closings)
      ensures v.Some? ==> isDone == old(isDone)
      decreases Height(recipe), 3
    {
      hide Good, Shape, Owns;
      OneHasRecord(recipe, State());
      while true
        invariant Valid() && fresh(Repr - old(Repr)) && |recs| == 1 && !innerAlive && rest == old(rest) && isDone == old(isDone)
        invariant closings == old(closings)
        decreases |recs[0].rest|
      {
        var ended;
        v, ended := TryFilter();
        if ended || v.Some? {
          return;
        }
      }
    }

    /** One turn of the loop of `filter`. */
    method TryFilter() returns (v: Option<Value>, ended: bool)
      requires Valid() && recipe.Filtering? && |recs| == 1 && !innerAlive
      modifies Repr
      ensures Valid() && fresh(Repr - old(Repr)) && |recs| == 1 && !innerAlive
      ensures ended ==> v.None? && old(rest) == [] && rest == []
      ensures closings == old(closings) && (!ended ==> isDone == old(isDone))
      ensures !ended && v.Some? ==> v == HeadOf(old(rest)) && rest == TailOf(old(rest))
      ensures !ended && v.None? ==> rest == old(rest) && |recs[0].rest| < |old(recs)[0].rest|
      decreases Height(recipe), 2
    {
      hide Good, Shape, Owns;
      ghost var s := State();
      var value := PullFirst();
      if value.None? {
        OneEnds(recipe, s, recs[0].after, remaining);
        return None, true;
      }
      FilterSteps(recipe, s, recs[0].after);
      label pulled:
      var selected := recipe.p(value.value, counter);
      counter := counter + 1;
      if selected {
        rest := TailOf(rest);
        v := value;
      } else {
        v := None;
      }
      ended := false;
      ShapeStays@pulled();
    }

    method NextTake() returns (v: Option<Value>)
      requires Valid() && recipe.Taking?
      modifies Repr
      ensures Valid() && fresh(Repr - old(Repr)) && v == HeadOf(old(rest)) && rest == TailOf(old(rest))
      ensures TakeMoves(old(State()), State())
      ensures closings == old(closings) + if old(remaining) == Finite(0) then UnflaggedFrom(old(recs), 0) else []
      ensures v.Some? ==> isDone == old(isDone)
      decreases Height(recipe), 2
    {
      hide Good, Shape, Owns;
      ghost var s := State();
      OneHasRecord(recipe, s);
      if remaining == Finite(0) {
        EndTake();
        return None;
      }
      if remaining.Finite? {
        remaining := Finite(remaining.n - 1);
      }
      ShapeStays();
      v := PullFirst();
      if v.None? {
        OneEnds(recipe, s, recs[0].after, remaining);
        return None;
      }
      TakeYields(recipe, s, recs[0].after);
      label pulled:
      rest := TailOf(rest);
      ShapeStays@pulled();
    }

    /** The limit is used up: close the underlying iterator unless it is done already. */
    method EndTake()
      requires Valid() && recipe.Taking? && remaining == Finite(0) && |recs| == 1
      modifies Repr
      ensures Valid() && Repr == old(Repr) && rest == old(rest) == [] && isDone
      ensures |recs| == 1 && ClosedUnlessDone(old(recs)[0], recs[0])
      ensures closings == old(closings) + UnflaggedFrom(old(recs), 0)
      decreases Height(recipe), 1
    {
      hide Good, Shape, Owns;
      ghost var s := State();
      isDone := true;
      ShapeStays();
      Aligned();
      if !under[0].mDone {
        Flag(0);
        CloseUnder(0);
      }
      TakeEnds(recipe, s, State());
    }

    method NextDrop() returns (v: Option<Value>)
      requires Valid() && recipe.Dropping?
      modifies Repr
      ensures Valid() && fresh(Repr - old(Repr)) && v == HeadOf(old(rest)) && rest == TailOf(old(rest))
      ensures closings == old(closings)
      ensures v.Some? ==> isDone == old(isDone)
      decreases Height(recipe), 3
    {
      hide Good, Shape, Owns;
      OneHasRecord(recipe, State());
      var ended := SkipDropped();
      if ended {
        return None;
      }
      ghost var s := State();
      v := PullFirst();
      if v.None? {
        OneEnds(recipe, s, recs[0].after, remaining);
        return None;
      }
      DropYields(recipe, s, recs[0].after);
      label pulled:
      rest := TailOf(rest);
      ShapeStays@pulled();
    }

    /** The loop of `drop`; the remaining count is stored only when the loop runs to its end. */
    method SkipDropped() returns (ended: bool)
      requires Valid() && recipe.Dropping? && |recs| == 1 && !innerAlive
      modifies Repr
      ensures Valid() && fresh(Repr - old(Repr)) && rest == old(rest) && |recs| == 1 && !innerAlive
      ensures ended ==> rest == []
      ensures closings == old(closings)
      ensures !ended ==> remaining == Finite(0) && isDone == old(isDone)
      decreases Height(recipe), 2
    {
      hide Good, Shape, Owns;
      var left := remaining;
      while left != Finite(0)
        invariant this in Repr && Shape() && InnerIsLatest() && fresh(Repr - old(Repr)) && rest == old(rest)
        invariant |recs| == 1 && !innerAlive && remaining == old(remaining) && isDone == old(isDone) && closings == old(closings)
        invariant Good(recipe, State().(remaining := left))
        decreases |recs[0].rest|
      {
        ghost var s := State().(remaining := left);
        left := Less(left);
        var next := PullFirst();
        if next.None? {
          OneEnds(recipe, s, recs[0].after, remaining);
          return true;
        }
        DropSkips(recipe, s, recs[0].after);
      }
      label dropped:
      remaining := left;
      ShapeStays@dropped();
      return false;
    }

    method NextFlatMap() returns (v: Option<Value>)
      requires Valid() && recipe.FlatMapping?
      modifies Repr
      ensures Valid() && fresh(Repr - old(Repr)) && v == HeadOf(old(rest)) && rest == TailOf(old(rest))
      ensures closings == old(closings)
      ensures v.Some? ==> isDone == old(isDone)
      ensures v.Some? && recipe.FlatMapping? ==> innerAlive
      decreases Height(recipe), 3
    {
      hide Good, Shape, Owns;
      OneHasRecord(recipe, State());
      while true
        invariant Valid() && fresh(Repr - old(Repr)) && rest == old(rest) && |recs| >= 1 && isDone == old(isDone)
        invariant closings == old(closings)
        decreases |recs[0].rest|, if innerAlive then 1 else 0
      {
        if innerAlive && inner != null {
          v := NextInner();
          if v.Some? {
            return;
          }
        }
        var more := OpenNext();
        if !more {
          return None;
        }
      }
    }

    /** Step the inner iterator; when it is exhausted, flag and forget it. */
    method NextInner() returns (v: Option<Value>)
      requires Valid() && recipe.FlatMapping? && innerAlive
      modifies Repr
      ensures Valid() && fresh(Repr - old(Repr)) && |recs| >= 2 && |old(recs)| >= 2 && recs[0] == old(recs)[0]
      ensures v.Some? ==> innerAlive && v == HeadOf(old(rest)) && rest == TailOf(old(rest))
      ensures v.None? ==> !innerAlive && rest == old(rest)
      ensures isDone == old(isDone) && closings == old(closings)
      decreases Height(recipe), 2
    {
      hide Good, Shape, Owns;
      ghost var s := State();
      OneHasRecord(recipe, s);
      Aligned();
      var last := |under| - 1;
      v := Pull(last);
      if v.None? {
        Flag(last);
        label flagged:
        innerAlive, inner := false, null;
        ShapeStays@flagged();
        FlatForgets(recipe, s, State(), recs[|recs| - 1].after);
      } else {
        label pulled:
        rest := TailOf(rest);
        ShapeStays@pulled();
        FlatYields(recipe, s, State(), recs[|recs| - 1].after);
      }
    }

    /** Take the next outer value and open what the callback maps it to. */
    method OpenNext() returns (more: bool)
      requires Valid() && recipe.FlatMapping? && !innerAlive && |recs| >= 1
      modifies Repr
      ensures Valid() && fresh(Repr - old(Repr)) && |recs| >= 1
      ensures !more ==> old(rest) == [] && rest == []
      ensures closings == old(closings)
      ensures more ==> rest == old(rest) && |recs[0].rest| < |old(recs)[0].rest| && isDone == old(isDone)
      decreases Height(recipe), 2
    {
      hide Good, Shape, Owns;
      ghost var s := State();
      var value := PullFirst();
      if value.None? {
        FlatEnds(recipe, s, State(), recs[0].after);
        return false;
      }
      var r := Pick(recipe.pool, recipe.choose(value.value, counter), recipe.otherwise);
      label pulled:
      counter := counter + 1;
      ShapeStays@pulled();
      var rec := Open(r);
      label joined:
      innerAlive, inner := true, rec;
      ShapeStays@joined();
      FlatOpens(recipe, s, State(), recs[0].after);
      return true;
    }

    method NextConcat() returns (v: Option<Value>)
      requires Valid() && recipe.Concatenation?
      modifies Repr
      ensures Valid() && fresh(Repr - old(Repr)) && v == HeadOf(old(rest)) && rest == TailOf(old(rest))
      ensures closings == old(closings)
      ensures v.Some? ==> isDone == old(isDone)
      ensures v.Some? && recipe.Concatenation? ==> innerAlive && !isDone && recs != [] && recs[|recs| - 1].pulled > 0
      decreases Height(recipe), 3
    {
      hide Good, Shape, Owns;
      while counter < |recipe.parts| && !isDone
        invariant Valid() && fresh(Repr - old(Repr)) && rest == old(rest) && isDone == old(isDone) && closings == old(closings)
        decreases |recipe.parts| - counter
      {
        if inner == null {
          OpenPart();
        }
        v := NextPart();
        if v.Some? {
          return;
        }
      }
      ChainEnds(recipe, State());
      label done:
      isDone := true;
      ShapeStays@done();
      return None;
    }

    method OpenPart()
      requires Valid() && recipe.Concatenation? && !innerAlive && !isDone && counter < |recipe.parts|
      modifies Repr
      ensures Valid() && fresh(Repr - old(Repr)) && rest == old(rest) && innerAlive && !isDone && counter == old(counter)
      ensures closings == old(closings)
      decreases Height(recipe), 1
    {
      hide Good, Shape, Owns;
      ghost var s := State();
      var rec := Open(recipe.parts[counter]);
      label joined:
      innerAlive, inner := true, rec;
      ShapeStays@joined();
      ChainOpens(recipe, s, State());
    }

    method NextPart() returns (v: Option<Value>)
      requires Valid() && recipe.Concatenation? && innerAlive && !isDone
      modifies Repr
      ensures Valid() && fresh(Repr - old(Repr))
      ensures v.Some? ==> v == HeadOf(old(rest)) && rest == TailOf(old(rest))
      ensures v.Some? ==> innerAlive && recs != [] && recs[|recs| - 1].pulled > 0
      ensures !isDone && closings == old(closings)
      ensures v.None? ==> rest == old(rest) && counter == old(counter) + 1 <= |recipe.parts|
      decreases Height(recipe), 1
    {
      hide Good, Shape, Owns;
      ghost var s := State();
      OneHasRecord(recipe, s);
      Aligned();
      v := Pull(|under| - 1);
      label pulled:
      if v.None? {
        innerAlive, inner := false, null;
        counter := counter + 1;
        ShapeStays@pulled();
        ChainMoves(recipe, s, State(), recs[|recs| - 1].after);
        OneHasRecord(recipe, State());
      } else {
        rest := TailOf(rest);
        ShapeStays@pulled();
        ChainYields(recipe, s, State(), recs[|recs| - 1].after);
      }
    }

    /** `%IteratorHelperPrototype%.return`, and the `return` of a source. */
    method Return()
      requires Valid()
      modifies Repr
      ensures Valid() && Repr == old(Repr) && rest == old(After())
      ensures Sealed(recipe) ==> rest == []
      ensures Transparent(recipe) ==> rest == old(rest)
      ensures !recipe.Source? ==> isDone
      ensures old(isDone) ==> State() == old(State())
      ensures !recipe.Source? && !old(isDone) ==> AllClosed(old(recs), recs)
      ensures closings == old(closings) + if recipe.Source? || old(isDone) then [] else UnflaggedFrom(old(recs), 0)
      decreases Height(recipe), 4
    {
      hide Good, Shape, Owns;
      if recipe.Source? {
        EndSource();
      } else if !isDone {
        CloseHelper();
      } else {
        DoneStays(recipe, State());
      }
    }

    method EndSource()
      requires Valid() && recipe.Source?
      modifies Repr
      ensures Valid() && Repr == old(Repr) && isDone == old(isDone)
      ensures rest == old(After()) && if recipe.endsOnReturn then rest == [] else rest == old(rest)
      ensures old(isDone) ==> State() == old(State())
      ensures closings == old(closings)
    {
      if recipe.endsOnReturn {
        items, rest := [], [];
      }
    }

    method CloseHelper()
      requires Valid() && !recipe.Source? && !isDone
      modifies Repr
      ensures Valid() && Repr == old(Repr) && rest == old(After())
      ensures Sealed(recipe) ==> rest == []
      ensures Transparent(recipe) ==> rest == old(rest)
      ensures isDone && AllClosed(old(recs), recs) && closings == old(closings) + UnflaggedFrom(old(recs), 0)
      decreases Height(recipe), 3
    {
      hide Good, Shape, Owns;
      ghost var s := State();
      isDone := true;
      ShapeStays();
      CloseAll();
      label closed:
      rest := RestAfterReturn(recipe, State());
      ShapeStays@closed();
      ReturnKeeps(recipe, s, State());
    }

    /** Flag and close every underlying iterator that is not done. */
    method CloseAll()
      requires Shape()
      modifies Repr
      ensures Shape() && Repr == old(Repr) && Kept() && isDone == old(isDone) && AllClosed(old(recs), recs)
      ensures closings == old(closings) + UnflaggedFrom(old(recs), 0)
      decreases Height(recipe), 2
    {
      hide Good, Shape, Owns, ClosedUnlessDone;
      Aligned();
      for n := 0 to |under|
        invariant Shape() && Repr == old(Repr) && Kept() && isDone == old(isDone) && |recs| == |under| == |old(recs)|
        invariant forall i :: 0 <= i < n ==> ClosedUnlessDone(old(recs)[i], recs[i])
        invariant forall i :: n <= i < |under| ==> recs[i] == old(recs)[i]
        invariant closings + UnflaggedFrom(old(recs), n) == old(closings) + UnflaggedFrom(old(recs), 0)
      {
        CloseOne(n);
      }
    }

    method CloseOne(n: nat)
      requires Shape() && n < |under| && |recs| == |under|
      modifies Repr
      ensures Shape() && Repr == old(Repr) && Kept() && isDone == old(isDone) && |recs| == |under|
      ensures recs == old(recs)[n := recs[n]] && ClosedUnlessDone(old(recs)[n], recs[n])
      ensures closings == old(closings) + if old(recs)[n].done then [] else [n]
      decreases Height(recipe), 1
    {
      hide Good, Shape, Owns;
      Aligned();
      if !under[n].mDone {
        Flag(n);
        CloseUnder(n);
      }
    }

    constructor Leaf(r: Recipe)
      requires r.Source?
      ensures Valid() && fresh(Repr) && recipe == r && rest == Denote(r) && After() == LeftOver(r) && !isDone && closings == []
    {
      recipe, items, isDone, counter, remaining := r, r.items, false, 0, Infinity;
      under, innerAlive, inner, rest, recs, closings, Repr := [], false, null, r.items, [], [], {this};
    }

    constructor Over(r: Recipe, u: Iter)
      requires !r.Source? && !r.Concatenation? && u.Valid() && u.recipe == r.inner && u.rest == Denote(r.inner) && u.After() == LeftOver(r.inner)
      ensures Valid() && fresh(Repr - u.Repr) && recipe == r && rest == Denote(r) && After() == LeftOver(r) && !isDone && closings == []
      ensures State() == Initial(r)
    {
      hide Good, AfterReturn, Denote, LeftOver;
      var rec := new Record(u);
      recipe, items, isDone, counter := r, [], false, 0;
      remaining := if r.Taking? || r.Dropping? then r.limit else Infinity;
      under, innerAlive, inner, rest, Repr := [rec], false, null, Denote(r), {this, rec} + u.Repr;
      recs, closings := [rec.State()], [];
      new;
      InitialIsGood(r);
      assert recs == [Opened(r.inner)];
    }

    constructor Chained(r: Recipe)
      requires r.Concatenation?
      ensures Valid() && fresh(Repr) && recipe == r && rest == Denote(r) && After() == LeftOver(r) && !isDone && closings == []
    {
      recipe, items, isDone, counter, remaining := r, [], false, 0, Infinity;
      under, innerAlive, inner, rest, recs, closings, Repr := [], false, null, Denote(r), [], [], {this};
    }
  }

  method Build(r: Recipe) returns (it: Iter)
    ensures it.Valid() && fresh(it.Repr) && it in it.Repr && it.recipe == r && it.rest == Denote(r) && it.After() == LeftOver(r) && !it.isDone && it.closings == []
    decreases Height(r)
  {
    if r.Source? {
      it := new Iter.Leaf(r);
    } else if r.Concatenation? {
      it := new Iter.Chained(r);
    } else {
      var u := Build(r.inner);
      it := new Iter.Over(r, u);
    }
  }

  /** `Iterator.prototype.toArray`: pull until done. */
  method ToArray(it: Iter) returns (items: seq<Value>)
    requires it.Valid()
    modifies it.Repr
    ensures it.Valid() && items == old(it.rest) && it.rest == []
    ensures old(TakeOpen(it.recipe, it.State())) ==>
              |it.recs| == 1 && it.recs[0].closes == if old(WillClose(it.State())) then 1 else 0
  {
    hide Good, Iter.Shape, Iter.Owns, TakeMoves, WillClose, AfterReturn, Iter.InnerIsLatest;
    ghost var open := it.recipe.Taking? && TakeOpen(it.recipe, it.State());
    assert !it.recipe.Taking? ==> !TakeOpen(it.recipe, it.State());
    hide TakeOpen;
    var iterated := new Record(it);
    items := [];
    while true
      invariant it.Valid() && iterated !in it.Repr && fresh(iterated) && iterated.iter == it
      invariant fresh(it.Repr - old(it.Repr))
      invariant items + it.rest == old(it.rest)
      invariant open ==> TakeOpen(it.recipe, it.State()) && WillClose(it.State()) == old(WillClose(it.State()))
      decreases |it.rest|
    {
      ghost var s := it.State();
      var value := iterated.Step();
      if open {
        TakeClosesIff(it.recipe, s, it.State());
      }
      if value.None? {
        iterated.mDone := true;
        return;
      }
      items := items + [value.value];
    }
  }

  /** Every nesting of helpers over finite sources yields exactly the list it stands for. */
  method Collect(r: Recipe) returns (items: seq<Value>)
    ensures items == Denote(r)
  {
    var it := Build(r);
    items := ToArray(it);
  }

  /**
   * Collecting a take closes the underlying iterator exactly once when the limit is
   * used up first, that is, when the iterator has at least that many values; when the
   * iterator ends first it is not closed.
   */
  method CollectTake(limit: Limit, inner: Recipe) returns (items: seq<Value>, ghost closes: nat)
    ensures items == TakeFrom(limit, Denote(inner))
    ensures closes == if limit.Finite? && limit.n <= |Denote(inner)| then 1 else 0
  {
    hide Good, Iter.Shape, Iter.Owns;
    var u := Build(inner);
    var it := new Iter.Over(Taking(limit, inner), u);
    items := ToArray(it);
    closes := it.recs[0].closes;
  }

  datatype Action = CallNext | CallReturn

  /** Any sequence of `next` and `return` calls keeps the closing discipline, here and in every helper below. */
  method Drive(it: Iter, calls: seq<Action>)
    requires it.Valid()
    modifies it.Repr
    ensures it.Valid() && it.AllDisciplined()
  {
    hide Good, Iter.Shape, Iter.Owns, Iter.AllDisciplined;
    for n := 0 to |calls|
      invariant it.Valid() && fresh(it.Repr - old(it.Repr))
    {
      if calls[n].CallNext? {
        var _ := it.Next();
      } else {
        it.Return();
      }
    }
    it.ValidIsDisciplined();
  }

  /**
   * `next` after `return`: a helper does not look at its own done flag, so it yields
   * done exactly when nothing is left of what lies underneath.  A sealed pipeline
   * always yields done; a transparent one goes on as if nothing had happened.
   */
  method NextAfterReturn(it: Iter) returns (v: Option<Value>)
    requires it.Valid()
    modifies it.Repr
    ensures v == HeadOf(old(it.After()))
    ensures Sealed(it.recipe) ==> v.None?
    ensures Transparent(it.recipe) ==> v == HeadOf(old(it.rest))
  {
    it.Return();
    v := it.Next();
  }

  /** The same for a pipeline on which `return` is the first call: all that is left is collected. */
  method CollectAfterReturn(r: Recipe) returns (items: seq<Value>)
    ensures items == LeftOver(r)
  {
    var it := Build(r);
    it.Return();
    items := ToArray(it);
  }

  /** `concat` of an empty and a one-element list: after one `next`, `return()` closes the finished first one. */
  method ConcatClosesFinished(x: Value) returns (v: Option<Value>, ghost first: RecState, ghost second: RecState)
    ensures v == Some(x)
    ensures first.exhausted && first.closes == 1 && first.lateClose
    ensures second.closes == 1 && !second.lateClose
  {
    var a, b := Source([], false), Source([x], false);
    hide Good, Iter.Shape, Iter.Owns, Denote, LeftOver, UnflaggedFrom, Sealed, Transparent;
    var it := Build(Concatenation([a, b]));
    TwoParts(x);
    v := it.Next();
    ghost var s := it.State();
    SecondPart(x, s);
    it.Return();
    first, second := it.recs[0], it.recs[1];
    assert ClosedUnlessDone(s.recs[0], first) && ClosedUnlessDone(s.recs[1], second);
  }

  lemma TwoParts(x: Value)
    ensures Denote(Concatenation([Source([], false), Source([x], false)])) == [x]
  {
    var a, b := Source([], false), Source([x], false);
    assert [a, b][1..] == [b] && [b][1..] == [];
    assert DenoteAll([a, b]) == [[], [x]] && [[], [x]][1..] == [[x]];
    assert ConcatAll([[x]]) == [x] + ConcatAll([]);
  }

  /** After a value was yielded, the concatenation is at its second part, and the first one has reported done. */
  lemma SecondPart(x: Value, s: HelperState)
    requires Good(Concatenation([Source([], false), Source([x], false)]), s)
    requires s.innerAlive && !s.isDone && s.recs != [] && s.recs[|s.recs| - 1].pulled > 0
    ensures |s.recs| == 2 && !s.recs[0].done && s.recs[0].exhausted && s.recs[0].closes == 0
    ensures !s.recs[1].done && !s.recs[1].exhausted && s.recs[1].closes == 0 && !s.recs[1].lateClose
  {
    var r := Concatenation([Source([], false), Source([x], false)]);
    assert OpenRecord(r, s, 0) && OpenRecord(r, s, |s.recs| - 1);
    assert Denote(r.parts[0]) == [];
  }

  /** `return()` on an unfinished flatMap closes the outer record 0 first, and then the inner one if it is alive. */
  method ReturnInOrder(it: Iter) returns (ghost order: seq<nat>)
    requires it.Valid() && it.recipe.FlatMapping? && !it.isDone
    modifies it.Repr
    ensures it.closings == old(it.closings) + order
    ensures old(it.innerAlive) ==> |order| == 2 && order[0] == 0 && order[1] == |old(it.recs)| - 1 > 0
    ensures !old(it.innerAlive) ==> order == [0]
  {
    hide Good, Iter.Shape, Iter.Owns, AllClosed, UnflaggedFrom, Sealed, Transparent, AfterReturn;
    FlatOrder(it.recipe, it.State());
    order := UnflaggedFrom(it.recs, 0);
    it.Return();
  }

  /** Called after a value of the inner iterator: the outer one is closed first, where ECMA-262 closes it last. */
  method ReturnClosesOuterFirst(r: Recipe, x: Value) returns (v: Option<Value>, ghost order: seq<nat>)
    requires r.FlatMapping? && r.pool == [] && r.otherwise == Source([x], false) && r.inner == Source([x], false)
    ensures v == Some(x)
    ensures |order| == 2 && order[0] == 0 && order[1] > 0
  {
    hide Good, Iter.Shape, Iter.Owns, Denote, LeftOver, AfterReturn;
    OneElement(r, x);
    var it := Build(r);
    v := it.Next();
    order := ReturnInOrder(it);
  }

  lemma OneElement(r: Recipe, x: Value)
    requires r.FlatMapping? && r.pool == [] && r.otherwise == Source([x], false) && r.inner == Source([x], false)
    ensures Denote(r) == [x]
  {
    assert [x][1..] == [];
    assert FlatFrom([], [x], r.choose, 0, [x]) == [x] + FlatFrom([], [x], r.choose, 1, []);
  }
}
