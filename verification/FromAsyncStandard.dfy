/**
 * The loops of section 23.1.2.2 of ECMA-262 themselves, and exactly when the
 * engine does what they say.
 *
 * In the standard every exception reaches the promise, a failed `next` does not
 * close the iterator, closing never replaces the error, and there is no pause
 * between two turns.  In the engine's pauses other jobs run, so a turn may start in
 * any script state.
 */
module FromAsyncStandard {
  import opened Common
  import opened SparseObjects
  import opened FromAsyncLoops
  import opened FromAsyncLost

  function Rejects(error: Value): Outcome
  {
    Settled(Reject(error), false)
  }

  /** AsyncIteratorClose with a throw completion: the promise is rejected with the original error. */
  function ClosesAndRejects(error: Value): Outcome
  {
    Settled(Reject(error), true)
  }

  /** The loop over an iterator. */
  function Standard<W>(env: Env<W>, mapping: bool, w: W, k: nat, stored: map<nat, Value>, outs: seq<Delivery<W>>): Outcome
    decreases |outs|, 1
  {
    if k >= MAX_LENGTH then ClosesAndRejects(TYPE_ERROR)
    else if Ask(env, w).Throw? then Rejects(Ask(env, w).error)
    else if outs == [] then Waiting(NextResult, k, stored)
    else StandardNext(env, mapping, k, stored, outs)
  }

  /** `nextResult` has been awaited. */
  function StandardNext<W>(env: Env<W>, mapping: bool, k: nat, stored: map<nat, Value>, outs: seq<Delivery<W>>): Outcome
    requires outs != []
    decreases |outs|, 0
  {
    if outs[0].Rejected? then Rejects(outs[0].error)
    else
      match ReadResult(env, outs[0].world, outs[0].value)
      case Unreadable(e) => Rejects(e)
      case Exhausted(w1) => Finish(env, w1, k, stored)
      case Yielded(w1, v) =>
        if !mapping then StandardStore(env, mapping, w1, v, k, stored, outs[1..])
        else
          var mapped := AskMapper(env, w1, v, k);
          if mapped.Throw? then ClosesAndRejects(mapped.error)
          else if |outs| == 1 then Waiting(MappedValue, k, stored)
          else if outs[1].Rejected? then ClosesAndRejects(outs[1].error)
          else StandardStore(env, mapping, outs[1].world, outs[1].value, k, stored, outs[2..])
  }

  /** Call the mapper and hand what it returns to the await. */
  function AskMapper<W>(env: Env<W>, w: W, v: Value, k: nat): Completion<()>
  {
    var (w1, mapped) := env.mapper(w, v, k);
    if mapped.Throw? then Throw(mapped.error) else env.resolve(w1, mapped.value).1
  }

  function StandardStore<W>(env: Env<W>, mapping: bool, w: W, v: Value, k: nat, stored: map<nat, Value>, outs: seq<Delivery<W>>): Outcome
    decreases |outs|, 2
  {
    var (w1, defined) := env.define(w, k, v);
    if defined.Throw? then ClosesAndRejects(defined.error)
    else Standard(env, mapping, w1, k + 1, stored[k := v], outs)
  }

  // ---- pauses ----

  /** The same deliveries with the pauses of the engine put in: after element `k`, other jobs leave the script in state `pauses(k)`. */
  function WithPauses<W>(mapping: bool, pauses: nat -> W, k: nat, outs: seq<Delivery<W>>): seq<Delivery<W>>
    decreases |outs|
  {
    var p := Period(mapping) - 1;
    if |outs| < p then outs
    else outs[..p] + [Fulfilled(pauses(k), Undefined)] + WithPauses(mapping, pauses, k + 1, outs[p..])
  }

  // ---- where the engine deviates ----

  /** Closing the iterator replaces the error: looking up its `return` method throws. */
  predicate CloseFails<W>(env: Env<W>, w: W, error: Value)
  {
    env.close(w, error).1 != error
  }

  /**
   * Starting a later turn, the engine in state `paused` and the standard in state `w`:
   * an exception is lost by the engine, and what one of them can ask the other must be
   * able to ask, too.
   */
  predicate StartDeviates<W>(env: Env<W>, paused: W, w: W, k: nat)
  {
    if k >= MAX_LENGTH then CloseFails(env, paused, TYPE_ERROR) else Ask(env, paused).Throw? || Ask(env, w).Throw?
  }

  predicate StoreDeviates<W>(env: Env<W>, pauses: nat -> W, w: W, v: Value, k: nat)
  {
    var (w1, defined) := env.define(w, k, v);
    if defined.Throw? then CloseFails(env, w1, defined.error) else StartDeviates(env, pauses(k), w1, k + 1)
  }

  predicate MapperDeviates<W>(env: Env<W>, w: W, v: Value, k: nat)
  {
    var (w1, mapped) := env.mapper(w, v, k);
    if mapped.Throw? then CloseFails(env, w1, mapped.error) else env.resolve(w1, mapped.value).1.Throw?
  }

  /** The guard: what must not happen when delivery `d` meets a run of the standard loop that stands at `o`. */
  predicate Deviates<W>(env: Env<W>, mapping: bool, pauses: nat -> W, o: Outcome, d: Delivery<W>)
  {
    o.Waiting? &&
    match o.place
    case NextResult =>
      d.Rejected? ||
      (match ReadResult(env, d.world, d.value)
       case Unreadable(_) => true
       case Exhausted(_) => false
       case Yielded(w, v) => if mapping then MapperDeviates(env, w, v, o.k) else StoreDeviates(env, pauses, w, v, o.k))
    case MappedValue =>
      if d.Rejected? then CloseFails(env, d.world, d.error) else StoreDeviates(env, pauses, d.world, d.value, o.k)
    case _ => false
  }

  ghost predicate Conforms<W>(env: Env<W>, mapping: bool, pauses: nat -> W, w: W, k: nat, stored: map<nat, Value>, outs: seq<Delivery<W>>)
  {
    forall i :: 0 <= i < |outs| ==> !Deviates(env, mapping, pauses, Standard(env, mapping, w, k, stored, outs[..i]), outs[i])
  }

  /** The element that the first turn stores, and the script state after that, when it gets that far. */
  function FirstTurn<W>(env: Env<W>, mapping: bool, w: W, k: nat, outs: seq<Delivery<W>>): Option<(W, Value)>
  {
    if k >= MAX_LENGTH || Ask(env, w).Throw? || outs == [] || outs[0].Rejected? then None
    else
      match ReadResult(env, outs[0].world, outs[0].value)
      case Yielded(w1, v) =>
        if !mapping then Defined(env, w1, k, v)
        else if AskMapper(env, w1, v, k).Throw? || |outs| == 1 || outs[1].Rejected? then None
        else Defined(env, outs[1].world, k, outs[1].value)
      case _ => None
  }

  function Defined<W>(env: Env<W>, w: W, k: nat, v: Value): Option<(W, Value)>
  {
    var (w1, defined) := env.define(w, k, v);
    if defined.Throw? then None else Some((w1, v))
  }

  /** A turn that stores an element: both loops go on with the next one. */
  lemma TurnGoesOn<W>(env: Env<W>, mapping: bool, pauses: nat -> W, first: bool, we: W, w: W, k: nat, stored: map<nat, Value>, outs: seq<Delivery<W>>)
    requires FirstTurn(env, mapping, w, k, outs).Some? && Ask(env, we).Normal?
    ensures var p, t := Period(mapping) - 1, FirstTurn(env, mapping, w, k, outs).value;
            && |outs| >= p
            && Standard(env, mapping, w, k, stored, outs) == Standard(env, mapping, t.0, k + 1, stored[k := t.1], outs[p..])
            && Iterate(env, mapping, first, we, k, stored, WithPauses(mapping, pauses, k, outs)) ==
               Iterate(env, mapping, false, pauses(k), k + 1, stored[k := t.1], WithPauses(mapping, pauses, k + 1, outs[p..]))
  {
    var p, t := Period(mapping) - 1, FirstTurn(env, mapping, w, k, outs).value;
    var rest := WithPauses(mapping, pauses, k + 1, outs[p..]);
    var all := WithPauses(mapping, pauses, k, outs);
    assert all == outs[..p] + [Fulfilled(pauses(k), Undefined)] + rest;
    assert all[p + 1..] == rest && all[p] == Fulfilled(pauses(k), Undefined);
    var d := outs[p - 1];
    if mapping {
      assert all[1..][1..] == all[2..] && all[2..][1..] == all[3..];
      assert GotMapped(env, mapping, k, stored, all[1..]) == Keep(env, mapping, d.world, d.value, k, stored, all[2..]);
      assert GotNext(env, mapping, k, stored, all) == GotMapped(env, mapping, k, stored, all[1..]);
      assert StandardNext(env, mapping, k, stored, outs) == StandardStore(env, mapping, d.world, d.value, k, stored, outs[2..]);
    } else {
      assert all[1..][1..] == all[2..];
      var r := ReadResult(env, d.world, d.value);
      assert GotNext(env, mapping, k, stored, all) == Keep(env, mapping, r.world, r.value, k, stored, all[1..]);
      assert StandardNext(env, mapping, k, stored, outs) == StandardStore(env, mapping, r.world, r.value, k, stored, outs[1..]);
    }
  }

  /** The delivery is a value for the mapper, and what the mapper returns can be awaited. */
  predicate MapperReached<W>(env: Env<W>, mapping: bool, k: nat, d: Delivery<W>)
  {
    mapping && d.Fulfilled? &&
    var r := ReadResult(env, d.world, d.value);
    r.Yielded? && AskMapper(env, r.world, r.value, k).Normal?
  }

  /** The standard loop on the first `i` deliveries, when the first turn stores nothing. */
  lemma StopsEarly<W>(env: Env<W>, mapping: bool, w: W, k: nat, stored: map<nat, Value>, outs: seq<Delivery<W>>, i: nat)
    requires FirstTurn(env, mapping, w, k, outs).None? && i < |outs|
    ensures var o, running := Standard(env, mapping, w, k, stored, outs[..i]), k < MAX_LENGTH && Ask(env, w).Normal?;
            && (i == 0 ==> if running then o == Waiting(NextResult, k, stored) else o.Settled?)
            && (i > 0 && o.Waiting? ==>
                  running && i == 1 && o == Waiting(MappedValue, k, stored) && MapperReached(env, mapping, k, outs[0]))
  {
    var some := outs[..i];
    assert i > 0 ==> some[0] == outs[0];
    assert i > 1 ==> some[1] == outs[1];
    if i > 0 && FirstTurn(env, mapping, w, k, some).Some? {
      assert false;
    }
    NothingStored(env, mapping, w, k, stored, some);
  }

  /** Without a stored element the standard loop is settled, or waits in its first turn. */
  lemma NothingStored<W>(env: Env<W>, mapping: bool, w: W, k: nat, stored: map<nat, Value>, outs: seq<Delivery<W>>)
    requires FirstTurn(env, mapping, w, k, outs).None?
    ensures var o := Standard(env, mapping, w, k, stored, outs);
            o.Settled? || (o == Waiting(NextResult, k, stored) && outs == [])
            || (o == Waiting(MappedValue, k, stored) && |outs| == 1 && MapperReached(env, mapping, k, outs[0]))
  {
    if outs != [] && outs[0].Fulfilled? {
      var r := ReadResult(env, outs[0].world, outs[0].value);
      if r.Yielded? && !mapping {
        assert StandardNext(env, mapping, k, stored, outs) == StandardStore(env, mapping, r.world, r.value, k, stored, outs[1..]);
      } else if r.Yielded? && |outs| > 1 && outs[1].Fulfilled? && AskMapper(env, r.world, r.value, k).Normal? {
        assert StandardNext(env, mapping, k, stored, outs) ==
               StandardStore(env, mapping, outs[1].world, outs[1].value, k, stored, outs[2..]);
      }
    }
  }

  /** Whether both loops can start their turn, or stop there in the same way. */
  ghost predicate StartsAlike<W>(env: Env<W>, first: bool, we: W, w: W, k: nat)
  {
    if first then we == w && k < MAX_LENGTH else !StartDeviates(env, we, w, k)
  }

  /** A turn that stores nothing: both loops stop or wait, and agree exactly when nothing deviates. */
  lemma TurnStops<W>(env: Env<W>, mapping: bool, pauses: nat -> W, first: bool, we: W, w: W, k: nat, stored: map<nat, Value>, outs: seq<Delivery<W>>)
    requires FirstTurn(env, mapping, w, k, outs).None? && StartsAlike(env, first, we, w, k)
    ensures Iterate(env, mapping, first, we, k, stored, WithPauses(mapping, pauses, k, outs)) ==
              Standard(env, mapping, w, k, stored, outs) <==>
            Conforms(env, mapping, pauses, w, k, stored, outs)
  {
    forall i | 0 <= i < |outs|
      ensures var o, running := Standard(env, mapping, w, k, stored, outs[..i]), k < MAX_LENGTH && Ask(env, w).Normal?;
              && (o.Waiting? ==> running && (i == 0 || (i == 1 && MapperReached(env, mapping, k, outs[0]))))
              && (running && i == 0 ==> o == Waiting(NextResult, k, stored))
              && (running && i == 1 && MapperReached(env, mapping, k, outs[0]) ==> o == Waiting(MappedValue, k, stored))
    {
      StopsEarly(env, mapping, w, k, stored, outs, i);
      assert i == 1 ==> outs[..1] == [outs[0]];
    }
    var all := WithPauses(mapping, pauses, k, outs);
    if outs != [] {
      assert all[0] == outs[0] && (|all| == 1 <==> mapping && |outs| == 1);
      if mapping && |outs| > 1 {
        assert all[1..][0] == outs[1] && all[1..][1..] == all[2..];
      }
      if k < MAX_LENGTH && Ask(env, w).Normal? {
        StopsInTurn(env, mapping, pauses, k, stored, outs, all);
      }
    }
  }

  /** Inside the first turn, after the result of `next` was delivered. */
  lemma StopsInTurn<W>(env: Env<W>, mapping: bool, pauses: nat -> W, k: nat, stored: map<nat, Value>, outs: seq<Delivery<W>>, all: seq<Delivery<W>>)
    requires outs != [] && all != [] && all[0] == outs[0] && (|all| == 1 <==> mapping && |outs| == 1)
    requires mapping && |outs| > 1 ==> all[1] == outs[1]
    requires outs[0].Fulfilled? && ReadResult(env, outs[0].world, outs[0].value).Yielded? ==>
               var r := ReadResult(env, outs[0].world, outs[0].value);
               if !mapping then Defined(env, r.world, k, r.value).None?
               else MapperReached(env, mapping, k, outs[0]) && |outs| > 1 && outs[1].Fulfilled? ==>
                 Defined(env, outs[1].world, k, outs[1].value).None?
    ensures GotNext(env, mapping, k, stored, all) == StandardNext(env, mapping, k, stored, outs) <==>
            && !Deviates(env, mapping, pauses, Waiting(NextResult, k, stored), outs[0])
            && (MapperReached(env, mapping, k, outs[0]) && |outs| > 1 ==>
                  !Deviates(env, mapping, pauses, Waiting(MappedValue, k, stored), outs[1]))
  {
    if mapping && |outs| > 1 && outs[1].Fulfilled? {
      assert GotMapped(env, mapping, k, stored, all[1..]) ==
             Keep(env, mapping, outs[1].world, outs[1].value, k, stored, all[1..][1..]);
    }
  }

  /** Moving the guard past a turn that stored an element. */
  lemma ConformsNext<W>(env: Env<W>, mapping: bool, pauses: nat -> W, w: W, k: nat, stored: map<nat, Value>, outs: seq<Delivery<W>>)
    requires FirstTurn(env, mapping, w, k, outs).Some?
    ensures var p, t := Period(mapping) - 1, FirstTurn(env, mapping, w, k, outs).value;
            |outs| >= p &&
            (Conforms(env, mapping, pauses, w, k, stored, outs) <==>
              !StartDeviates(env, pauses(k), t.0, k + 1) && Conforms(env, mapping, pauses, t.0, k + 1, stored[k := t.1], outs[p..]))
  {
    var p, t := Period(mapping) - 1, FirstTurn(env, mapping, w, k, outs).value;
    TurnGoesOn(env, mapping, pauses, false, w, w, k, stored, outs);
    assert outs[..0] == [];
    assert Standard(env, mapping, w, k, stored, outs[..0]) == Waiting(NextResult, k, stored);
    if mapping {
      assert |outs[..1]| == 1 && outs[..1][0] == outs[0];
      assert Standard(env, mapping, w, k, stored, outs[..1]) == Waiting(MappedValue, k, stored);
    }
    var rest := outs[p..];
    forall i | p <= i < |outs|
      ensures Standard(env, mapping, w, k, stored, outs[..i]) == Standard(env, mapping, t.0, k + 1, stored[k := t.1], rest[..i - p])
      ensures outs[i] == rest[i - p]
    {
      PrefixGoesOn(env, mapping, pauses, false, w, w, k, stored, outs, i);
    }
    forall j | 0 <= j < |rest|
      ensures Standard(env, mapping, w, k, stored, outs[..j + p]) == Standard(env, mapping, t.0, k + 1, stored[k := t.1], rest[..j])
      ensures outs[j + p] == rest[j]
    {
      assert rest[..j] == rest[..(j + p) - p];
    }
  }

  /** The same turn, when only the first `i` deliveries have been made. */
  lemma PrefixGoesOn<W>(env: Env<W>, mapping: bool, pauses: nat -> W, first: bool, we: W, w: W, k: nat, stored: map<nat, Value>, outs: seq<Delivery<W>>, i: nat)
    requires FirstTurn(env, mapping, w, k, outs).Some? && Ask(env, we).Normal? && Period(mapping) - 1 <= i <= |outs|
    ensures var p, t := Period(mapping) - 1, FirstTurn(env, mapping, w, k, outs).value;
            && Standard(env, mapping, w, k, stored, outs[..i]) == Standard(env, mapping, t.0, k + 1, stored[k := t.1], outs[p..][..i - p])
            && Iterate(env, mapping, first, we, k, stored, WithPauses(mapping, pauses, k, outs[..i])) ==
               Iterate(env, mapping, false, pauses(k), k + 1, stored[k := t.1], WithPauses(mapping, pauses, k + 1, outs[p..][..i - p]))
  {
    var p, some := Period(mapping) - 1, outs[..i];
    assert some[0] == outs[0] && (mapping ==> some[1] == outs[1]);
    TurnGoesOn(env, mapping, pauses, first, we, w, k, stored, some);
    assert some[p..] == outs[p..][..i - p];
  }

  /** The engine, with its pauses, stands where the standard stands. */
  ghost predicate Same<W>(env: Env<W>, mapping: bool, pauses: nat -> W, first: bool, we: W, w: W, k: nat, stored: map<nat, Value>, outs: seq<Delivery<W>>)
  {
    Iterate(env, mapping, first, we, k, stored, WithPauses(mapping, pauses, k, outs)) == Standard(env, mapping, w, k, stored, outs)
  }

  /** And so it does after each of the deliveries. */
  ghost predicate SameThroughout<W>(env: Env<W>, mapping: bool, pauses: nat -> W, first: bool, we: W, w: W, k: nat, stored: map<nat, Value>, outs: seq<Delivery<W>>)
  {
    forall i :: 0 <= i <= |outs| ==> Same(env, mapping, pauses, first, we, w, k, stored, outs[..i])
  }

  lemma ConformsPrefix<W>(env: Env<W>, mapping: bool, pauses: nat -> W, w: W, k: nat, stored: map<nat, Value>, outs: seq<Delivery<W>>, n: nat)
    requires n <= |outs| && Conforms(env, mapping, pauses, w, k, stored, outs)
    ensures Conforms(env, mapping, pauses, w, k, stored, outs[..n])
  {
    hide Deviates, Standard;
    forall i | 0 <= i < n
      ensures !Deviates(env, mapping, pauses, Standard(env, mapping, w, k, stored, outs[..n][..i]), outs[..n][i])
    {
      assert outs[..n][..i] == outs[..i];
    }
  }

  /** Prefixes of a run whose first turn stores nothing store nothing either. */
  lemma PrefixStops<W>(env: Env<W>, mapping: bool, w: W, k: nat, outs: seq<Delivery<W>>, i: nat)
    requires i <= |outs| && (FirstTurn(env, mapping, w, k, outs).None? || i < Period(mapping) - 1)
    ensures FirstTurn(env, mapping, w, k, outs[..i]).None?
  {
    var some := outs[..i];
    assert i > 0 ==> some[0] == outs[0];
    assert i > 1 ==> some[1] == outs[1];
  }

  /** A turn that cannot start alike shows at once. */
  lemma StartShows<W>(env: Env<W>, mapping: bool, pauses: nat -> W, we: W, w: W, k: nat, stored: map<nat, Value>)
    ensures Same(env, mapping, pauses, false, we, w, k, stored, []) <==> !StartDeviates(env, we, w, k)
  {
  }

  /**
   * From any turn on, whatever other jobs do in the pauses: the engine does what the
   * standard says, delivery after delivery, if and only if the turn starts alike and
   * no delivery meets the guard.
   */
  lemma {:induction false} AgreesIff<W>(
      env: Env<W>, mapping: bool, pauses: nat -> W, first: bool, we: W, w: W, k: nat, stored: map<nat, Value>, outs: seq<Delivery<W>>)
    requires first ==> we == w && k < MAX_LENGTH
    ensures SameThroughout(env, mapping, pauses, first, we, w, k, stored, outs) <==>
            StartsAlike(env, first, we, w, k) && Conforms(env, mapping, pauses, w, k, stored, outs)
    decreases |outs|
  {
    hide Iterate, Standard, Conforms, WithPauses, Deviates, FirstTurn;
    if !StartsAlike(env, first, we, w, k) {
      StartShows(env, mapping, pauses, we, w, k, stored);
      assert outs[..0] == [];
    } else if FirstTurn(env, mapping, w, k, outs).None? {
      AgreesInTurn(env, mapping, pauses, first, we, w, k, stored, outs, |outs|);
      assert outs[..|outs|] == outs;
    } else {
      var p, t := Period(mapping) - 1, FirstTurn(env, mapping, w, k, outs).value;
      ConformsNext(env, mapping, pauses, w, k, stored, outs);
      AgreesIff(env, mapping, pauses, false, pauses(k), t.0, k + 1, stored[k := t.1], outs[p..]);
      AgreesInTurn(env, mapping, pauses, first, we, w, k, stored, outs, p - 1);
      SameGoesOn(env, mapping, pauses, first, we, w, k, stored, outs);
      if Conforms(env, mapping, pauses, w, k, stored, outs) {
        ConformsPrefix(env, mapping, pauses, w, k, stored, outs, p - 1);
      }
    }
  }

  /** Up to `n` deliveries, within the first turn. */
  lemma AgreesInTurn<W>(env: Env<W>, mapping: bool, pauses: nat -> W, first: bool, we: W, w: W, k: nat, stored: map<nat, Value>, outs: seq<Delivery<W>>, n: nat)
    requires StartsAlike(env, first, we, w, k) && n <= |outs|
    requires FirstTurn(env, mapping, w, k, outs).None? || n < Period(mapping) - 1
    ensures (forall i :: 0 <= i <= n ==> Same(env, mapping, pauses, first, we, w, k, stored, outs[..i])) <==>
            Conforms(env, mapping, pauses, w, k, stored, outs[..n])
  {
    hide Iterate, Standard, Conforms, WithPauses, Deviates, FirstTurn, StartsAlike;
    forall i | 0 <= i <= n
      ensures Same(env, mapping, pauses, first, we, w, k, stored, outs[..i]) <==> Conforms(env, mapping, pauses, w, k, stored, outs[..i])
    {
      PrefixStops(env, mapping, w, k, outs, i);
      TurnStops(env, mapping, pauses, first, we, w, k, stored, outs[..i]);
    }
    if Conforms(env, mapping, pauses, w, k, stored, outs[..n]) {
      forall i | 0 <= i <= n ensures Conforms(env, mapping, pauses, w, k, stored, outs[..i]) {
        ConformsPrefix(env, mapping, pauses, w, k, stored, outs[..n], i);
        assert outs[..n][..i] == outs[..i];
      }
    }
  }

  /** Past the first turn, the run is the run of the later turns. */
  lemma SameGoesOn<W>(env: Env<W>, mapping: bool, pauses: nat -> W, first: bool, we: W, w: W, k: nat, stored: map<nat, Value>, outs: seq<Delivery<W>>)
    requires FirstTurn(env, mapping, w, k, outs).Some? && StartsAlike(env, first, we, w, k)
    ensures var p, t := Period(mapping) - 1, FirstTurn(env, mapping, w, k, outs).value;
            |outs| >= p &&
            ((forall i :: p <= i <= |outs| ==> Same(env, mapping, pauses, first, we, w, k, stored, outs[..i])) <==>
              SameThroughout(env, mapping, pauses, false, pauses(k), t.0, k + 1, stored[k := t.1], outs[p..]))
  {
    var p, t := Period(mapping) - 1, FirstTurn(env, mapping, w, k, outs).value;
    assert Ask(env, we).Normal? && |outs| >= p;
    hide Iterate, Standard, WithPauses, FirstTurn, StartsAlike;
    var rest := outs[p..];
    forall i | p <= i <= |outs|
      ensures Same(env, mapping, pauses, first, we, w, k, stored, outs[..i]) <==>
              Same(env, mapping, pauses, false, pauses(k), t.0, k + 1, stored[k := t.1], rest[..i - p])
    {
      PrefixGoesOn(env, mapping, pauses, first, we, w, k, stored, outs, i);
    }
    forall j | 0 <= j <= |rest|
      ensures Same(env, mapping, pauses, false, pauses(k), t.0, k + 1, stored[k := t.1], rest[..j]) <==>
              Same(env, mapping, pauses, first, we, w, k, stored, outs[..j + p])
    {
      assert rest[..j] == rest[..(j + p) - p];
    }
  }

  /**
   * A whole run, whatever other jobs do in the pauses: the engine does what the
   * standard says, delivery after delivery, if and only if no delivery meets the
   * guard.  The first turn may fail in any way: that exception is caught.
   */
  lemma EngineIsStandardIff<W>(env: Env<W>, mapping: bool, pauses: nat -> W, w: W, outs: seq<Delivery<W>>)
    ensures (forall i :: 0 <= i <= |outs| ==>
              Iterate(env, mapping, true, w, 0, map[], WithPauses(mapping, pauses, 0, outs[..i])) ==
              Standard(env, mapping, w, 0, map[], outs[..i])) <==>
            forall i :: 0 <= i < |outs| ==>
              !Deviates(env, mapping, pauses, Standard(env, mapping, w, 0, map[], outs[..i]), outs[i])
  {
    AgreesIff(env, mapping, pauses, true, w, w, 0, map[], outs);
    hide Iterate, Standard, WithPauses, Deviates;
    if forall i :: 0 <= i <= |outs| ==>
         Iterate(env, mapping, true, w, 0, map[], WithPauses(mapping, pauses, 0, outs[..i])) == Standard(env, mapping, w, 0, map[], outs[..i])
    {
      forall i | 0 <= i <= |outs| ensures Same(env, mapping, pauses, true, w, w, 0, map[], outs[..i]) {
      }
    }
    if SameThroughout(env, mapping, pauses, true, w, w, 0, map[], outs) {
      forall i | 0 <= i <= |outs|
        ensures Iterate(env, mapping, true, w, 0, map[], WithPauses(mapping, pauses, 0, outs[..i])) == Standard(env, mapping, w, 0, map[], outs[..i])
      {
        assert Same(env, mapping, pauses, true, w, w, 0, map[], outs[..i]);
      }
    }
  }

  /** No pause changes whether `next` can be called and awaited. */
  ghost predicate Undisturbed<W>(env: Env<W>, mapping: bool, pauses: nat -> W, w: W, k: nat, outs: seq<Delivery<W>>)
    decreases |outs|
  {
    var p, turn := Period(mapping) - 1, FirstTurn(env, mapping, w, k, outs);
    turn.Some? && |outs| >= p ==>
      && (k + 1 < MAX_LENGTH ==> (Ask(env, pauses(k)).Normal? <==> Ask(env, turn.value.0).Normal?))
      && Undisturbed(env, mapping, pauses, turn.value.0, k + 1, outs[p..])
  }

  /** Then a deviation shows in the end, too: the run ends as the standard says if and only if no delivery meets the guard. */
  lemma {:induction false} EndsAlikeIff<W>(
      env: Env<W>, mapping: bool, pauses: nat -> W, first: bool, we: W, w: W, k: nat, stored: map<nat, Value>, outs: seq<Delivery<W>>)
    requires if first then we == w && k < MAX_LENGTH else k < MAX_LENGTH ==> (Ask(env, we).Normal? <==> Ask(env, w).Normal?)
    requires Undisturbed(env, mapping, pauses, w, k, outs)
    ensures Same(env, mapping, pauses, first, we, w, k, stored, outs) <==>
            StartsAlike(env, first, we, w, k) && Conforms(env, mapping, pauses, w, k, stored, outs)
    decreases |outs|
  {
    if !StartsAlike(env, first, we, w, k) {
      assert !Same(env, mapping, pauses, first, we, w, k, stored, outs);
    } else if FirstTurn(env, mapping, w, k, outs).None? {
      TurnStops(env, mapping, pauses, first, we, w, k, stored, outs);
    } else {
      var p, t := Period(mapping) - 1, FirstTurn(env, mapping, w, k, outs).value;
      TurnGoesOn(env, mapping, pauses, first, we, w, k, stored, outs);
      hide Iterate, Standard, Conforms, WithPauses, FirstTurn;
      ConformsNext(env, mapping, pauses, w, k, stored, outs);
      EndsAlikeIff(env, mapping, pauses, false, pauses(k), t.0, k + 1, stored[k := t.1], outs[p..]);
    }
  }

  /** The same for a whole run. */
  lemma EngineEndsAsStandardIff<W>(env: Env<W>, mapping: bool, pauses: nat -> W, w: W, outs: seq<Delivery<W>>)
    requires Undisturbed(env, mapping, pauses, w, 0, outs)
    ensures Iterate(env, mapping, true, w, 0, map[], WithPauses(mapping, pauses, 0, outs)) ==
              Standard(env, mapping, w, 0, map[], outs) <==>
            forall i :: 0 <= i < |outs| ==>
              !Deviates(env, mapping, pauses, Standard(env, mapping, w, 0, map[], outs[..i]), outs[i])
  {
    EndsAlikeIff(env, mapping, pauses, true, w, w, 0, map[], outs);
  }

  /** An iterator whose `next` throws once some other job has set the script state to -1. */
  function ThrowsWhenDisturbed(): Env<int>
  {
    ThrowsSecond().(next := (w: int) => (w, if w == -1 then Throw(Text("boom")) else Normal(Ref(0))))
  }

  /** A job that runs in the pause makes `next` throw: the engine loses the error, the standard has gone on. */
  lemma JobInPauseBreaksNext()
    ensures var env, pauses, outs := ThrowsWhenDisturbed(), (k: nat) => -1, [Fulfilled(1, Ref(0))];
            && Iterate(env, false, true, 0, 0, map[], WithPauses(false, pauses, 0, outs)) == Lost(Text("boom"))
            && Standard(env, false, 0, 0, map[], outs) == Waiting(NextResult, 1, map[0 := Number(7)])
  {
    var env, pauses, outs := ThrowsWhenDisturbed(), (k: nat) => -1, [Fulfilled(1, Ref(0))];
    assert ReadResult(env, 1, Ref(0)) == Yielded(1, Number(7));
    assert FirstTurn(env, false, 0, 0, outs) == Some((1, Number(7)));
    TurnGoesOn(env, false, pauses, true, 0, 0, 0, map[], outs);
    assert Iterate(env, false, false, -1, 1, map[0 := Number(7)], WithPauses(false, pauses, 1, [])) == Lost(Text("boom"));
  }

  /** A rejected result of `next`: the engine closes the iterator, the standard does not. */
  lemma RejectedNextCloses<W>(env: Env<W>, mapping: bool, w: W, d: Delivery<W>)
    requires Ask(env, w).Normal? && d.Rejected?
    ensures Iterate(env, mapping, true, w, 0, map[], [d]) == Settled(Reject(env.close(d.world, d.error).1), true)
    ensures Standard(env, mapping, w, 0, map[], [d]) == Settled(Reject(d.error), false)
  {
  }

  /** The mapper throws: both close and reject, but the engine with whatever closing throws. */
  lemma CloseReplacesError<W>(env: Env<W>, w: W, d: Delivery<W>)
    requires Ask(env, w).Normal? && d.Fulfilled? && ReadResult(env, d.world, d.value).Yielded?
    requires var r := ReadResult(env, d.world, d.value); env.mapper(r.world, r.value, 0).1.Throw?
    ensures var r := ReadResult(env, d.world, d.value); var (w1, mapped) := env.mapper(r.world, r.value, 0);
            && Iterate(env, true, true, w, 0, map[], [d]) == Settled(Reject(env.close(w1, mapped.error).1), true)
            && Standard(env, true, w, 0, map[], [d]) == Settled(Reject(mapped.error), true)
  {
    var r := ReadResult(env, d.world, d.value);
    var (w1, mapped) := env.mapper(r.world, r.value, 0);
    assert GotNext(env, true, 0, map[], [d]) == CloseAndReject(env, w1, mapped.error);
  }

  /** The mapper returns a promise that cannot be awaited: the engine loses the error, the standard closes and rejects. */
  lemma UnresolvableIsLost<W>(env: Env<W>, w: W, d: Delivery<W>)
    requires Ask(env, w).Normal? && d.Fulfilled? && ReadResult(env, d.world, d.value).Yielded?
    requires var r := ReadResult(env, d.world, d.value); Unresolvable(env, r.world, r.value, 0)
    ensures var r := ReadResult(env, d.world, d.value); var e := AskMapper(env, r.world, r.value, 0);
            && e.Throw?
            && Iterate(env, true, true, w, 0, map[], [d]) == Lost(e.error)
            && Standard(env, true, w, 0, map[], [d]) == Settled(Reject(e.error), true)
  {
    var r := ReadResult(env, d.world, d.value);
    var (w1, mapped) := env.mapper(r.world, r.value, 0);
    assert GotNext(env, true, 0, map[], [d]) == Lost(env.resolve(w1, mapped.value).1.error);
  }

  // ---- array-likes ----

  /** The loop over an array-like: nothing is closed, and every exception rejects. */
  function StandardElements<W>(env: Env<W>, mapping: bool, len: nat, w: W, k: nat, stored: map<nat, Value>, outs: seq<Delivery<W>>): Outcome
    decreases |outs|, 0
  {
    if k >= len then Finish(env, w, k, stored)
    else
      var fetched := Fetch(env, w, k);
      if fetched.Throw? then Rejects(fetched.error)
      else if outs == [] then Waiting(ArrayElement, k, stored)
      else if outs[0].Rejected? then Rejects(outs[0].error)
      else if !mapping then StandardKeep(env, mapping, len, outs[0].world, outs[0].value, k, stored, outs[1..])
      else
        var mapped := AskMapper(env, outs[0].world, outs[0].value, k);
        if mapped.Throw? then Rejects(mapped.error)
        else if |outs| == 1 then Waiting(MappedValue, k, stored)
        else if outs[1].Rejected? then Rejects(outs[1].error)
        else StandardKeep(env, mapping, len, outs[1].world, outs[1].value, k, stored, outs[2..])
  }

  /** Read element `k` and hand it to the await. */
  function Fetch<W>(env: Env<W>, w: W, k: nat): Completion<()>
  {
    var (w1, got) := env.get(w, k);
    if got.Throw? then Throw(got.error) else env.resolve(w1, got.value).1
  }

  function StandardKeep<W>(env: Env<W>, mapping: bool, len: nat, w: W, v: Value, k: nat, stored: map<nat, Value>, outs: seq<Delivery<W>>): Outcome
    decreases |outs|, 1
  {
    var (w1, defined) := env.define(w, k, v);
    if defined.Throw? then Rejects(defined.error)
    else StandardElements(env, mapping, len, w1, k + 1, stored[k := v], outs)
  }

  /** Equal, or the engine has lost an exception with which the standard rejects. */
  ghost predicate SameUnlessLost(engine: Outcome, standard: Outcome)
  {
    !standard.Lost? && (engine == standard || (engine.Lost? && standard == Rejects(engine.error)))
  }

  lemma {:induction false} ElementsAgree<W>(
      env: Env<W>, mapping: bool, len: nat, w: W, k: nat, stored: map<nat, Value>, outs: seq<Delivery<W>>)
    ensures SameUnlessLost(EachElement(env, mapping, len, w, k, stored, outs),
                           StandardElements(env, mapping, len, w, k, stored, outs))
    decreases |outs|, 0
  {
    var (w1, got) := env.get(w, k);
    if k < len && got.Normal? && env.resolve(w1, got.value).1.Normal? && outs != [] && outs[0].Fulfilled? {
      var (w2, mapped) := env.mapper(outs[0].world, outs[0].value, k);
      if !mapping {
        KeepsAgree(env, mapping, len, outs[0].world, outs[0].value, k, stored, outs[1..]);
      } else if mapped.Normal? && env.resolve(w2, mapped.value).1.Normal? && |outs| > 1 {
        assert outs[1..][0] == outs[1] && outs[1..][1..] == outs[2..];
        if outs[1].Fulfilled? {
          KeepsAgree(env, mapping, len, outs[1].world, outs[1].value, k, stored, outs[2..]);
        }
        assert GotMappedElement(env, mapping, len, k, stored, outs[1..]) ==
               if outs[1].Rejected? then Rejects(outs[1].error)
               else KeepElement(env, mapping, len, outs[1].world, outs[1].value, k, stored, outs[2..]);
      }
    }
  }

  lemma {:induction false} KeepsAgree<W>(
      env: Env<W>, mapping: bool, len: nat, w: W, v: Value, k: nat, stored: map<nat, Value>, outs: seq<Delivery<W>>)
    ensures SameUnlessLost(KeepElement(env, mapping, len, w, v, k, stored, outs),
                           StandardKeep(env, mapping, len, w, v, k, stored, outs))
    decreases |outs|, 1
  {
    var (w1, defined) := env.define(w, k, v);
    if defined.Normal? {
      ElementsAgree(env, mapping, len, w1, k + 1, stored[k := v], outs);
    }
  }

  /** The opening pause, after which other jobs have left state `paused`: the loop starts as it does in state `w`. */
  predicate OpensAlike<W>(env: Env<W>, len: nat, paused: W, w: W)
  {
    if len == 0 then Finish(env, paused, 0, map[]) == Finish(env, w, 0, map[]) else Fetch(env, paused, 0) == Fetch(env, w, 0)
  }

  lemma OpeningHidden<W>(env: Env<W>, mapping: bool, len: nat, paused: W, w: W, outs: seq<Delivery<W>>)
    requires OpensAlike(env, len, paused, w)
    ensures StandardElements(env, mapping, len, paused, 0, map[], outs) == StandardElements(env, mapping, len, w, 0, map[], outs)
  {
  }

  lemma OpeningShows<W>(env: Env<W>, mapping: bool, len: nat, paused: W, w: W)
    requires !OpensAlike(env, len, paused, w)
    ensures FromArrayLike(env, mapping, len, [Fulfilled(paused, Undefined)]) != StandardElements(env, mapping, len, w, 0, map[], [])
  {
    var pause := [Fulfilled(paused, Undefined)];
    assert pause[1..] == [];
    var (w1, got) := env.get(paused, 0);
    if len > 0 {
      var there, here := Fetch(env, w, 0), Fetch(env, paused, 0);
      assert there.Normal? && here.Normal? ==> there.value == here.value;
      assert EachElement(env, mapping, len, paused, 0, map[], []) ==
             if got.Throw? then Rejects(got.error) else if here.Throw? then Lost(here.error) else Waiting(ArrayElement, 0, map[]);
    }
  }

  /** No delivery of the run loses it. */
  ghost predicate NothingLost<W>(env: Env<W>, mapping: bool, len: nat, all: seq<Delivery<W>>)
  {
    forall i :: 0 <= i < |all| ==> !LosesElement(env, mapping, len, FromArrayLike(env, mapping, len, all[..i]), all[i])
  }

  /** When the opening pause hides nothing, the run ends as the standard says if and only if no delivery loses it. */
  lemma ArrayLikeEndsAsStandardIff<W>(env: Env<W>, mapping: bool, len: nat, paused: W, w: W, outs: seq<Delivery<W>>)
    requires OpensAlike(env, len, paused, w)
    ensures var all := [Fulfilled(paused, Undefined)] + outs;
            FromArrayLike(env, mapping, len, all) == StandardElements(env, mapping, len, w, 0, map[], outs) <==>
            NothingLost(env, mapping, len, all)
  {
    var all := [Fulfilled(paused, Undefined)] + outs;
    assert all[1..] == outs;
    ElementsAgree(env, mapping, len, paused, 0, map[], outs);
    OpeningHidden(env, mapping, len, paused, w, outs);
    ArrayLikeRunLostIff(env, mapping, len, all);
  }

  /**
   * Whatever other jobs do in the opening pause: over an array-like the engine does
   * what the standard says, delivery after delivery, if and only if the loop starts
   * alike and no delivery loses the run.
   */
  lemma ArrayLikeIsStandardIff<W>(env: Env<W>, mapping: bool, len: nat, paused: W, w: W, outs: seq<Delivery<W>>)
    ensures (forall i :: 0 <= i <= |outs| ==>
              FromArrayLike(env, mapping, len, [Fulfilled(paused, Undefined)] + outs[..i]) ==
              StandardElements(env, mapping, len, w, 0, map[], outs[..i])) <==>
            OpensAlike(env, len, paused, w) && NothingLost(env, mapping, len, [Fulfilled(paused, Undefined)] + outs)
  {
    var pause := [Fulfilled(paused, Undefined)];
    assert outs[..0] == [] && outs[..|outs|] == outs && pause[1..] == [];
    if !OpensAlike(env, len, paused, w) {
      OpeningShows(env, mapping, len, paused, w);
      assert pause + [] == pause;
    } else {
      hide OpensAlike, FromArrayLike, StandardElements, LosesElement;
      forall i | 0 <= i <= |outs|
        ensures FromArrayLike(env, mapping, len, pause + outs[..i]) == StandardElements(env, mapping, len, w, 0, map[], outs[..i]) <==>
                NothingLost(env, mapping, len, pause + outs[..i])
      {
        ArrayLikeEndsAsStandardIff(env, mapping, len, paused, w, outs[..i]);
      }
      if NothingLost(env, mapping, len, pause + outs) {
        forall i | 0 <= i <= |outs| ensures NothingLost(env, mapping, len, pause + outs[..i]) {
          var all, some := pause + outs, pause + outs[..i];
          forall j | 0 <= j < |some|
            ensures !LosesElement(env, mapping, len, FromArrayLike(env, mapping, len, some[..j]), some[j])
          {
            assert some[..j] == all[..j] && some[j] == all[j];
          }
        }
      }
    }
  }

  // ---- the standard's loops in terms of the user code ----

  /** The start of a turn: only too many elements close the iterator. */
  lemma StandardBegins<W>(env: Env<W>, mapping: bool, w: W, k: nat, stored: map<nat, Value>)
    ensures var o := Standard(env, mapping, w, k, stored, []); var (w1, called) := env.next(w);
            o == if k >= MAX_LENGTH then Settled(Reject(TYPE_ERROR), true)
                 else if called.Throw? then Settled(Reject(called.error), false)
                 else if env.resolve(w1, called.value).1.Throw? then Settled(Reject(env.resolve(w1, called.value).1.error), false)
                 else Waiting(NextResult, k, stored)
  {
  }

  /** An awaited result: whatever goes wrong in reading it rejects, without closing. */
  lemma StandardReads<W>(env: Env<W>, mapping: bool, k: nat, stored: map<nat, Value>, d: Delivery<W>)
    ensures var o := StandardNext(env, mapping, k, stored, [d]);
            && (d.Rejected? ==> o == Settled(Reject(d.error), false))
            && (d.Fulfilled? && !env.isObject(d.value) ==> o == Settled(Reject(TYPE_ERROR), false))
            && (d.Fulfilled? && env.isObject(d.value) ==>
                  var (w1, done) := env.done(d.world, d.value);
                  && (done.Throw? ==> o == Settled(Reject(done.error), false))
                  && (done == Normal(true) && env.setLength(w1, k).1.Normal? ==> o == Settled(Resolve(stored, k), false))
                  && (done == Normal(true) && env.setLength(w1, k).1.Throw? ==>
                        o == Settled(Reject(env.setLength(w1, k).1.error), false))
                  && (done == Normal(false) && env.valueOf(w1, d.value).1.Throw? ==>
                        o == Settled(Reject(env.valueOf(w1, d.value).1.error), false)))
  {
  }

  /** A value: a throwing mapper, a promise that cannot be awaited and a throwing definition close and reject. */
  lemma StandardGoesOn<W>(env: Env<W>, mapping: bool, k: nat, stored: map<nat, Value>, d: Delivery<W>)
    requires d.Fulfilled? && env.isObject(d.value)
    requires var (w1, done) := env.done(d.world, d.value); done == Normal(false) && env.valueOf(w1, d.value).1.Normal?
    ensures var (w2, v) := env.valueOf(env.done(d.world, d.value).0, d.value);
            var o := StandardNext(env, mapping, k, stored, [d]);
            && (!mapping ==>
                  var (w3, defined) := env.define(w2, k, v.value);
                  o == if defined.Throw? then Settled(Reject(defined.error), true)
                       else Standard(env, mapping, w3, k + 1, stored[k := v.value], []))
            && (mapping ==>
                  var (w3, mapped) := env.mapper(w2, v.value, k);
                  o == if mapped.Throw? then Settled(Reject(mapped.error), true)
                       else if env.resolve(w3, mapped.value).1.Throw? then Settled(Reject(env.resolve(w3, mapped.value).1.error), true)
                       else Waiting(MappedValue, k, stored))
  {
    var (w1, done) := env.done(d.world, d.value);
    var (w2, v) := env.valueOf(w1, d.value);
    assert ReadResult(env, d.world, d.value) == Yielded(w2, v.value);
    assert [d][1..] == [];
    if !mapping {
      assert StandardNext(env, mapping, k, stored, [d]) == StandardStore(env, mapping, w2, v.value, k, stored, []);
    }
  }

  /** The awaited mapped value. */
  lemma StandardMaps<W>(env: Env<W>, k: nat, stored: map<nat, Value>, d: Delivery<W>, e: Delivery<W>)
    requires MapperReached(env, true, k, d)
    ensures var o := StandardNext(env, true, k, stored, [d, e]);
            && (e.Rejected? ==> o == Settled(Reject(e.error), true))
            && (e.Fulfilled? ==>
                  var (w1, defined) := env.define(e.world, k, e.value);
                  o == if defined.Throw? then Settled(Reject(defined.error), true)
                       else Standard(env, true, w1, k + 1, stored[k := e.value], []))
  {
    assert [d, e][2..] == [];
    if e.Fulfilled? {
      assert StandardNext(env, true, k, stored, [d, e]) == StandardStore(env, true, e.world, e.value, k, stored, []);
    }
  }

  /** The head of the standard's loop over an array-like. */
  lemma StandardElementBegins<W>(env: Env<W>, mapping: bool, len: nat, w: W, k: nat, stored: map<nat, Value>)
    ensures var o := StandardElements(env, mapping, len, w, k, stored, []);
            var (w1, got) := env.get(w, k);
            && (k >= len ==> o == Settled(if env.setLength(w, k).1.Normal? then Resolve(stored, k)
                                          else Reject(env.setLength(w, k).1.error), false))
            && (k < len ==> o == if got.Throw? then Settled(Reject(got.error), false)
                                 else if env.resolve(w1, got.value).1.Throw? then Settled(Reject(env.resolve(w1, got.value).1.error), false)
                                 else Waiting(ArrayElement, k, stored))
  {
  }
}
