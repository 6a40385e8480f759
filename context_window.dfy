/**
 * The context-usage plan of one inference call: how many predictions happen
 * before the first reset of the recurrent state, how many full windows follow,
 * and what context length the model has seen before each single prediction.
 */
module ContextWindow {
  import opened Util

  /** The four fields of the frozen `ContextUsage` data class. */
  datatype ContextUsage = ContextUsage(lengthStart: nat, resetAt: nat, resetTimes: nat, lengthEnd: nat)
  {
    /** The invariant asserted when a plan is built. */
    predicate Valid()
    {
      resetAt > lengthStart && resetAt >= lengthEnd
    }

    /** The closed-form prediction count (may be negative for plans the model never builds). */
    function NPredictions(): int
    {
      (resetAt - lengthStart) + resetAt * (resetTimes - 1) + lengthEnd
    }

    /** The last window is filled exactly up to the reset length. */
    predicate IsLastChunkComplete()
    {
      resetAt == lengthEnd
    }
  }

  /** A plan that passed the construction-time assertion. */
  type Plan = u: ContextUsage | u.Valid() witness ContextUsage(0, 1, 0, 0)

  /** Building a plan: the data class asserts its invariant after initialisation. */
  function MakeContextUsage(lengthStart: nat, resetAt: nat, resetTimes: nat, lengthEnd: nat): (r: Result<Plan, Error>)
    ensures r.Failure? <==> !(resetAt > lengthStart && resetAt >= lengthEnd)
    ensures r.Failure? ==> r.error == AssertionError
    ensures r.Success? ==> r.value == ContextUsage(lengthStart, resetAt, resetTimes, lengthEnd)
  {
    var u := ContextUsage(lengthStart, resetAt, resetTimes, lengthEnd);
    if u.Valid() then Success(u) else Failure(AssertionError)
  }

  /** The iterator stops once all resets are done and the end length is reached, or after one reset too many. */
  predicate Stops(u: Plan, current: nat, timesReset: nat)
  {
    (timesReset == u.resetTimes && current == u.lengthEnd) || timesReset > u.resetTimes
  }

  /** The values an iterator in state (`current`, `timesReset`) still yields. */
  function Remaining(u: Plan, current: nat, timesReset: nat): seq<nat>
    requires current < u.resetAt
    decreases u.resetTimes + 1 - timesReset, u.resetAt - current
  {
    if Stops(u, current, timesReset) then []
    else if current + 1 == u.resetAt then [current] + Remaining(u, 0, timesReset + 1)
    else [current] + Remaining(u, current + 1, timesReset)
  }

  /** Each value still to be yielded is a context length seen before a prediction, so it stays below `resetAt`. */
  lemma {:induction false} RemainingBelowReset(u: Plan, current: nat, timesReset: nat)
    requires current < u.resetAt
    ensures forall k :: 0 <= k < |Remaining(u, current, timesReset)| ==> Remaining(u, current, timesReset)[k] < u.resetAt
    decreases u.resetTimes + 1 - timesReset, u.resetAt - current
  {
    if Stops(u, current, timesReset) {
    } else if current + 1 == u.resetAt {
      RemainingBelowReset(u, 0, timesReset + 1);
    } else {
      RemainingBelowReset(u, current + 1, timesReset);
    }
  }

  /** Everything a fresh iterator over the plan yields. */
  function Iterate(u: Plan): seq<nat>
  {
    Remaining(u, u.lengthStart, 0)
  }

  /** `ContextUsageIterator`: counts up from `lengthStart`, wrapping to 0 and counting a reset at `resetAt`. */
  class ContextUsageIterator {
    const usage: Plan
    var currentLength: nat
    var contextTimesReset: nat

    ghost predicate Valid()
      reads this
    {
      currentLength < usage.resetAt
    }

    /** What is still to be yielded. */
    ghost function Rest(): seq<nat>
      reads this
      requires Valid()
    {
      Remaining(usage, currentLength, contextTimesReset)
    }

    constructor (u: Plan)
      ensures Valid() && usage == u
      ensures currentLength == u.lengthStart && contextTimesReset == 0
      ensures Rest() == Iterate(u)
    {
      usage := u;
      currentLength := u.lengthStart;
      contextTimesReset := 0;
    }

    /** `__next__`: `None` stands for `StopIteration`, which leaves the iterator as it was. */
    method Next() returns (r: Option<nat>)
      requires Valid()
      modifies this
      ensures Valid()
      ensures old(Rest()) == [] ==> r == None && currentLength == old(currentLength) && contextTimesReset == old(contextTimesReset)
      ensures old(Rest()) != [] ==> r == Some(old(Rest())[0]) && Rest() == old(Rest())[1..]
    {
      if (contextTimesReset == usage.resetTimes && currentLength == usage.lengthEnd)
        || contextTimesReset > usage.resetTimes
      {
        return None;
      }
      var toReturn := currentLength;
      currentLength := currentLength + 1;
      if currentLength == usage.resetAt {
        currentLength := 0;
        contextTimesReset := contextTimesReset + 1;
      }
      return Some(toReturn);
    }
  }

  /** `[i for i in iter(context_usage)]`: drives the iterator until it stops. */
  method ToList(u: Plan) returns (s: seq<nat>)
    ensures s == Iterate(u)
    ensures forall k :: 0 <= k < |s| ==> s[k] < u.resetAt
  {
    var it := new ContextUsageIterator(u);
    s := [];
    while true
      invariant it.Valid() && it.usage == u
      invariant s + it.Rest() == Iterate(u)
      decreases |it.Rest()|
    {
      var x := it.Next();
      if x.None? {
        break;
      }
      s := s + [x.value];
    }
    assert s + [] == s;
    RemainingBelowReset(u, u.lengthStart, 0);
  }

  /** How many values an iterator in a given state still yields. */
  lemma {:induction false} RemainingLength(u: Plan, current: nat, timesReset: nat)
    requires current < u.resetAt && timesReset <= u.resetTimes
    ensures |Remaining(u, current, timesReset)| ==
      if timesReset < u.resetTimes then (u.resetTimes - timesReset) * u.resetAt - current + u.lengthEnd
      else if current <= u.lengthEnd then u.lengthEnd - current
      else u.resetAt - current
    decreases u.resetTimes + 1 - timesReset, u.resetAt - current
  {
    if Stops(u, current, timesReset) {
    } else if current + 1 == u.resetAt {
      if timesReset + 1 <= u.resetTimes {
        RemainingLength(u, 0, timesReset + 1);
        assert (u.resetTimes - timesReset) * u.resetAt == (u.resetTimes - (timesReset + 1)) * u.resetAt + u.resetAt;
      }
    } else {
      RemainingLength(u, current + 1, timesReset);
    }
  }

  /**
   * The iterator yields `NPredictions()` values whenever at least one reset happens
   * or the plan ends no earlier than it starts; otherwise it runs to the first reset.
   */
  lemma IterateLength(u: Plan)
    ensures (u.resetTimes >= 1 || u.lengthEnd >= u.lengthStart) ==> |Iterate(u)| == u.NPredictions()
    ensures (u.resetTimes == 0 && u.lengthEnd < u.lengthStart) ==> |Iterate(u)| == u.resetAt - u.lengthStart
  {
    RemainingLength(u, u.lengthStart, 0);
    assert u.resetAt * (u.resetTimes - 1) + u.resetAt == u.resetTimes * u.resetAt;
  }

  /** The prediction-count doctests of the data class without an iteration. */
  lemma NPredictionsDoctests()
    ensures ContextUsage(10, 200, 0, 10).NPredictions() == 0
    ensures ContextUsage(50, 200, 1, 50).NPredictions() == 200
    ensures ContextUsage(10, 200, 2, 50).NPredictions() == 440
  {
  }

  /** Doctest: the degenerate plan of an empty input predicts nothing. */
  lemma NPredictionsEmptyDoctest()
    ensures ContextUsage(0, 1, 0, 0).NPredictions() == 0
  {
  }

  /** Doctest: one prediction fills the window exactly. */
  lemma NPredictionsFullWindowDoctest()
    ensures ContextUsage(199, 200, 0, 200).NPredictions() == 1
  {
  }

  /** The prediction-count doctests of the three iterated plans. */
  lemma NPredictionsIteratedDoctests()
    ensures ContextUsage(199, 200, 1, 1).NPredictions() == 2
    ensures ContextUsage(0, 1, 2, 1).NPredictions() == 3
    ensures ContextUsage(2, 3, 2, 1).NPredictions() == 5
  {
  }

  /** Doctest: `(20, 10, 2, 50)` violates the invariant, so construction fails. */
  lemma ConstructionDoctest()
    ensures MakeContextUsage(20, 10, 2, 50) == Failure(AssertionError)
  {
  }

  /** Doctest: `(199, 200, 1, 1)` yields `[199, 0]`. */
  lemma IterateDoctestWrapOnce()
    ensures Iterate(ContextUsage(199, 200, 1, 1)) == [199, 0]
  {
    var a: Plan := ContextUsage(199, 200, 1, 1);
    assert Remaining(a, 0, 1) == [0];
  }

  /** Doctest: `(0, 1, 2, 1)` yields `[0, 0, 0]`. */
  lemma IterateDoctestUnitWindow()
    ensures Iterate(ContextUsage(0, 1, 2, 1)) == [0, 0, 0]
  {
    var b: Plan := ContextUsage(0, 1, 2, 1);
    assert Remaining(b, 0, 2) == [0];
    assert Remaining(b, 0, 1) == [0, 0];
  }

  /** Doctest: `(2, 3, 2, 1)` yields `[2, 0, 1, 2, 0]`. */
  lemma IterateDoctestTwoResets()
    ensures Iterate(ContextUsage(2, 3, 2, 1)) == [2, 0, 1, 2, 0]
  {
    var c: Plan := ContextUsage(2, 3, 2, 1);
    assert Remaining(c, 0, 2) == [0];
    assert Remaining(c, 2, 1) == [2, 0];
    assert Remaining(c, 0, 1) == [0, 1, 2, 0];
  }
}
