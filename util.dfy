/** Shared value types and sequence helpers used by every other module. */
module Util {

  datatype Option<+T> = None | Some(value: T)

  /** The outcome of an operation that may raise one of the exceptions in `Error`. */
  datatype Result<+T, +E> = Success(value: T) | Failure(error: E) {
    predicate IsFailure() { Failure? }
    function PropagateFailure<U>(): Result<U, E> requires Failure? { Failure(error) }
    function Extract(): T requires Success? { value }
  }

  /** Why a `ValueError` was raised. */
  datatype Reason =
    | NonTerminalBeforeBoundary(token: string)
    | TerminalAfterBoundary(token: string)
    | NotAFullToken(token: string)
    | ContextTooLong(current: nat, maxAllowed: int)
    | NotADirectory
    | NoProjects

  /** The exceptions the modelled code raises, by their Python class. */
  datatype Error =
    | AssertionError
    | ValueError(reason: Reason)
    | RuntimeError
    | IndexError
    | KeyError
    | TypeError
    | ZeroDivisionError
    | NoFilesToEvaluate
    // numpy does not raise here: it returns inf or nan
    | NonFiniteResult

  function Min(a: int, b: int): int { if a <= b then a else b }

  function Sum(s: seq<real>): real
  {
    if |s| == 0 then 0.0 else s[0] + Sum(s[1..])
  }

  lemma {:induction false} SumConcat(a: seq<real>, b: seq<real>)
    ensures Sum(a + b) == Sum(a) + Sum(b)
  {
    if |a| == 0 {
      assert a + b == b;
    } else {
      assert (a + b)[1..] == a[1..] + b;
      SumConcat(a[1..], b);
    }
  }

  function Flatten<T>(parts: seq<seq<T>>): seq<T>
  {
    if |parts| == 0 then [] else parts[0] + Flatten(parts[1..])
  }

  lemma {:induction false} FlattenConcat<T>(a: seq<seq<T>>, b: seq<seq<T>>)
    ensures Flatten(a + b) == Flatten(a) + Flatten(b)
  {
    if |a| == 0 {
      assert a + b == b;
    } else {
      assert (a + b)[1..] == a[1..] + b;
      FlattenConcat(a[1..], b);
    }
  }

  /** Python's `sep.join(parts)`. */
  function Join(parts: seq<string>, sep: string): string
  {
    if |parts| == 0 then ""
    else if |parts| == 1 then parts[0]
    else parts[0] + sep + Join(parts[1..], sep)
  }

  /** Joining with the empty separator is plain concatenation. */
  lemma {:induction false} JoinEmptyIsFlatten(parts: seq<string>)
    ensures Join(parts, "") == Flatten(parts)
  {
    if |parts| == 1 {
      assert Flatten(parts[1..]) == [];
    } else if |parts| > 1 {
      JoinEmptyIsFlatten(parts[1..]);
    }
  }

  /** Python's `s.split(c)` for a one-character separator: always at least one piece. */
  function Split(s: string, c: char): (r: seq<string>)
    ensures |r| >= 1
  {
    if |s| == 0 then [""]
    else
      var rest := Split(s[1..], c);
      if s[0] == c then [""] + rest
      else [[s[0]] + rest[0]] + rest[1..]
  }

  /** No piece of a split contains the separator. */
  lemma {:induction false} SplitPiecesAvoidSeparator(s: string, c: char)
    ensures forall k :: 0 <= k < |Split(s, c)| ==> c !in Split(s, c)[k]
  {
    if |s| > 0 {
      SplitPiecesAvoidSeparator(s[1..], c);
    }
  }

  /** Joining the pieces of a split with the separator gives the string back. */
  lemma {:induction false} JoinSplit(s: string, c: char)
    ensures Join(Split(s, c), [c]) == s
  {
    if |s| > 0 {
      var rest := Split(s[1..], c);
      JoinSplit(s[1..], c);
      if s[0] == c {
        assert ([""] + rest)[1..] == rest;
      } else {
        var r := [[s[0]] + rest[0]] + rest[1..];
        if |rest| == 1 {
          assert r == [[s[0]] + rest[0]];
          assert s == [s[0]] + s[1..];
        } else {
          assert r[1..] == rest[1..];
          assert Join(rest, [c]) == rest[0] + [c] + Join(rest[1..], [c]);
          assert s == [s[0]] + s[1..];
        }
      }
    }
  }

  /** Ascending list of the positions `i` at which `flags[i]` holds (`nonzero()` on a flag tensor). */
  function IndicesWhere(flags: seq<bool>): (r: seq<nat>)
    ensures forall k :: 0 <= k < |r| ==> r[k] < |flags| && flags[r[k]]
    ensures forall i :: 0 <= i < |flags| && flags[i] ==> i in r
    ensures forall j, k :: 0 <= j < k < |r| ==> r[j] < r[k]
  {
    if |flags| == 0 then []
    else
      var front := IndicesWhere(flags[..|flags| - 1]);
      if flags[|flags| - 1] then front + [|flags| - 1] else front
  }

  function Negate(flags: seq<bool>): (r: seq<bool>)
    ensures |r| == |flags| && forall i :: 0 <= i < |flags| ==> r[i] == !flags[i]
  {
    seq(|flags|, i requires 0 <= i < |flags| => !flags[i])
  }

  /** Every position lands on exactly one side of a flag partition. */
  lemma {:induction false} IndicesWhereCount(flags: seq<bool>)
    ensures |IndicesWhere(flags)| + |IndicesWhere(Negate(flags))| == |flags|
  {
    if |flags| > 0 {
      var front := flags[..|flags| - 1];
      assert Negate(flags)[..|flags| - 1] == Negate(front);
      IndicesWhereCount(front);
    }
  }

  /** A string without the separator splits into itself alone. */
  lemma {:induction false} SplitWithoutSeparator(p: string, c: char)
    requires c !in p
    ensures Split(p, c) == [p]
  {
    if |p| > 0 {
      SplitWithoutSeparator(p[1..], c);
      assert p == [p[0]] + p[1..];
    }
  }

  /** Splitting stops at the first separator. */
  lemma {:induction false} SplitAtFirstSeparator(p: string, rest: string, c: char)
    requires c !in p
    ensures Split(p + [c] + rest, c) == [p] + Split(rest, c)
  {
    if |p| == 0 {
      assert p + [c] + rest == [c] + rest;
      assert ([c] + rest)[1..] == rest;
    } else {
      assert (p + [c] + rest)[1..] == p[1..] + [c] + rest;
      SplitAtFirstSeparator(p[1..], rest, c);
      assert p == [p[0]] + p[1..];
    }
  }

  /** Splitting a join gives the pieces back when none of them holds the separator. */
  lemma {:induction false} SplitJoin(parts: seq<string>, c: char)
    requires |parts| >= 1
    requires forall k :: 0 <= k < |parts| ==> c !in parts[k]
    ensures Split(Join(parts, [c]), c) == parts
  {
    if |parts| == 1 {
      SplitWithoutSeparator(parts[0], c);
    } else {
      SplitJoin(parts[1..], c);
      SplitAtFirstSeparator(parts[0], Join(parts[1..], [c]), c);
      assert parts == [parts[0]] + parts[1..];
    }
  }

  /** The first position at which `flags` holds. */
  function FindFirst(flags: seq<bool>): (r: Option<nat>)
    ensures r.None? <==> forall i :: 0 <= i < |flags| ==> !flags[i]
    ensures r.Some? ==> r.value < |flags| && flags[r.value] && forall i :: 0 <= i < r.value ==> !flags[i]
  {
    if |flags| == 0 then None
    else if flags[0] then Some(0)
    else
      match FindFirst(flags[1..])
      case None => None
      case Some(i) => Some(i + 1)
  }

  /** Python's `list.index(x)` as an option: the first position holding `x`. */
  function IndexOf<T(==)>(s: seq<T>, x: T): (r: Option<nat>)
    ensures r.None? <==> x !in s
    ensures r.Some? ==> r.value < |s| && s[r.value] == x
  {
    if |s| == 0 then None
    else if s[0] == x then Some(0)
    else
      match IndexOf(s[1..], x)
      case None => None
      case Some(i) => Some(i + 1)
  }

  /** The position `IndexOf` finds is the first one: `x` does not occur before it. */
  lemma {:induction false} IndexOfIsFirst<T>(s: seq<T>, x: T)
    requires IndexOf(s, x).Some?
    ensures x !in s[..IndexOf(s, x).value]
  {
    if s[0] != x {
      var i := IndexOf(s[1..], x).value;
      IndexOfIsFirst(s[1..], x);
      assert s[..i + 1] == [s[0]] + s[1..][..i];
    }
  }

  /** Runs a list of outcomes in order: all values if every one succeeds, otherwise the first error. */
  function Collect<T>(rs: seq<Result<T, Error>>): Result<seq<T>, Error>
    decreases |rs|
  {
    if |rs| == 0 then Success([])
    else
      var first :- rs[0];
      var rest :- Collect(rs[1..]);
      Success([first] + rest)
  }

  /** Collecting succeeds exactly when every outcome does, and then keeps their values in order. */
  lemma {:induction false} CollectSucceeds<T>(rs: seq<Result<T, Error>>)
    ensures Collect(rs).Success? <==> forall k :: 0 <= k < |rs| ==> rs[k].Success?
    ensures Collect(rs).Success? ==> (|Collect(rs).value| == |rs| &&
      forall k :: 0 <= k < |rs| ==> Collect(rs).value[k] == rs[k].value)
    decreases |rs|
  {
    if |rs| > 0 {
      var tail := rs[1..];
      CollectSucceeds(tail);
      if forall k :: 0 <= k < |rs| ==> rs[k].Success? {
        forall j | 0 <= j < |tail| ensures tail[j].Success? {
          assert tail[j] == rs[j + 1];
        }
      }
      if Collect(rs).Success? {
        forall k | 0 <= k < |rs| ensures rs[k].Success? && Collect(rs).value[k] == rs[k].value {
          if k > 0 {
            assert rs[k] == tail[k - 1];
            assert Collect(rs).value[k] == Collect(tail).value[k - 1];
          }
        }
      }
    }
  }

  /** A failed collection carries the error of the first failing outcome. */
  lemma {:induction false} CollectFailsAtFirst<T>(rs: seq<Result<T, Error>>)
    ensures Collect(rs).Failure? ==>
      exists k :: 0 <= k < |rs| && rs[k] == Failure(Collect(rs).error) && forall j :: 0 <= j < k ==> rs[j].Success?
    decreases |rs|
  {
    if |rs| > 0 && rs[0].Success? && Collect(rs).Failure? {
      var tail := rs[1..];
      CollectFailsAtFirst(tail);
      var k :| 0 <= k < |tail| && tail[k] == Failure(Collect(tail).error) && forall j :: 0 <= j < k ==> tail[j].Success?;
      forall j | 0 <= j < k + 1 ensures rs[j].Success? {
        if j > 0 {
          assert rs[j] == tail[j - 1];
        }
      }
      assert rs[k + 1] == tail[k];
    }
  }

  /** Collecting outcomes that all succeed gives their values. */
  lemma {:induction false} CollectAllSucceed<T>(rs: seq<Result<T, Error>>, values: seq<T>)
    requires |rs| == |values| && forall k :: 0 <= k < |rs| ==> rs[k] == Success(values[k])
    ensures Collect(rs) == Success(values)
    decreases |rs|
  {
    if |rs| > 0 {
      CollectAllSucceed(rs[1..], values[1..]);
      assert values == [values[0]] + values[1..];
    }
  }

  /** Collecting outcomes that succeed up to a failing one gives that one's error. */
  lemma {:induction false} CollectFirstFailure<T>(rs: seq<Result<T, Error>>, i: nat)
    requires i < |rs| && rs[i].Failure? && forall k :: 0 <= k < i ==> rs[k].Success?
    ensures Collect(rs) == Failure(rs[i].error)
    decreases i
  {
    if i > 0 {
      CollectFirstFailure(rs[1..], i - 1);
    }
  }
}
