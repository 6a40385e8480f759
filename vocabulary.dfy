/**
 * The sub-token vocabulary: reordering it so that terminal sub-tokens (those that
 * end a full token) take the low ids, checking that boundary, turning strings into
 * ids and joining sub-tokens back into a full token.
 */
module Vocabulary {
  import opened Util

  /** `flags[i]` tells whether the `i`-th vocabulary entry is terminal. */
  function TerminalFlags(itos: seq<string>, isTerminal: string -> bool): (r: seq<bool>)
    ensures |r| == |itos| && forall i :: 0 <= i < |itos| ==> r[i] == isTerminal(itos[i])
  {
    seq(|itos|, i requires 0 <= i < |itos| => isTerminal(itos[i]))
  }

  /** Ascending ids of the terminal entries. */
  function TerminalIndices(itos: seq<string>, isTerminal: string -> bool): seq<nat>
  {
    IndicesWhere(TerminalFlags(itos, isTerminal))
  }

  /** `[itos[i] for i in idx]`. */
  function MapIndices<T>(s: seq<T>, idx: seq<nat>): (r: seq<T>)
    requires forall k :: 0 <= k < |idx| ==> idx[k] < |s|
    ensures |r| == |idx| && forall k :: 0 <= k < |idx| ==> r[k] == s[idx[k]]
  {
    seq(|idx|, k requires 0 <= k < |idx| => s[idx[k]])
  }

  /** An independent reference: the entries `x` with `p(x) == keep`, in their original order. */
  function Filter<T>(s: seq<T>, p: T -> bool, keep: bool): seq<T>
  {
    if |s| == 0 then []
    else Filter(s[..|s| - 1], p, keep) + (if p(s[|s| - 1]) == keep then [s[|s| - 1]] else [])
  }

  lemma {:induction false} MapIndicesConcat<T>(s: seq<T>, a: seq<nat>, b: seq<nat>)
    requires forall k :: 0 <= k < |a| ==> a[k] < |s|
    requires forall k :: 0 <= k < |b| ==> b[k] < |s|
    ensures forall k :: 0 <= k < |a + b| ==> (a + b)[k] < |s|
    ensures MapIndices(s, a + b) == MapIndices(s, a) + MapIndices(s, b)
  {
  }

  /** Removing one equal element from both sides keeps two multisets equal. */
  lemma MultisetRemoveOne<T>(a: seq<T>, left: seq<T>, right: seq<T>, x: T)
    requires multiset([x] + a) == multiset(left + [x] + right)
    ensures multiset(a) == multiset(left + right)
  {
    assert multiset([x] + a) == multiset{x} + multiset(a);
    assert multiset(left + [x] + right) == multiset(left) + multiset{x} + multiset(right);
    assert multiset(left + right) == multiset(left) + multiset(right);
    forall y ensures multiset(a)[y] == multiset(left + right)[y] {
      assert multiset([x] + a)[y] == multiset(left + [x] + right)[y];
    }
  }

  /** Reading through an index list with one index taken out loses exactly that entry. */
  lemma MapIndicesRemoveAt<T>(s: seq<T>, b: seq<nat>, j: nat, rest: seq<nat>)
    requires forall k :: 0 <= k < |b| ==> b[k] < |s|
    requires j < |b| && rest == b[..j] + b[j + 1..]
    ensures forall k :: 0 <= k < |rest| ==> rest[k] < |s|
    ensures multiset(MapIndices(s, b)) == multiset(MapIndices(s, rest)) + multiset{s[b[j]]}
  {
    var left, right := b[..j], b[j + 1..];
    assert b == left + [b[j]] + right;
    MapIndicesConcat(s, left, right);
    MapIndicesConcat(s, left + [b[j]], right);
    MapIndicesConcat(s, left, [b[j]]);
  }

  /** Reading a sequence through two index lists that are permutations of each other gives permuted results. */
  lemma {:induction false} MapIndicesMultiset<T>(s: seq<T>, a: seq<nat>, b: seq<nat>)
    requires forall k :: 0 <= k < |a| ==> a[k] < |s|
    requires multiset(a) == multiset(b)
    ensures forall k :: 0 <= k < |b| ==> b[k] < |s|
    ensures multiset(MapIndices(s, a)) == multiset(MapIndices(s, b))
    decreases |a|
  {
    forall k | 0 <= k < |b| ensures b[k] < |s| {
      assert b[k] in multiset(b);
      assert b[k] in a;
    }
    if |a| == 0 {
      assert |b| == |multiset(b)| == 0;
    } else {
      var x := a[0];
      assert x in multiset(b);
      var j :| 0 <= j < |b| && b[j] == x;
      assert b == b[..j] + [x] + b[j + 1..];
      assert a == [x] + a[1..];
      MultisetRemoveOne(a[1..], b[..j], b[j + 1..], x);
      MapIndicesMultiset(s, a[1..], b[..j] + b[j + 1..]);
      MapIndicesRemoveAt(s, b, j, b[..j] + b[j + 1..]);
      MapIndicesRemoveAt(s, a, 0, a[1..]);
      assert a[..0] + a[1..] == a[1..];
    }
  }

  /** Reading `s` at the ascending positions where `flags` holds is filtering `s`. */
  lemma {:induction false} MapIndicesWhereIsFilter<T>(s: seq<T>, flags: seq<bool>, p: T -> bool, keep: bool)
    requires |flags| == |s| && forall i :: 0 <= i < |s| ==> flags[i] == (p(s[i]) == keep)
    ensures MapIndices(s, IndicesWhere(flags)) == Filter(s, p, keep)
  {
    if |s| > 0 {
      var n := |s| - 1;
      var front := IndicesWhere(flags[..n]);
      MapIndicesWhereIsFilter(s[..n], flags[..n], p, keep);
      assert MapIndices(s, front) == MapIndices(s[..n], front);
      if flags[n] {
        MapIndicesConcat(s, front, [n]);
      }
    }
  }

  /** The kept and the dropped entries together are all the entries. */
  lemma {:induction false} FilterPartition<T>(s: seq<T>, p: T -> bool)
    ensures multiset(Filter(s, p, true)) + multiset(Filter(s, p, false)) == multiset(s)
  {
    if |s| > 0 {
      var n := |s| - 1;
      var front, x := s[..n], s[n];
      FilterPartition(front, p);
      var kept, dropped := Filter(front, p, true), Filter(front, p, false);
      assert s == front + [x];
      assert multiset(s) == multiset(front) + multiset{x};
      if p(x) {
        assert Filter(s, p, true) == kept + [x] && Filter(s, p, false) == dropped;
        assert multiset(kept + [x]) == multiset(kept) + multiset{x};
      } else {
        assert Filter(s, p, true) == kept && Filter(s, p, false) == dropped + [x];
        assert multiset(dropped + [x]) == multiset(dropped) + multiset{x};
      }
    }
  }

  /** The order of a Python set of terminal ids: any enumeration of the ascending list. */
  predicate IsTerminalEnumeration(itos: seq<string>, isTerminal: string -> bool, termOrder: seq<nat>)
  {
    multiset(termOrder) == multiset(TerminalIndices(itos, isTerminal))
  }

  lemma {:induction false} EnumerationInRange(itos: seq<string>, isTerminal: string -> bool, termOrder: seq<nat>)
    requires IsTerminalEnumeration(itos, isTerminal, termOrder)
    ensures forall k :: 0 <= k < |termOrder| ==> termOrder[k] < |itos| && isTerminal(itos[termOrder[k]])
    ensures |termOrder| == |TerminalIndices(itos, isTerminal)|
  {
    assert |termOrder| == |multiset(termOrder)|;
    forall k | 0 <= k < |termOrder|
      ensures termOrder[k] < |itos| && isTerminal(itos[termOrder[k]])
    {
      assert termOrder[k] in multiset(termOrder);
      assert termOrder[k] in TerminalIndices(itos, isTerminal);
    }
  }

  /** `[vocab.itos[i] for i in terminal_token_indices]`. */
  function TermList(itos: seq<string>, isTerminal: string -> bool, termOrder: seq<nat>): (r: seq<string>)
    requires IsTerminalEnumeration(itos, isTerminal, termOrder)
    ensures |r| == |TerminalIndices(itos, isTerminal)| && forall k :: 0 <= k < |r| ==> isTerminal(r[k])
  {
    EnumerationInRange(itos, isTerminal, termOrder);
    MapIndices(itos, termOrder)
  }

  /** `[vocab.itos[i] for i in range(len(vocab.itos)) if i not in terminal_token_indices]`. */
  function NonTermList(itos: seq<string>, isTerminal: string -> bool): (r: seq<string>)
  {
    MapIndices(itos, IndicesWhere(Negate(TerminalFlags(itos, isTerminal))))
  }

  lemma {:induction false} TermListPermutes(itos: seq<string>, isTerminal: string -> bool, termOrder: seq<nat>)
    requires IsTerminalEnumeration(itos, isTerminal, termOrder)
    ensures multiset(TermList(itos, isTerminal, termOrder)) == multiset(Filter(itos, isTerminal, true))
  {
    EnumerationInRange(itos, isTerminal, termOrder);
    var flags := TerminalFlags(itos, isTerminal);
    MapIndicesMultiset(itos, termOrder, IndicesWhere(flags));
    MapIndicesWhereIsFilter(itos, flags, isTerminal, true);
  }

  lemma {:induction false} NonTermListIsFilter(itos: seq<string>, isTerminal: string -> bool)
    ensures NonTermList(itos, isTerminal) == Filter(itos, isTerminal, false)
    ensures |NonTermList(itos, isTerminal)| + |TerminalIndices(itos, isTerminal)| == |itos|
  {
    var flags := TerminalFlags(itos, isTerminal);
    MapIndicesWhereIsFilter(itos, Negate(flags), isTerminal, false);
    IndicesWhereCount(flags);
  }

  lemma NonTermListNonTerminal(itos: seq<string>, isTerminal: string -> bool)
    ensures forall k :: 0 <= k < |NonTermList(itos, isTerminal)| ==> !isTerminal(NonTermList(itos, isTerminal)[k])
  {
    var idx := IndicesWhere(Negate(TerminalFlags(itos, isTerminal)));
    forall k | 0 <= k < |idx| ensures !isTerminal(itos[idx[k]]) {
      assert Negate(TerminalFlags(itos, isTerminal))[idx[k]];
    }
  }

  /** Facts about a concatenation of a terminal block and a non-terminal block. */
  lemma BlocksConcat(a: seq<string>, b: seq<string>, isTerminal: string -> bool)
    requires forall k :: 0 <= k < |a| ==> isTerminal(a[k])
    requires forall k :: 0 <= k < |b| ==> !isTerminal(b[k])
    ensures multiset(a + b) == multiset(a) + multiset(b)
    ensures (a + b)[|a|..] == b
    ensures forall k :: 0 <= k < |a| ==> isTerminal((a + b)[k])
    ensures forall k :: |a| <= k < |a + b| ==> !isTerminal((a + b)[k])
  {
    assert forall k :: |a| <= k < |a + b| ==> (a + b)[k] == b[k - |a|];
  }

  /** The facts that `CreateTermVocab` promises, about its two blocks. */
  lemma TermVocabBlocks(itos: seq<string>, isTerminal: string -> bool, termOrder: seq<nat>)
    requires IsTerminalEnumeration(itos, isTerminal, termOrder)
    ensures var a, b := TermList(itos, isTerminal, termOrder), NonTermList(itos, isTerminal);
      |a| == |TerminalIndices(itos, isTerminal)| && |a + b| == |itos| &&
      multiset(a + b) == multiset(itos) &&
      (forall k :: 0 <= k < |a| ==> isTerminal((a + b)[k])) &&
      (forall k :: |a| <= k < |a + b| ==> !isTerminal((a + b)[k])) &&
      (a + b)[|a|..] == Filter(itos, isTerminal, false)
  {
    var a, b := TermList(itos, isTerminal, termOrder), NonTermList(itos, isTerminal);
    TermListPermutes(itos, isTerminal, termOrder);
    NonTermListIsFilter(itos, isTerminal);
    NonTermListNonTerminal(itos, isTerminal);
    FilterPartition(itos, isTerminal);
    BlocksConcat(a, b, isTerminal);
  }

  /**
   * `_create_term_vocab`: the terminal entries (in the set's iteration order `termOrder`)
   * followed by the non-terminal entries in their original order, and the number of terminals.
   */
  function CreateTermVocab(itos: seq<string>, isTerminal: string -> bool, termOrder: seq<nat>): (r: (seq<string>, nat))
    requires IsTerminalEnumeration(itos, isTerminal, termOrder)
    ensures r.1 == |TerminalIndices(itos, isTerminal)|
    ensures |r.0| == |itos| && r.1 <= |r.0|
    ensures multiset(r.0) == multiset(itos)
    ensures forall k :: 0 <= k < r.1 ==> isTerminal(r.0[k])
    ensures forall k :: r.1 <= k < |r.0| ==> !isTerminal(r.0[k])
    ensures r.0[r.1..] == Filter(itos, isTerminal, false)
  {
    TermVocabBlocks(itos, isTerminal, termOrder);
    var termList := TermList(itos, isTerminal, termOrder);
    (termList + NonTermList(itos, isTerminal), |termList|)
  }

  /**
   * `violations[i]` holds when entry `i` lies on the side of `firstNonTerm` given by `below`
   * and has the wrong kind there.
   */
  function BoundaryViolations(itos: seq<string>, firstNonTerm: nat, isTerminal: string -> bool, below: bool): (r: seq<bool>)
    ensures |r| == |itos|
    ensures forall i :: 0 <= i < |itos| ==> r[i] == ((i < firstNonTerm) == below && isTerminal(itos[i]) != below)
  {
    seq(|itos|, i requires 0 <= i < |itos| => (i < firstNonTerm) == below && isTerminal(itos[i]) != below)
  }

  /**
   * `_check_is_term_vocab`: every entry below `firstNonTerm` must be terminal and every
   * entry from it on non-terminal; the first offending entry is reported.
   */
  function CheckIsTermVocab(itos: seq<string>, firstNonTerm: nat, isTerminal: string -> bool): (r: Result<(), Error>)
    ensures r.Success? <==> forall i :: 0 <= i < |itos| ==> (isTerminal(itos[i]) <==> i < firstNonTerm)
    ensures r.Failure? ==> r.error.ValueError?
    ensures r.Failure? && r.error.reason.NonTerminalBeforeBoundary? ==>
      exists i :: 0 <= i < |itos| && i < firstNonTerm && itos[i] == r.error.reason.token && !isTerminal(itos[i]) &&
        forall j :: 0 <= j < i ==> isTerminal(itos[j])
    ensures r.Failure? && r.error.reason.TerminalAfterBoundary? ==>
      (forall i :: 0 <= i < |itos| && i < firstNonTerm ==> isTerminal(itos[i])) &&
      exists i :: firstNonTerm <= i < |itos| && itos[i] == r.error.reason.token && isTerminal(itos[i]) &&
        forall j :: firstNonTerm <= j < i ==> !isTerminal(itos[j])
    ensures r.Failure? ==> r.error.reason.NonTerminalBeforeBoundary? || r.error.reason.TerminalAfterBoundary?
  {
    var before := BoundaryViolations(itos, firstNonTerm, isTerminal, true);
    var after := BoundaryViolations(itos, firstNonTerm, isTerminal, false);
    match FindFirst(before)
    case Some(i) => Failure(ValueError(NonTerminalBeforeBoundary(itos[i])))
    case None =>
      match FindFirst(after)
      case Some(i) => Failure(ValueError(TerminalAfterBoundary(itos[i])))
      case None => Success(())
  }

  /** The vocabulary built by `CreateTermVocab` always passes `CheckIsTermVocab`. */
  lemma CreatedVocabPassesCheck(itos: seq<string>, isTerminal: string -> bool, termOrder: seq<nat>)
    requires IsTerminalEnumeration(itos, isTerminal, termOrder)
    ensures var (vocab, firstNonTerm) := CreateTermVocab(itos, isTerminal, termOrder);
      CheckIsTermVocab(vocab, firstNonTerm, isTerminal).Success?
  {
  }

  /** fastai's `stoi`: built from `itos` by a dict comprehension, so a later id overwrites an earlier one; 0 by default. */
  function StringToId(itos: seq<string>, t: string): nat
  {
    if |itos| == 0 then 0
    else if itos[|itos| - 1] == t then |itos| - 1
    else StringToId(itos[..|itos| - 1], t)
  }

  /** The id of a known string is its last position, and an unknown string maps to 0. */
  lemma {:induction false} StringToIdSpec(itos: seq<string>, t: string)
    ensures t in itos ==> StringToId(itos, t) < |itos| && itos[StringToId(itos, t)] == t
    ensures t in itos ==> forall j :: StringToId(itos, t) < j < |itos| ==> itos[j] != t
    ensures t !in itos ==> StringToId(itos, t) == 0
  {
    if |itos| > 0 && itos[|itos| - 1] != t {
      assert t in itos ==> t in itos[..|itos| - 1];
      StringToIdSpec(itos[..|itos| - 1], t);
    }
  }

  /** `vocab.numericalize(tokens)`. */
  function Numericalize(itos: seq<string>, tokens: seq<string>): (r: seq<nat>)
    ensures |r| == |tokens| && forall k :: 0 <= k < |tokens| ==> r[k] == StringToId(itos, tokens[k])
  {
    seq(|tokens|, k requires 0 <= k < |tokens| => StringToId(itos, tokens[k]))
  }

  /** A known token survives the round trip through its id. */
  lemma NumericalizeKnown(itos: seq<string>, tokens: seq<string>)
    requires forall k :: 0 <= k < |tokens| ==> tokens[k] in itos
    ensures forall k :: 0 <= k < |tokens| ==> Numericalize(itos, tokens)[k] < |itos| && itos[Numericalize(itos, tokens)[k]] == tokens[k]
  {
    forall k | 0 <= k < |tokens| ensures StringToId(itos, tokens[k]) < |itos| && itos[StringToId(itos, tokens[k])] == tokens[k] {
      StringToIdSpec(itos, tokens[k]);
    }
  }

  /** Python list indexing: a negative id counts from the end. */
  predicate ValidListIndex(n: nat, i: int)
  {
    -(n as int) <= i < n
  }

  function ListIndex(n: nat, i: int): (r: nat)
    requires ValidListIndex(n, i)
    ensures r < n && (i >= 0 ==> r == i) && (i < 0 ==> r == n + i)
  {
    if i < 0 then n + i else i
  }

  /** `vocab.textify(ids, sep=None)`: `[itos[i] for i in ids]`; an id outside the list raises `IndexError`. */
  function Textify(itos: seq<string>, ids: seq<int>): (r: Result<seq<string>, Error>)
    ensures r.Failure? <==> exists k :: 0 <= k < |ids| && !ValidListIndex(|itos|, ids[k])
    ensures r.Failure? ==> r.error == IndexError
    ensures r.Success? ==> |r.value| == |ids|
    ensures r.Success? ==>
      forall k :: 0 <= k < |ids| ==> ValidListIndex(|itos|, ids[k]) && r.value[k] == itos[ListIndex(|itos|, ids[k])]
    ensures r.Success? && (forall k :: 0 <= k < |ids| ==> ids[k] >= 0) ==> forall k :: 0 <= k < |ids| ==> r.value[k] == itos[ids[k]]
  {
    if forall k :: 0 <= k < |ids| ==> ValidListIndex(|itos|, ids[k]) then
      Success(seq(|ids|, k requires 0 <= k < |ids| => itos[ListIndex(|itos|, ids[k])]))
    else Failure(IndexError)
  }

  /** Numericalizing and then textifying a sequence of known tokens gives it back. */
  lemma TextifyNumericalize(itos: seq<string>, tokens: seq<string>)
    requires forall k :: 0 <= k < |tokens| ==> tokens[k] in itos
    ensures Textify(itos, Numericalize(itos, tokens)) == Success(tokens)
  {
    var ids := Numericalize(itos, tokens);
    NumericalizeKnown(itos, tokens);
    assert forall k :: 0 <= k < |ids| ==> ValidListIndex(|itos|, ids[k]);
    assert Textify(itos, ids).value == tokens;
  }

  /** Numericalizing a slice is slicing the numericalization. */
  lemma NumericalizeSlice(itos: seq<string>, tokens: seq<string>, i: nat, j: nat)
    requires i <= j <= |tokens|
    ensures Numericalize(itos, tokens[i..j]) == Numericalize(itos, tokens)[i..j]
  {
  }

  lemma JoinFacts(subtokens: seq<string>)
    ensures Join(subtokens, "") == Flatten(subtokens)
    ensures |subtokens| >= 1 && (forall k :: 0 <= k < |subtokens| ==> '|' !in subtokens[k])
      ==> Split(Join(subtokens, "|"), '|') == subtokens
  {
    JoinEmptyIsFlatten(subtokens);
    if |subtokens| >= 1 && forall k :: 0 <= k < |subtokens| ==> '|' !in subtokens[k] {
      SplitJoin(subtokens, '|');
    }
  }

  /**
   * `to_full_token_string`: joins the sub-tokens (with `|` in debug mode); the join must be a
   * placeholder value or a terminal token, otherwise `ValueError` is raised.
   */
  function ToFullTokenString(subtokens: seq<string>, includeDebugTokens: bool,
                             isTerminal: string -> bool, placeholderValues: set<string>): (r: Result<string, Error>)
    ensures var joined := Join(subtokens, if includeDebugTokens then "|" else "");
      (r.Success? <==> joined in placeholderValues || isTerminal(joined)) &&
      (r.Success? ==> r.value == joined) &&
      (r.Failure? ==> r.error == ValueError(NotAFullToken(joined)))
    ensures !includeDebugTokens && r.Success? ==> r.value == Flatten(subtokens)
    ensures includeDebugTokens && r.Success? && |subtokens| >= 1 && (forall k :: 0 <= k < |subtokens| ==> '|' !in subtokens[k])
      ==> Split(r.value, '|') == subtokens
  {
    JoinFacts(subtokens);
    var separator := if includeDebugTokens then "|" else "";
    var fullToken := Join(subtokens, separator);
    if fullToken in placeholderValues then Success(fullToken)
    else if !isTerminal(fullToken) then Failure(ValueError(NotAFullToken(fullToken)))
    else Success(fullToken)
  }

  /** Doctest: in debug mode the sub-tokens are joined with `|`. */
  lemma ToFullTokenStringDebugDoctest(isTerminal: string -> bool, placeholderValues: set<string>)
    requires isTerminal("the|re</t>")
    ensures ToFullTokenString(["the", "re</t>"], true, isTerminal, placeholderValues) == Success("the|re</t>")
  {
    var parts := ["the", "re</t>"];
    assert parts[1..] == ["re</t>"];
    assert Join(parts, "|") == "the|re</t>";
  }

  /** Doctest: without debug tokens the sub-tokens are concatenated. */
  lemma ToFullTokenStringPlainDoctest(isTerminal: string -> bool, placeholderValues: set<string>)
    requires isTerminal("revolver</t>")
    ensures ToFullTokenString(["re", "vol", "v", "er</t>"], false, isTerminal, placeholderValues) == Success("revolver</t>")
  {
    var parts := ["re", "vol", "v", "er</t>"];
    assert parts[1..] == ["vol", "v", "er</t>"];
    assert parts[1..][1..] == ["v", "er</t>"];
    assert parts[1..][1..][1..] == ["er</t>"];
    assert Join(parts, "") == "revolver</t>";
  }

  /** Doctest: a placeholder value (`placeholders['olc_end']`, `<EOL>`) is a full token as it stands. */
  lemma ToFullTokenStringPlaceholderDoctest(isTerminal: string -> bool, placeholderValues: set<string>)
    requires "<EOL>" in placeholderValues
    ensures ToFullTokenString(["<EOL>"], false, isTerminal, placeholderValues) == Success("<EOL>")
  {
    assert ["<EOL>"][1..] == [];
    assert Join(["<EOL>"], "") == "<EOL>";
  }
}
