/**
 * The evaluation metrics: word-level averaging of sub-word entropies, the mean reciprocal
 * rank of full-token predictions, and the weighted arithmetic and harmonic means used to
 * aggregate per-file results. Python floats are idealised as `real`; numpy's `inf`/`nan`
 * outcomes are reported as the error `NonFiniteResult`.
 */
module Metrics {
  import opened Util

  /** `sys.maxsize` on a 64-bit interpreter: the rank recorded for a token that was not predicted. */
  const MaxSize: nat := 0x7FFF_FFFF_FFFF_FFFF

  /** `DEFAULT_N_MODEL_SUGGESTIONS`. */
  const DefaultModelSuggestions: nat := 100

  // ------------------------------------------------------------------ words

  /** Word boundaries as positions into the sub-word list: non-decreasing and within it. */
  predicate ValidBoundaries(boundaries: seq<nat>, n: nat)
  {
    (forall k :: 0 <= k < |boundaries| ==> boundaries[k] <= n) &&
    (forall j, k :: 0 <= j <= k < |boundaries| ==> boundaries[j] <= boundaries[k])
  }

  /** The words a boundary list delimits: word `k` runs from boundary `k` up to boundary `k + 1`. */
  function Words<T>(s: seq<T>, boundaries: seq<nat>): (r: seq<seq<T>>)
    requires ValidBoundaries(boundaries, |s|)
    ensures |r| == if |boundaries| == 0 then 0 else |boundaries| - 1
    ensures forall k :: 0 <= k < |r| ==> r[k] == s[boundaries[k]..boundaries[k + 1]]
  {
    if |boundaries| <= 1 then []
    else seq(|boundaries| - 1, k requires 0 <= k < |boundaries| - 1 => s[boundaries[k]..boundaries[k + 1]])
  }

  /** Dropping the last boundary drops the last word. */
  lemma WordsSnoc<T>(s: seq<T>, boundaries: seq<nat>)
    requires ValidBoundaries(boundaries, |s|) && |boundaries| >= 2
    ensures ValidBoundaries(boundaries[..|boundaries| - 1], |s|)
    ensures Words(s, boundaries) == Words(s, boundaries[..|boundaries| - 1])
      + [s[boundaries[|boundaries| - 2]..boundaries[|boundaries| - 1]]]
  {
    var front := boundaries[..|boundaries| - 1];
    assert ValidBoundaries(front, |s|);
    var words, earlier := Words(s, boundaries), Words(s, front);
    forall k | 0 <= k < |earlier| ensures words[k] == earlier[k] {
      assert front[k] == boundaries[k] && front[k + 1] == boundaries[k + 1];
    }
  }

  /** Read together, the words are the stretch from the first boundary to the last. */
  lemma {:induction false} WordsCoverSpan<T>(s: seq<T>, boundaries: seq<nat>)
    requires ValidBoundaries(boundaries, |s|) && |boundaries| >= 1
    ensures Flatten(Words(s, boundaries)) == s[boundaries[0]..boundaries[|boundaries| - 1]]
    decreases |boundaries|
  {
    var n := |boundaries|;
    if n > 1 {
      var front := boundaries[..n - 1];
      WordsSnoc(s, boundaries);
      WordsCoverSpan(s, front);
      var lo, mid, hi := boundaries[0], boundaries[n - 2], boundaries[n - 1];
      var last := s[mid..hi];
      FlattenConcat(Words(s, front), [last]);
      assert Flatten([last]) == last;
      assert s[lo..mid] + last == s[lo..hi];
    }
  }

  /** The summed value of each word (`FullWordIterator` with `agg=sum`). */
  function WordSums(s: seq<real>, boundaries: seq<nat>): (r: seq<real>)
    requires ValidBoundaries(boundaries, |s|)
    ensures |r| == |Words(s, boundaries)|
    ensures forall k :: 0 <= k < |r| ==> r[k] == Sum(Words(s, boundaries)[k])
  {
    var words := Words(s, boundaries);
    seq(|words|, k requires 0 <= k < |words| => Sum(words[k]))
  }

  /** Summing word by word is summing the whole stretch. */
  lemma {:induction false} SumOfWordSums(parts: seq<seq<real>>, sums: seq<real>)
    requires |sums| == |parts| && forall k :: 0 <= k < |parts| ==> sums[k] == Sum(parts[k])
    ensures Sum(sums) == Sum(Flatten(parts))
    decreases |parts|
  {
    if |parts| > 0 {
      SumOfWordSums(parts[1..], sums[1..]);
      SumConcat(parts[0], Flatten(parts[1..]));
    }
  }

  /** `word_average`: the mean over words of their summed sub-word values; 0.0 when there is no word. */
  function WordAverage(subwordEntropies: seq<real>, wordBoundaries: seq<nat>): real
    requires ValidBoundaries(wordBoundaries, |subwordEntropies|)
  {
    var wordEntropies := WordSums(subwordEntropies, wordBoundaries);
    if |wordEntropies| == 0 then 0.0 else Sum(wordEntropies) / (|wordEntropies| as real)
  }

  /**
   * With no word the average is 0.0; otherwise the average times the number of words is
   * the total of the sub-word values between the first and the last boundary.
   */
  lemma WordAverageSpec(subwordEntropies: seq<real>, wordBoundaries: seq<nat>)
    requires ValidBoundaries(wordBoundaries, |subwordEntropies|)
    ensures |wordBoundaries| <= 1 ==> WordAverage(subwordEntropies, wordBoundaries) == 0.0
    ensures |wordBoundaries| > 1 ==>
      WordAverage(subwordEntropies, wordBoundaries)
        == Sum(subwordEntropies[wordBoundaries[0]..wordBoundaries[|wordBoundaries| - 1]]) / ((|wordBoundaries| - 1) as real)
  {
    if |wordBoundaries| > 1 {
      var words := Words(subwordEntropies, wordBoundaries);
      SumOfWordSums(words, WordSums(subwordEntropies, wordBoundaries));
      WordsCoverSpan(subwordEntropies, wordBoundaries);
    }
  }

  /** Doctest: no sub-word values and the single boundary 0 give 0.0. */
  lemma WordAverageEmptyDoctest()
    ensures WordAverage([], [0]) == 0.0
  {
  }

  /** Doctest: `[1.0, 2.0, 3.0]` split at `[0, 1, 3]` is the words 1 and 2 + 3, whose mean is 3.0. */
  lemma WordAverageDoctest()
    ensures WordAverage([1.0, 2.0, 3.0], [0, 1, 3]) == 3.0
  {
    var s := [1.0, 2.0, 3.0];
    var words := Words(s, [0, 1, 3]);
    assert words[0] == [1.0] && words[1] == [2.0, 3.0];
    assert [2.0, 3.0][1..] == [3.0] && [3.0][1..] == [] && [1.0][1..] == [];
    assert Sum([2.0, 3.0]) == 5.0 && Sum([1.0]) == 1.0;
    assert WordSums(s, [0, 1, 3]) == [1.0, 5.0];
  }

  /**
   * The sub-token entropies `get_entropies_for_prep_text` gives a prepared line in the model's
   * current state (that method is not part of this model; `Model.ChunksRun` is the chunked one).
   */
  type LineEntropies = seq<string> -> seq<real>

  /**
   * `bin_entropy`: the model's entropies for the line, and their word average: 0.0 without a
   * word, otherwise the total entropy between the first and the last boundary over the number of words.
   */
  function BinEntropy(model: LineEntropies, prepLine: seq<string>, wordBoundaries: seq<nat>): (r: (seq<real>, real))
    requires ValidBoundaries(wordBoundaries, |model(prepLine)|)
    ensures r.0 == model(prepLine)
    ensures |wordBoundaries| <= 1 ==> r.1 == 0.0
    ensures |wordBoundaries| > 1 ==>
      r.1 == Sum(r.0[wordBoundaries[0]..wordBoundaries[|wordBoundaries| - 1]]) / ((|wordBoundaries| - 1) as real)
  {
    var entropies := model(prepLine);
    WordAverageSpec(entropies, wordBoundaries);
    (entropies, WordAverage(entropies, wordBoundaries))
  }

  // ---------------------------------------------------- mean reciprocal rank

  /** The `DefaultModelSuggestions` predicted token strings, best first, after the given full tokens have been fed. */
  type Predictor = seq<string> -> seq<string>

  /** `predicted_tokens.index(actual_token) + 1`, or `maxsize` when the token was not predicted. */
  function RankOf(predicted: seq<string>, actual: string): (r: nat)
    ensures actual !in predicted ==> r == MaxSize
    ensures actual in predicted ==> 1 <= r <= |predicted| && predicted[r - 1] == actual && actual !in predicted[..r - 1]
  {
    match IndexOf(predicted, actual)
    case Some(i) => IndexOfIsFirst(predicted, actual); i + 1
    case None => MaxSize
  }

  /** What a prediction adds to the inverse-rank sum: `1 / rank`, or nothing when the token was not predicted. */
  function InverseRank(predicted: seq<string>, actual: string): (r: real)
    ensures actual in predicted ==> r > 0.0 && r == 1.0 / (RankOf(predicted, actual) as real)
    ensures actual !in predicted ==> r == 0.0
  {
    if actual in predicted then 1.0 / (RankOf(predicted, actual) as real) else 0.0
  }

  /** The rank of each full token, predicted from the full tokens before it. */
  function Ranks(predict: Predictor, actuals: seq<string>): (r: seq<int>)
    ensures |r| == |actuals| && forall k :: 0 <= k < |actuals| ==> r[k] == RankOf(predict(actuals[..k]), actuals[k])
  {
    seq(|actuals|, k requires 0 <= k < |actuals| => RankOf(predict(actuals[..k]), actuals[k]))
  }

  /** The inverse-rank term of each full token. */
  function InverseRanks(predict: Predictor, actuals: seq<string>): (r: seq<real>)
    ensures |r| == |actuals| && forall k :: 0 <= k < |actuals| ==> r[k] == InverseRank(predict(actuals[..k]), actuals[k])
  {
    seq(|actuals|, k requires 0 <= k < |actuals| => InverseRank(predict(actuals[..k]), actuals[k]))
  }

  /** The value `full_token_mrr` returns: `count / inverse_rank_sum`, or 0.0 when the sum is zero. */
  function MrrValue(predict: Predictor, actuals: seq<string>): real
  {
    var inverseRankSum := Sum(InverseRanks(predict, actuals));
    if inverseRankSum != 0.0 then (|actuals| as real) / inverseRankSum else 0.0
  }

  /** The full tokens of a line: each word of sub-tokens turned into its string. */
  function ActualTokens(prepLine: seq<string>, wordBoundaries: seq<nat>, toFullToken: seq<string> -> string): (r: seq<string>)
    requires ValidBoundaries(wordBoundaries, |prepLine|)
    ensures |r| == |Words(prepLine, wordBoundaries)|
    ensures forall k :: 0 <= k < |r| ==> r[k] == toFullToken(Words(prepLine, wordBoundaries)[k])
  {
    var words := Words(prepLine, wordBoundaries);
    seq(|words|, k requires 0 <= k < |words| => toFullToken(words[k]))
  }

  /**
   * `full_token_mrr`: for each full token, the predictions are asked for first and the token is
   * fed afterwards (`predict` sees exactly the tokens fed so far); returns one rank per token
   * and the aggregated value. `to_full_token_string` of the evaluation helpers is `toFullToken`.
   */
  method FullTokenMrr(prepLine: seq<string>, wordBoundaries: seq<nat>, predict: Predictor, toFullToken: seq<string> -> string)
    returns (results: seq<int>, value: real)
    requires ValidBoundaries(wordBoundaries, |prepLine|)
    ensures var actuals := ActualTokens(prepLine, wordBoundaries, toFullToken);
      results == Ranks(predict, actuals) && value == MrrValue(predict, actuals)
  {
    ghost var actuals := ActualTokens(prepLine, wordBoundaries, toFullToken);
    var words := Words(prepLine, wordBoundaries);
    var inverseRankSum := 0.0;
    var count: nat := 0;
    results := [];
    var fed: seq<string> := [];
    var i := 0;
    while i < |words|
      invariant 0 <= i <= |words| && count == i && fed == actuals[..i]
      invariant results == Ranks(predict, actuals)[..i]
      invariant inverseRankSum == Sum(InverseRanks(predict, actuals)[..i])
    {
      MrrStep(predict, actuals, i);
      var predictedTokens := predict(fed);
      var actualToken := toFullToken(words[i]);
      match IndexOf(predictedTokens, actualToken) {
        case Some(index) =>
          var rank := index + 1;
          inverseRankSum := inverseRankSum + 1.0 / (rank as real);
          results := results + [rank];
        case None =>
          results := results + [MaxSize];
          inverseRankSum := inverseRankSum + 0.0;
      }
      count := count + 1;
      fed := fed + [actualToken];
      i := i + 1;
    }
    assert actuals[..i] == actuals && Ranks(predict, actuals)[..i] == Ranks(predict, actuals);
    assert InverseRanks(predict, actuals)[..i] == InverseRanks(predict, actuals);
    value := if inverseRankSum != 0.0 then (count as real) / inverseRankSum else 0.0;
  }

  /** One more full token extends the ranks, the inverse-rank sum and the history by its own entry. */
  lemma MrrStep(predict: Predictor, actuals: seq<string>, i: nat)
    requires i < |actuals|
    ensures Ranks(predict, actuals)[..i + 1] == Ranks(predict, actuals)[..i] + [RankOf(predict(actuals[..i]), actuals[i])]
    ensures Sum(InverseRanks(predict, actuals)[..i + 1])
      == Sum(InverseRanks(predict, actuals)[..i]) + InverseRank(predict(actuals[..i]), actuals[i])
    ensures actuals[..i + 1] == actuals[..i] + [actuals[i]]
  {
    var terms := InverseRanks(predict, actuals);
    assert terms[..i + 1] == terms[..i] + [terms[i]];
    SumConcat(terms[..i], [terms[i]]);
  }

  /** A sum of non-negative terms is zero only when every term is. */
  lemma {:induction false} SumNonNegative(s: seq<real>)
    requires forall k :: 0 <= k < |s| ==> s[k] >= 0.0
    ensures Sum(s) >= 0.0
    ensures Sum(s) == 0.0 <==> forall k :: 0 <= k < |s| ==> s[k] == 0.0
    decreases |s|
  {
    if |s| > 0 {
      SumNonNegative(s[1..]);
      if forall k :: 0 <= k < |s| ==> s[k] == 0.0 {
        assert forall k :: 0 <= k < |s[1..]| ==> s[1..][k] == s[k + 1];
      }
      if Sum(s) == 0.0 {
        forall k | 0 <= k < |s| ensures s[k] == 0.0 {
          if k > 0 {
            assert s[k] == s[1..][k - 1];
          }
        }
      }
    }
  }

  /** The MRR value is 0.0 exactly when no full token was among its predictions, and positive otherwise. */
  lemma MrrZeroIffNothingFound(predict: Predictor, actuals: seq<string>)
    ensures MrrValue(predict, actuals) == 0.0 <==> forall k :: 0 <= k < |actuals| ==> actuals[k] !in predict(actuals[..k])
    ensures MrrValue(predict, actuals) >= 0.0
  {
    var terms := InverseRanks(predict, actuals);
    SumNonNegative(terms);
    var total := Sum(terms);
    if k :| 0 <= k < |actuals| && actuals[k] in predict(actuals[..k]) {
      assert terms[k] > 0.0;
      QuotientPositive(|actuals| as real, total);
    }
  }

  // ------------------------------------------------------------- averaging

  /** The quotient of two positive reals is positive. */
  lemma QuotientPositive(a: real, b: real)
    requires a > 0.0 && b > 0.0
    ensures a / b > 0.0
  {
    var q := a / b;
    assert q * b == a;
  }

  /** One over `a / b` is `b / a`. */
  lemma InverseOfQuotient(a: real, b: real)
    requires a != 0.0 && b != 0.0
    ensures a / b != 0.0 && 1.0 / (a / b) == b / a
  {
    var q := a / b;
    assert q * b == a;
    assert q != 0.0;
    var p := b / a;
    assert p * a == b;
    assert p * q == 1.0 by {
      calc {
        p * q * (a * b);
        (p * a) * (q * b);
        b * a;
      }
    }
  }

  /** A common non-zero factor cancels out of a quotient. */
  lemma CancelFactor(c: real, a: real, b: real, cb: real)
    requires c != 0.0 && b != 0.0 && cb == c * b
    ensures cb != 0.0 && (c * a) / cb == a / b
  {
    var q := a / b;
    assert q * b == a;
    assert q * (c * b) == c * a;
  }

  /** `[1.0] * n`. */
  function Ones(n: nat): (r: seq<real>)
    ensures |r| == n && forall k :: 0 <= k < n ==> r[k] == 1.0
  {
    seq(n, k => 1.0)
  }

  /** The sum of the pointwise products of two sequences of the same length. */
  function WeightedSum(values: seq<real>, weights: seq<real>): real
    requires |values| == |weights|
    decreases |values|
  {
    if |values| == 0 then 0.0 else values[0] * weights[0] + WeightedSum(values[1..], weights[1..])
  }

  /** With unit weights the weighted sum is the plain sum, and the weights sum to their number. */
  lemma {:induction false} WeightedSumOnes(values: seq<real>)
    ensures WeightedSum(values, Ones(|values|)) == Sum(values)
    ensures Sum(Ones(|values|)) == |values| as real
    decreases |values|
  {
    if |values| > 0 {
      assert Ones(|values|)[1..] == Ones(|values| - 1);
      WeightedSumOnes(values[1..]);
    }
  }

  /** With a constant weight the weighted sum is that weight times the plain sum. */
  lemma {:induction false} WeightedSumConstant(values: seq<real>, weights: seq<real>, c: real)
    requires |values| == |weights| && forall k :: 0 <= k < |weights| ==> weights[k] == c
    ensures WeightedSum(values, weights) == c * Sum(values)
    ensures Sum(weights) == c * (|weights| as real)
    decreases |values|
  {
    if |values| > 0 {
      WeightedSumConstant(values[1..], weights[1..], c);
    }
  }

  /**
   * `np.average(values, weights=weights)`: `TypeError` when the shapes differ, `ZeroDivisionError`
   * when the weights sum to zero, otherwise the weighted sum over the sum of the weights.
   */
  function WeightedMean(values: seq<real>, weights: seq<real>): (r: Result<real, Error>)
    ensures r.Failure? <==> |values| != |weights| || Sum(weights) == 0.0
    ensures r.Failure? ==> r.error == if |values| != |weights| then TypeError else ZeroDivisionError
  {
    if |values| != |weights| then Failure(TypeError)
    else if Sum(weights) == 0.0 then Failure(ZeroDivisionError)
    else Success(WeightedSum(values, weights) / Sum(weights))
  }

  /** The weighted mean of two values: the running merge of two (value, count) pairs. */
  lemma WeightedMeanOfTwo(v1: real, n1: real, v2: real, n2: real)
    requires n1 + n2 != 0.0
    ensures WeightedMean([v1, v2], [n1, n2]) == Success((v1 * n1 + v2 * n2) / (n1 + n2))
  {
    assert [v1, v2][1..] == [v2] && [n1, n2][1..] == [n2] && [v2][1..] == [] && [n2][1..] == [];
    assert Sum([n2]) == n2;
    assert WeightedSum([v2], [n2]) == [v2][0] * [n2][0] + WeightedSum([v2][1..], [n2][1..]);
    assert WeightedSum([v2], [n2]) == v2 * n2;
    assert Sum([n1, n2]) == n1 + n2;
    assert WeightedSum([v1, v2], [n1, n2]) == v1 * n1 + v2 * n2;
  }

  /** `map(lambda x: 1 / x, values)`: `ZeroDivisionError` when a value is zero. */
  function Reciprocals(values: seq<real>): (r: Result<seq<real>, Error>)
    ensures r.Failure? <==> 0.0 in values
    ensures r.Failure? ==> r.error == ZeroDivisionError
    ensures r.Success? ==> |r.value| == |values| && forall k :: 0 <= k < |values| ==> r.value[k] == 1.0 / values[k]
  {
    if 0.0 in values then Failure(ZeroDivisionError)
    else Success(seq(|values|, k requires 0 <= k < |values| => 1.0 / values[k]))
  }

  /** The reciprocals of a concatenation are the concatenated reciprocals. */
  lemma ReciprocalsConcat(a: seq<real>, b: seq<real>)
    requires 0.0 !in a && 0.0 !in b
    ensures 0.0 !in a + b
    ensures Reciprocals(a + b).value == Reciprocals(a).value + Reciprocals(b).value
  {
    var ra, rb, rab := Reciprocals(a).value, Reciprocals(b).value, Reciprocals(a + b).value;
    forall k | 0 <= k < |a + b| ensures rab[k] == (ra + rb)[k] {
      if k < |a| {
        assert (a + b)[k] == a[k];
      } else {
        assert (a + b)[k] == b[k - |a|];
      }
    }
  }

  /**
   * `average_ranks`: one over the weighted mean of the reciprocals, with unit weights when none
   * (or an empty list) are given; a zero mean gives `inf` in numpy, reported as `NonFiniteResult`.
   */
  function AverageRanks(values: seq<real>, weights: Option<seq<real>>): Result<real, Error>
  {
    var w := if weights.None? || |weights.value| == 0 then Ones(|values|) else weights.value;
    var inverses :- Reciprocals(values);
    var mean :- WeightedMean(inverses, w);
    if mean == 0.0 then Failure(NonFiniteResult) else Success(1.0 / mean)
  }

  /** The reciprocals of positive values are positive, and so is their sum. */
  lemma ReciprocalSumPositive(values: seq<real>)
    requires |values| > 0 && forall k :: 0 <= k < |values| ==> values[k] > 0.0
    ensures 0.0 !in values && Sum(Reciprocals(values).value) > 0.0
  {
    var inv := Reciprocals(values).value;
    forall k | 0 <= k < |inv| ensures inv[k] > 0.0 {
      QuotientPositive(1.0, values[k]);
    }
    SumNonNegative(inv);
  }

  /** Without weights, `average_ranks` of positive ranks is their harmonic mean: the count over the sum of reciprocals. */
  lemma AverageRanksOfPositive(values: seq<real>)
    requires |values| > 0 && forall k :: 0 <= k < |values| ==> values[k] > 0.0
    ensures 0.0 !in values && Sum(Reciprocals(values).value) > 0.0
    ensures AverageRanks(values, None) == Success((|values| as real) / Sum(Reciprocals(values).value))
  {
    ReciprocalSumPositive(values);
    var inv := Reciprocals(values).value;
    WeightedSumOnes(inv);
    InverseOfQuotient(Sum(inv), |values| as real);
  }

  /** The arithmetic behind merging two harmonic means `na / ha` and `nb / hb`. */
  lemma HarmonicMerge(ha: real, hb: real, na: real, nb: real)
    requires ha > 0.0 && hb > 0.0 && na > 0.0 && nb > 0.0
    ensures na / ha > 0.0 && nb / hb > 0.0
    ensures 1.0 / (na / ha) == ha / na && 1.0 / (nb / hb) == hb / nb
    ensures ((ha / na) * na + (hb / nb) * nb) / (na + nb) == (ha + hb) / (na + nb)
    ensures (ha + hb) / (na + nb) != 0.0 && 1.0 / ((ha + hb) / (na + nb)) == (na + nb) / (ha + hb)
  {
    QuotientPositive(na, ha);
    QuotientPositive(nb, hb);
    InverseOfQuotient(na, ha);
    InverseOfQuotient(nb, hb);
    assert (ha / na) * na == ha && (hb / nb) * nb == hb;
    QuotientPositive(ha + hb, na + nb);
    InverseOfQuotient(ha + hb, na + nb);
  }

  /**
   * Grouped harmonic averaging is consistent: averaging the averages of two groups of positive
   * ranks, weighted by the group sizes, gives the average of all ranks.
   */
  lemma AverageRanksGrouping(a: seq<real>, b: seq<real>)
    requires |a| > 0 && forall k :: 0 <= k < |a| ==> a[k] > 0.0
    requires |b| > 0 && forall k :: 0 <= k < |b| ==> b[k] > 0.0
    ensures AverageRanks(a, None).Success? && AverageRanks(b, None).Success?
    ensures AverageRanks([AverageRanks(a, None).value, AverageRanks(b, None).value], Some([|a| as real, |b| as real]))
         == AverageRanks(a + b, None)
  {
    AverageRanksOfPositive(a);
    AverageRanksOfPositive(b);
    forall k | 0 <= k < |a + b| ensures (a + b)[k] > 0.0 {
      if k < |a| { assert (a + b)[k] == a[k]; } else { assert (a + b)[k] == b[k - |a|]; }
    }
    AverageRanksOfPositive(a + b);
    ReciprocalsConcat(a, b);
    SumConcat(Reciprocals(a).value, Reciprocals(b).value);
    var ha, hb := Sum(Reciprocals(a).value), Sum(Reciprocals(b).value);
    var na, nb := |a| as real, |b| as real;
    assert Sum(Reciprocals(a + b).value) == ha + hb && |a + b| as real == na + nb;
    AverageRanksOfTwoMeans(ha, hb, na, nb);
  }

  /** `average_ranks` of two harmonic means `na / ha` and `nb / hb`, weighted by their counts. */
  lemma AverageRanksOfTwoMeans(ha: real, hb: real, na: real, nb: real)
    requires ha > 0.0 && hb > 0.0 && na > 0.0 && nb > 0.0
    ensures AverageRanks([na / ha, nb / hb], Some([na, nb])) == Success((na + nb) / (ha + hb))
  {
    HarmonicMerge(ha, hb, na, nb);
    var ga, gb := na / ha, nb / hb;
    var p, q := ha / na, hb / nb;
    assert 0.0 !in [ga, gb];
    var r := Reciprocals([ga, gb]).value;
    assert r[0] == p && r[1] == q;
    assert r == [p, q];
    WeightedMeanOfTwo(p, na, q, nb);
    assert p * na + q * nb == ha + hb;
    var mean := (ha + hb) / (na + nb);
    assert WeightedMean([p, q], [na, nb]) == Success(mean);
  }

  /** Doctest: `average_ranks([1, 5])` is 5/3. */
  lemma AverageRanksDoctest()
    ensures AverageRanks([1.0, 5.0], None) == Success(5.0 / 3.0)
  {
    AverageRanksOfPositive([1.0, 5.0]);
    assert Reciprocals([1.0, 5.0]).value == [1.0, 1.0 / 5.0];
    assert [1.0, 1.0 / 5.0][1..] == [1.0 / 5.0] && [1.0 / 5.0][1..] == [];
  }

  /** Doctest: `average_ranks([1, 5, 9])` is 135/59. */
  lemma AverageRanksThreeDoctest()
    ensures AverageRanks([1.0, 5.0, 9.0], None) == Success(135.0 / 59.0)
  {
    AverageRanksOfPositive([1.0, 5.0, 9.0]);
    var inv := [1.0, 1.0 / 5.0, 1.0 / 9.0];
    assert Reciprocals([1.0, 5.0, 9.0]).value == inv;
    assert inv[1..] == [1.0 / 5.0, 1.0 / 9.0] && inv[2..] == [1.0 / 9.0] && inv[3..] == [];
    assert inv[1..][1..] == inv[2..] && inv[2..][1..] == inv[3..];
  }

  /** Doctest: `average_ranks([5/3, 9], weights=[2, 1])` equals `average_ranks([1, 5, 9])`. */
  lemma AverageRanksGroupingDoctest()
    ensures AverageRanks([5.0 / 3.0, 9.0], Some([2.0, 1.0])) == AverageRanks([1.0, 5.0, 9.0], None)
  {
    AverageRanksDoctest();
    AverageRanksOfPositive([9.0]);
    assert Reciprocals([9.0]).value == [1.0 / 9.0];
    AverageRanksGrouping([1.0, 5.0], [9.0]);
    assert [1.0, 5.0] + [9.0] == [1.0, 5.0, 9.0];
  }

  /**
   * `average_entropy`: `np.average` with the given weights, or the plain mean without them;
   * the mean of no values is `nan` in numpy, reported as `NonFiniteResult`.
   */
  function AverageEntropy(values: seq<real>, weights: Option<seq<real>>): Result<real, Error>
  {
    if weights.Some? then WeightedMean(values, weights.value)
    else if |values| == 0 then Failure(NonFiniteResult)
    else Success(Sum(values) / (|values| as real))
  }

  /** Without weights, `average_entropy` is the weighted mean with unit weights. */
  lemma AverageEntropyUnweighted(values: seq<real>)
    requires |values| > 0
    ensures AverageEntropy(values, None) == WeightedMean(values, Ones(|values|))
  {
    WeightedSumOnes(values);
  }

  /** Equal non-zero weights do not change the arithmetic mean. */
  lemma AverageEntropyEqualWeights(values: seq<real>, weights: seq<real>, c: real)
    requires |values| == |weights| > 0 && c != 0.0 && forall k :: 0 <= k < |weights| ==> weights[k] == c
    ensures AverageEntropy(values, Some(weights)) == AverageEntropy(values, None)
  {
    WeightedSumConstant(values, weights, c);
    var total, n := Sum(values), |values| as real;
    CancelFactor(c, total, n, Sum(weights));
    assert WeightedSum(values, weights) / Sum(weights) == total / n;
  }

  // ----------------------------------------------------------- aggregation

  /** The two aggregation functions of `agg_funcs`. */
  datatype Aggregation = ByAverageEntropy | ByAverageRanks

  /** `agg_funcs`: the aggregation of each metric's per-file values. */
  function AggFunc(metricName: string): (r: Option<Aggregation>)
    ensures r.Some? <==> metricName == "subtoken_bin_entropy" || metricName == "bin_entropy" || metricName == "full_token_mrr"
    ensures r == Some(ByAverageRanks) <==> metricName == "full_token_mrr"
  {
    if metricName == "subtoken_bin_entropy" || metricName == "bin_entropy" then Some(ByAverageEntropy)
    else if metricName == "full_token_mrr" then Some(ByAverageRanks)
    else None
  }

  /** Applying an aggregation. */
  function Aggregate(aggregation: Aggregation, values: seq<real>, weights: Option<seq<real>>): Result<real, Error>
  {
    match aggregation
    case ByAverageEntropy => AverageEntropy(values, weights)
    case ByAverageRanks => AverageRanks(values, weights)
  }

  /**
   * When every full token of a line is found among its predictions, the line's MRR value is
   * `average_ranks` of its ranks: the aggregation `agg_funcs` assigns to the metric.
   */
  lemma MrrIsAverageRanks(predict: Predictor, actuals: seq<string>)
    requires |actuals| > 0 && forall k :: 0 <= k < |actuals| ==> actuals[k] in predict(actuals[..k])
    ensures var ranks := Ranks(predict, actuals);
      Aggregate(AggFunc("full_token_mrr").value, seq(|ranks|, k requires 0 <= k < |ranks| => ranks[k] as real), None)
        == Success(MrrValue(predict, actuals))
  {
    var ranks := Ranks(predict, actuals);
    var rs := seq(|ranks|, k requires 0 <= k < |ranks| => ranks[k] as real);
    forall k | 0 <= k < |rs| ensures rs[k] > 0.0 && Reciprocals(rs).value[k] == InverseRanks(predict, actuals)[k] {
    }
    AverageRanksOfPositive(rs);
    assert Reciprocals(rs).value == InverseRanks(predict, actuals);
  }
}
