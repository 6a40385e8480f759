/**
 * `TrainedModel`: the inference bookkeeping around a language model.
 *
 * The neural network is abstracted to the ids it has been fed since its last
 * reset (`fed`); the entropy of a target after a history, the beam search and
 * the score-to-probability conversion are oracles passed in as functions.
 * The model's state is that history, the last predicted token id (the cursor,
 * `_last_predicted_token_tensor`) and the context log of added sub-token sequences.
 */
module Model {
  import opened Util
  import opened ContextWindow
  import opened Vocabulary

  /** Sub-tokens per forward pass in `_get_entropies_for_prep_text`. */
  const MaxSubtokensPerChunk: nat := 200
  const BeamSize: nat := 500
  /** Padding value in beam-search results (`TORCH_LONG_MIN_VAL`, the least signed 64-bit integer). */
  const TorchLongMinVal: int := -0x8000_0000_0000_0000

  /** The binary entropy of `target` given everything the network has been fed (`history`). */
  type EntropyOracle = (seq<nat>, nat) -> real

  datatype ModelState = ModelState(fed: seq<nat>, cursor: nat, context: seq<seq<string>>)

  /** `_reset`: the network and the context log start afresh; the cursor is kept. */
  function Cleared(st: ModelState): ModelState
  {
    ModelState([], st.cursor, [])
  }

  // ---------------------------------------------------------------- feeding

  /**
   * `_feed_prep_tokens`: the tokens join the context log, all but the last are
   * forwarded through the network, and the last becomes the cursor.
   */
  function FeedTokens(st: ModelState, itos: seq<string>, tokens: seq<string>): (r: ModelState)
    requires |tokens| > 0
    ensures r.fed + [r.cursor] == st.fed + Numericalize(itos, tokens)
    ensures r.context == st.context + [tokens]
  {
    var ids := Numericalize(itos, tokens);
    assert ids == ids[..|ids| - 1] + [ids[|ids| - 1]];
    ModelState(st.fed + ids[..|ids| - 1], ids[|ids| - 1], st.context + [tokens])
  }

  /** Feeding several sequences in turn (left to right). */
  function FeedAll(st: ModelState, itos: seq<string>, seqs: seq<seq<string>>): ModelState
    requires forall k :: 0 <= k < |seqs| ==> |seqs[k]| > 0
  {
    if |seqs| == 0 then st
    else FeedTokens(FeedAll(st, itos, seqs[..|seqs| - 1]), itos, seqs[|seqs| - 1])
  }

  /** Feeding the first sequence and then the rest is feeding all of them. */
  lemma {:induction false} FeedAllCons(st: ModelState, itos: seq<string>, seqs: seq<seq<string>>)
    requires |seqs| > 0 && forall k :: 0 <= k < |seqs| ==> |seqs[k]| > 0
    ensures FeedAll(FeedTokens(st, itos, seqs[0]), itos, seqs[1..]) == FeedAll(st, itos, seqs)
    decreases |seqs|
  {
    if |seqs| > 1 {
      var front := seqs[..|seqs| - 1];
      FeedAllCons(st, itos, front);
      assert front[1..] == seqs[1..][..|seqs[1..]| - 1];
      assert front[0] == seqs[0];
    }
  }

  /**
   * Feeding never forwards the cursor it starts from: after feeding `a` and then `b`
   * the network has seen `a` without its last id, then `b` without its last id.
   */
  lemma ConsecutiveFeeds(st: ModelState, itos: seq<string>, a: seq<string>, b: seq<string>)
    requires |a| > 0 && |b| > 0
    ensures var ia, ib := Numericalize(itos, a), Numericalize(itos, b);
      FeedTokens(FeedTokens(st, itos, a), itos, b).fed == st.fed + ia[..|ia| - 1] + ib[..|ib| - 1]
  {
    var ia, ib := Numericalize(itos, a), Numericalize(itos, b);
    var s1 := FeedTokens(st, itos, a);
    assert s1.fed == st.fed + ia[..|ia| - 1] by {
      assert s1.fed + [s1.cursor] == st.fed + ia[..|ia| - 1] + [ia[|ia| - 1]];
    }
    var s2 := FeedTokens(s1, itos, b);
    assert s2.fed + [s2.cursor] == s1.fed + ib[..|ib| - 1] + [ib[|ib| - 1]];
  }

  // ------------------------------------------------------- entropy of chunks

  /**
   * One forward pass over `inp` from history `fed`, scored against `targets`:
   * the `j`-th loss is that of `targets[j]` after the network has seen `inp[..j + 1]`.
   */
  function ForwardLosses(entropy: EntropyOracle, fed: seq<nat>, inp: seq<nat>, targets: seq<nat>): (r: seq<real>)
    requires |inp| == |targets|
    ensures |r| == |targets|
  {
    seq(|targets|, j requires 0 <= j < |targets| => entropy(fed + inp[..j + 1], targets[j]))
  }

  lemma ForwardLossesAt(entropy: EntropyOracle, fed: seq<nat>, inp: seq<nat>, targets: seq<nat>)
    requires |inp| == |targets|
    ensures forall j :: 0 <= j < |targets| ==> ForwardLosses(entropy, fed, inp, targets)[j] == entropy(fed + inp[..j + 1], targets[j])
  {
  }

  /** Two consecutive forward passes score like one pass over both inputs. */
  lemma ForwardLossesConcat(entropy: EntropyOracle, fed: seq<nat>, inp1: seq<nat>, t1: seq<nat>, inp2: seq<nat>, t2: seq<nat>)
    requires |inp1| == |t1| && |inp2| == |t2|
    ensures ForwardLosses(entropy, fed, inp1, t1) + ForwardLosses(entropy, fed + inp1, inp2, t2)
         == ForwardLosses(entropy, fed, inp1 + inp2, t1 + t2)
  {
    var l := ForwardLosses(entropy, fed, inp1, t1) + ForwardLosses(entropy, fed + inp1, inp2, t2);
    var r := ForwardLosses(entropy, fed, inp1 + inp2, t1 + t2);
    ForwardLossesAt(entropy, fed, inp1, t1);
    ForwardLossesAt(entropy, fed + inp1, inp2, t2);
    ForwardLossesAt(entropy, fed, inp1 + inp2, t1 + t2);
    forall j | 0 <= j < |r| ensures l[j] == r[j] {
      if j < |t1| {
        assert (inp1 + inp2)[..j + 1] == inp1[..j + 1];
      } else {
        var i := j - |t1|;
        assert (inp1 + inp2)[..j + 1] == inp1 + inp2[..i + 1];
        assert fed + inp1 + inp2[..i + 1] == fed + (inp1 + inp2[..i + 1]);
        assert l[j] == entropy(fed + inp1 + inp2[..i + 1], t2[i]);
        assert (t1 + t2)[j] == t2[i];
      }
    }
  }

  /** What a run over one chunk's ids leaves behind: its losses, the history and the cursor. */
  datatype Forward = Forward(losses: seq<real>, fed: seq<nat>, cursor: nat)

  /**
   * The inner loop of `_get_entropies_for_prep_text` over one chunk's ids: pieces of at most
   * `MaxSubtokensPerChunk` ids, each forwarded as the cursor followed by all but its last id.
   */
  function SlicedRun(entropy: EntropyOracle, fed: seq<nat>, cursor: nat, ids: seq<nat>): (r: Forward)
    ensures |r.losses| == |ids|
    ensures |ids| == 0 ==> r == Forward([], fed, cursor)
    ensures |ids| > 0 ==> r.cursor == ids[|ids| - 1]
    decreases |ids|
  {
    if |ids| == 0 then Forward([], fed, cursor)
    else
      var n := Min(MaxSubtokensPerChunk, |ids|);
      var piece := ids[..n];
      var inp := [cursor] + piece[..n - 1];
      var rest := SlicedRun(entropy, fed + inp, piece[n - 1], ids[n..]);
      Forward(ForwardLosses(entropy, fed, inp, piece) + rest.losses, rest.fed, rest.cursor)
  }

  /**
   * Cutting a chunk into pieces is invisible: the losses, the history and the cursor are
   * those of a single forward pass of the cursor followed by all ids but the last.
   */
  lemma {:induction false} SlicingIsTransparent(entropy: EntropyOracle, fed: seq<nat>, cursor: nat, ids: seq<nat>)
    requires |ids| > 0
    ensures var inp := [cursor] + ids[..|ids| - 1];
      SlicedRun(entropy, fed, cursor, ids) == Forward(ForwardLosses(entropy, fed, inp, ids), fed + inp, ids[|ids| - 1])
    decreases |ids|
  {
    var n := Min(MaxSubtokensPerChunk, |ids|);
    var piece := ids[..n];
    var inp1 := [cursor] + piece[..n - 1];
    if n < |ids| {
      var tail := ids[n..];
      SlicingIsTransparent(entropy, fed + inp1, piece[n - 1], tail);
      var inp2 := [piece[n - 1]] + tail[..|tail| - 1];
      ForwardLossesConcat(entropy, fed, inp1, piece, inp2, tail);
      assert piece + tail == ids;
      assert piece[..n - 1] + [piece[n - 1]] == piece;
      assert piece + tail[..|tail| - 1] == ids[..|ids| - 1];
      assert inp1 + inp2 == [cursor] + (piece[..n - 1] + [piece[n - 1]] + tail[..|tail| - 1]);
      assert fed + inp1 + inp2 == fed + (inp1 + inp2);
    } else {
      assert piece == ids;
    }
  }

  /** Losses and state after `_get_entropies_for_prep_text`. */
  datatype Run = Run(losses: seq<real>, state: ModelState)

  /**
   * The outer loop of `_get_entropies_for_prep_text`: each chunk is run, added to the context
   * log, and followed by `_reset` unless it is the last chunk and no reset after it was asked for.
   */
  function ChunksRun(entropy: EntropyOracle, itos: seq<string>, st: ModelState,
                     chunks: seq<seq<string>>, resetAfterLastChunk: bool): (r: Run)
    decreases |chunks|
  {
    if |chunks| == 0 then Run([], st)
    else
      var f := SlicedRun(entropy, st.fed, st.cursor, Numericalize(itos, chunks[0]));
      var after := ModelState(f.fed, f.cursor, st.context + [chunks[0]]);
      var next := if |chunks| > 1 || resetAfterLastChunk then Cleared(after) else after;
      var rest := ChunksRun(entropy, itos, next, chunks[1..], resetAfterLastChunk);
      Run(f.losses + rest.losses, rest.state)
  }

  /** One loss per sub-token, over all chunks. */
  lemma {:induction false} ChunksRunLossCount(entropy: EntropyOracle, itos: seq<string>, st: ModelState,
                                              chunks: seq<seq<string>>, resetAfterLastChunk: bool)
    ensures |ChunksRun(entropy, itos, st, chunks, resetAfterLastChunk).losses| == |Flatten(chunks)|
    decreases |chunks|
  {
    if |chunks| > 0 {
      var f := SlicedRun(entropy, st.fed, st.cursor, Numericalize(itos, chunks[0]));
      var after := ModelState(f.fed, f.cursor, st.context + [chunks[0]]);
      var next := if |chunks| > 1 || resetAfterLastChunk then Cleared(after) else after;
      ChunksRunLossCount(entropy, itos, next, chunks[1..], resetAfterLastChunk);
    }
  }

  /**
   * The state a run leaves: with a reset after the last chunk, an empty history and log;
   * otherwise the log holds the last chunk (after the earlier log when it is the only chunk)
   * and the cursor is the last id of the last chunk when that chunk is not empty.
   */
  lemma {:induction false} ChunksRunFinalState(entropy: EntropyOracle, itos: seq<string>, st: ModelState,
                                               chunks: seq<seq<string>>, resetAfterLastChunk: bool)
    requires |chunks| > 0
    ensures var s := ChunksRun(entropy, itos, st, chunks, resetAfterLastChunk).state;
      var last := chunks[|chunks| - 1];
      (resetAfterLastChunk ==> s.fed == [] && s.context == []) &&
      (!resetAfterLastChunk ==> s.context == (if |chunks| == 1 then st.context else []) + [last]) &&
      (|last| > 0 ==> s.cursor == StringToId(itos, last[|last| - 1]))
    decreases |chunks|
  {
    var f := SlicedRun(entropy, st.fed, st.cursor, Numericalize(itos, chunks[0]));
    var after := ModelState(f.fed, f.cursor, st.context + [chunks[0]]);
    var next := if |chunks| > 1 || resetAfterLastChunk then Cleared(after) else after;
    if |chunks| > 1 {
      ChunksRunFinalState(entropy, itos, next, chunks[1..], resetAfterLastChunk);
      assert chunks[1..][|chunks[1..]| - 1] == chunks[|chunks| - 1];
    } else {
      assert chunks[1..] == [];
    }
  }

  /**
   * A single chunk with no reset after it scores exactly like one forward pass of the
   * cursor followed by the chunk's ids but the last.
   */
  lemma SingleChunkIsOneForward(entropy: EntropyOracle, itos: seq<string>, st: ModelState, chunk: seq<string>)
    requires |chunk| > 0
    ensures var ids := Numericalize(itos, chunk);
      var inp := [st.cursor] + ids[..|ids| - 1];
      ChunksRun(entropy, itos, st, [chunk], false) ==
        Run(ForwardLosses(entropy, st.fed, inp, ids), ModelState(st.fed + inp, ids[|ids| - 1], st.context + [chunk]))
  {
    var ids := Numericalize(itos, chunk);
    SlicingIsTransparent(entropy, st.fed, st.cursor, ids);
    assert [chunk][1..] == [];
  }

  /** Every chunk after the first starts from a cleared network and an empty log. */
  lemma LaterChunksStartCleared(entropy: EntropyOracle, itos: seq<string>, st: ModelState,
                                chunks: seq<seq<string>>, resetAfterLastChunk: bool)
    requires |chunks| > 1
    ensures var f := SlicedRun(entropy, st.fed, st.cursor, Numericalize(itos, chunks[0]));
      var r := ChunksRun(entropy, itos, st, chunks, resetAfterLastChunk);
      r.losses == f.losses + ChunksRun(entropy, itos, ModelState([], f.cursor, []), chunks[1..], resetAfterLastChunk).losses
  {
  }

  // ------------------------------------------------------ context-usage plan

  /** `length_end`: the last chunk's length, plus the current context size when it is the only chunk. */
  function PlanEnd(current: nat, chunkLengths: seq<nat>): nat
    requires |chunkLengths| > 0
  {
    if |chunkLengths| > 1 then chunkLengths[|chunkLengths| - 1]
    else chunkLengths[|chunkLengths| - 1] + current
  }

  /**
   * The checks and the context-usage plan of `get_entropies_for_text`, given the current
   * context size and the lengths of the chunks `chunk_prepped_tokens` produced.
   */
  function EntropiesPlan(current: nat, maxContextAllowed: int, chunkLengths: seq<nat>): (r: Result<Plan, Error>)
    ensures current > maxContextAllowed ==> r == Failure(ValueError(ContextTooLong(current, maxContextAllowed)))
    ensures current <= maxContextAllowed && |chunkLengths| == 0 ==> r == Failure(IndexError)
    ensures current <= maxContextAllowed && |chunkLengths| > 0 ==>
      (r.Success? <==> current < maxContextAllowed && PlanEnd(current, chunkLengths) <= maxContextAllowed) &&
      (r.Failure? ==> r.error == AssertionError)
    ensures r.Success? ==> |chunkLengths| > 0
    ensures r.Success? ==> r.value == ContextUsage(current, maxContextAllowed, |chunkLengths| - 1, PlanEnd(current, chunkLengths))
  {
    if current > maxContextAllowed then Failure(ValueError(ContextTooLong(current, maxContextAllowed)))
    else if |chunkLengths| == 0 then Failure(IndexError)
    else MakeContextUsage(current, maxContextAllowed, |chunkLengths| - 1, PlanEnd(current, chunkLengths))
  }

  /** The guard lets a context of exactly the maximum size through, and the plan's assertion then fails. */
  lemma ContextAtMaximumFails(maxContextAllowed: nat, chunkLengths: seq<nat>)
    requires |chunkLengths| > 0
    ensures EntropiesPlan(maxContextAllowed, maxContextAllowed, chunkLengths) == Failure(AssertionError)
  {
  }

  /**
   * A reset after the last chunk is asked for exactly when the last window is filled:
   * by the last chunk alone, or by the current context and the only chunk.
   */
  lemma ResetAfterLastIffWindowFull(current: nat, maxContextAllowed: int, chunkLengths: seq<nat>)
    requires EntropiesPlan(current, maxContextAllowed, chunkLengths).Success?
    ensures var plan := EntropiesPlan(current, maxContextAllowed, chunkLengths).value;
      var n := |chunkLengths|;
      plan.IsLastChunkComplete() <==>
        if n > 1 then chunkLengths[n - 1] == maxContextAllowed else current + chunkLengths[0] == maxContextAllowed
  {
  }

  function SumNat(s: seq<nat>): nat
  {
    if |s| == 0 then 0 else s[0] + SumNat(s[1..])
  }

  lemma {:induction false} SumNatConstant(s: seq<nat>, v: nat)
    requires forall k :: 0 <= k < |s| ==> s[k] == v
    ensures SumNat(s) == |s| * v
  {
    if |s| > 0 {
      SumNatConstant(s[1..], v);
    }
  }

  lemma {:induction false} SumNatSnoc(s: seq<nat>, x: nat)
    ensures SumNat(s + [x]) == SumNat(s) + x
  {
    if |s| > 0 {
      assert (s + [x])[1..] == s[1..] + [x];
      SumNatSnoc(s[1..], x);
    }
  }

  /**
   * When the chunks fill their windows (the first up to the maximum from the current size,
   * the middle ones entirely), the plan yields one context length per token of the text.
   */
  lemma PlanCountsEveryToken(current: nat, maxContextAllowed: int, chunkLengths: seq<nat>)
    requires EntropiesPlan(current, maxContextAllowed, chunkLengths).Success?
    requires |chunkLengths| > 1 ==> chunkLengths[0] == maxContextAllowed - current
    requires forall k :: 0 < k < |chunkLengths| - 1 ==> chunkLengths[k] == maxContextAllowed
    ensures var plan := EntropiesPlan(current, maxContextAllowed, chunkLengths).value;
      plan.NPredictions() == SumNat(chunkLengths) && |Iterate(plan)| == SumNat(chunkLengths)
  {
    var plan := EntropiesPlan(current, maxContextAllowed, chunkLengths).value;
    IterateLength(plan);
    if |chunkLengths| == 1 {
      assert chunkLengths[1..] == [];
    } else {
      FullWindowsSum(chunkLengths, plan.resetAt);
    }
  }

  /** Chunk lengths whose middle ones are all `m` add up to the first, the middle ones and the last. */
  lemma FullWindowsSum(chunkLengths: seq<nat>, m: nat)
    requires |chunkLengths| > 1
    requires forall k :: 0 < k < |chunkLengths| - 1 ==> chunkLengths[k] == m
    ensures SumNat(chunkLengths) == chunkLengths[0] + m * (|chunkLengths| - 2) + chunkLengths[|chunkLengths| - 1]
  {
    var n := |chunkLengths|;
    var middle := chunkLengths[1..n - 1];
    SumNatConstant(middle, m);
    SumNatSnoc(middle, chunkLengths[n - 1]);
    assert chunkLengths[1..] == middle + [chunkLengths[n - 1]];
  }

  // ------------------------------------------------------- next-token prediction

  /**
   * `complete_token_predicate`: the rows whose last id is a terminal sub-token (below
   * `firstNontermToken`) are ready, the others pending; `[:, -1]` of an empty row raises `IndexError`.
   */
  function CompleteTokenPredicate(lastPredictions: seq<seq<int>>, firstNontermToken: nat): (r: Result<(seq<nat>, seq<nat>), Error>)
    ensures r.Failure? <==> exists i :: 0 <= i < |lastPredictions| && |lastPredictions[i]| == 0
    ensures r.Failure? ==> r.error == IndexError
    ensures r.Success? ==> var (ready, pending) := r.value;
      (forall k :: 0 <= k < |ready| ==>
        (ready[k] < |lastPredictions| && var row := lastPredictions[ready[k]]; row[|row| - 1] < firstNontermToken)) &&
      (forall k :: 0 <= k < |pending| ==>
        (pending[k] < |lastPredictions| && var row := lastPredictions[pending[k]]; row[|row| - 1] >= firstNontermToken)) &&
      (forall j, k :: 0 <= j < k < |ready| ==> ready[j] < ready[k]) &&
      (forall j, k :: 0 <= j < k < |pending| ==> pending[j] < pending[k]) &&
      (forall i :: 0 <= i < |lastPredictions| ==> (i in ready) != (i in pending)) &&
      |ready| + |pending| == |lastPredictions|
  {
    if exists i :: 0 <= i < |lastPredictions| && |lastPredictions[i]| == 0 then Failure(IndexError)
    else
      var flags := TerminalEnds(lastPredictions, firstNontermToken);
      var ready, pending := IndicesWhere(flags), IndicesWhere(Negate(flags));
      IndicesWhereCount(flags);
      assert forall i :: 0 <= i < |lastPredictions| && i in ready ==> flags[i];
      assert forall i :: 0 <= i < |lastPredictions| && i in pending ==> !flags[i];
      Success((ready, pending))
  }

  /** `last_predictions[:, -1] < first_nonterm_token`, row by row. */
  function TerminalEnds(rows: seq<seq<int>>, firstNontermToken: nat): (r: seq<bool>)
    requires forall i :: 0 <= i < |rows| ==> |rows[i]| > 0
    ensures |r| == |rows| && forall i :: 0 <= i < |rows| ==> r[i] == (rows[i][|rows[i]| - 1] < firstNontermToken)
  {
    seq(|rows|, i requires 0 <= i < |rows| => rows[i][|rows[i]| - 1] < firstNontermToken)
  }

  /** The ids before the first padding value, or all of them when there is none. */
  function TruncateAtSentinel(ids: seq<int>): (r: seq<int>)
    ensures r <= ids && TorchLongMinVal !in r
    ensures TorchLongMinVal in ids ==> |r| < |ids| && ids[|r|] == TorchLongMinVal
    ensures TorchLongMinVal !in ids ==> r == ids
  {
    match IndexOf(ids, TorchLongMinVal)
    case None => ids
    case Some(i) => IndexOfIsFirst(ids, TorchLongMinVal); ids[..i]
  }

  /** One beam-search result: the predicted ids (padded) and the score. */
  datatype BeamResult = BeamResult(ids: seq<int>, score: real)

  /** What the beam search is started from. */
  datatype BeamQuery = BeamQuery(fed: seq<nat>, cursor: nat, firstNontermToken: nat, nSuggestions: nat, beamSize: nat)

  /** The oracles `predict_next_full_token` relies on. */
  datatype Decoder = Decoder(
    beamSearch: BeamQuery -> seq<BeamResult>,
    isTerminal: string -> bool,
    placeholderValues: set<string>,
    toProbability: real -> real)

  datatype Prediction = Prediction(fullToken: string, probability: real)

  /** The suggestion made from one beam result. */
  function SuggestionFor(itos: seq<string>, b: BeamResult, includeDebugTokens: bool, d: Decoder): (r: Result<Prediction, Error>)
    ensures var subtokens := Textify(itos, TruncateAtSentinel(b.ids));
      (r.Success? <==>
        (subtokens.Success? && ToFullTokenString(subtokens.value, includeDebugTokens, d.isTerminal, d.placeholderValues).Success?)) &&
      (r.Success? ==>
        (r.value == Prediction(ToFullTokenString(subtokens.value, includeDebugTokens, d.isTerminal, d.placeholderValues).value,
                               d.toProbability(b.score))))
  {
    var subtokens :- Textify(itos, TruncateAtSentinel(b.ids));
    var fullToken :- ToFullTokenString(subtokens, includeDebugTokens, d.isTerminal, d.placeholderValues);
    Success(Prediction(fullToken, d.toProbability(b.score)))
  }

  /** The suggestion, or the error, of every beam result, in beam order. */
  function SuggestionResults(itos: seq<string>, results: seq<BeamResult>, includeDebugTokens: bool, d: Decoder): (r: seq<Result<Prediction, Error>>)
    ensures |r| == |results| && forall k :: 0 <= k < |results| ==> r[k] == SuggestionFor(itos, results[k], includeDebugTokens, d)
  {
    seq(|results|, k requires 0 <= k < |results| => SuggestionFor(itos, results[k], includeDebugTokens, d))
  }

  /**
   * The suggestion list: one suggestion per beam result, in beam order; the first result
   * that cannot be turned into a full token decides the error.
   */
  function Suggestions(itos: seq<string>, results: seq<BeamResult>, includeDebugTokens: bool, d: Decoder): Result<seq<Prediction>, Error>
  {
    Collect(SuggestionResults(itos, results, includeDebugTokens, d))
  }

  /** Result `k` is the first whose suggestion fails, and it fails with `e`. */
  predicate FirstFailingSuggestion(itos: seq<string>, results: seq<BeamResult>, includeDebugTokens: bool, d: Decoder, k: nat, e: Error)
    requires k < |results|
  {
    SuggestionFor(itos, results[k], includeDebugTokens, d) == Failure(e) &&
    forall j :: 0 <= j < k ==> SuggestionFor(itos, results[j], includeDebugTokens, d).Success?
  }

  /**
   * The suggestion list succeeds exactly when every beam result gives a suggestion, and
   * then holds those suggestions in beam order.
   */
  lemma SuggestionsSucceed(itos: seq<string>, results: seq<BeamResult>, includeDebugTokens: bool, d: Decoder)
    ensures var r := Suggestions(itos, results, includeDebugTokens, d);
      (r.Success? <==> forall k :: 0 <= k < |results| ==> SuggestionFor(itos, results[k], includeDebugTokens, d).Success?) &&
      (r.Success? ==> (|r.value| == |results| &&
        forall k :: 0 <= k < |results| ==> r.value[k] == SuggestionFor(itos, results[k], includeDebugTokens, d).value))
  {
    CollectSucceeds(SuggestionResults(itos, results, includeDebugTokens, d));
  }

  /** A failing suggestion list fails with the error of the first beam result that gives no suggestion. */
  lemma SuggestionsFailAtFirst(itos: seq<string>, results: seq<BeamResult>, includeDebugTokens: bool, d: Decoder)
    ensures var r := Suggestions(itos, results, includeDebugTokens, d);
      r.Failure? ==> exists k :: 0 <= k < |results| && FirstFailingSuggestion(itos, results, includeDebugTokens, d, k, r.error)
  {
    var rs := SuggestionResults(itos, results, includeDebugTokens, d);
    CollectFailsAtFirst(rs);
    if Collect(rs).Failure? {
      var k :| 0 <= k < |rs| && rs[k] == Failure(Collect(rs).error) && forall j :: 0 <= j < k ==> rs[j].Success?;
      assert FirstFailingSuggestion(itos, results, includeDebugTokens, d, k, Collect(rs).error);
    }
  }

  /** The beam query made in a given state. */
  function QueryIn(st: ModelState, firstNontermToken: nat, nSuggestions: nat): BeamQuery
  {
    BeamQuery(st.fed, st.cursor, firstNontermToken, nSuggestions, BeamSize)
  }

  /** One yielded element of `get_predictions_and_feed` (the token type is not modelled). */
  datatype Step = Step(predictions: seq<Prediction>, fullToken: string)

  /**
   * A run of `get_predictions_and_feed`: the steps the generator has yielded, the error that
   * ended it early (none when every full token was yielded), and the state it leaves.
   */
  datatype Session = Session(steps: seq<Step>, error: Option<Error>, state: ModelState)

  /** Steps yielded before the rest of a run. */
  function Prepend(steps: seq<Step>, s: Session): Session
  {
    Session(steps + s.steps, s.error, s.state)
  }

  /**
   * `get_predictions_and_feed` on a loaded model: for each full token, the suggestions
   * (`predict_next_full_token(n_suggestions)`, without debug tokens) are computed first and
   * the token's sub-tokens fed afterwards. An error stops the run after the steps already
   * yielded; the run yields every full token exactly when no error stops it.
   */
  function PredictAndFeed(itos: seq<string>, firstNontermToken: nat, st: ModelState, fullTokens: seq<seq<string>>,
                          nSuggestions: nat, d: Decoder): (r: Session)
    requires forall k :: 0 <= k < |fullTokens| ==> |fullTokens[k]| > 0
    ensures |r.steps| <= |fullTokens|
    ensures r.error.None? <==> |r.steps| == |fullTokens|
    decreases |fullTokens|
  {
    if |fullTokens| == 0 then Session([], None, st)
    else
      match Suggestions(itos, d.beamSearch(QueryIn(st, firstNontermToken, nSuggestions)), false, d)
      case Failure(e) => Session([], Some(e), st)
      case Success(p) =>
        Prepend([Step(p, Flatten(fullTokens[0]))],
                PredictAndFeed(itos, firstNontermToken, FeedTokens(st, itos, fullTokens[0]), fullTokens[1..], nSuggestions, d))
  }

  /** Feeding the first of `k` sequences, then the other `k - 1`. */
  lemma FeedAllShift(st: ModelState, itos: seq<string>, seqs: seq<seq<string>>, k: nat)
    requires 0 < k <= |seqs| && forall i :: 0 <= i < |seqs| ==> |seqs[i]| > 0
    ensures FeedAll(st, itos, seqs[..k]) == FeedAll(FeedTokens(st, itos, seqs[0]), itos, seqs[1..][..k - 1])
  {
    FeedAllCons(st, itos, seqs[..k]);
    assert seqs[..k][1..] == seqs[1..][..k - 1];
  }

  /**
   * A run of `get_predictions_and_feed`, complete or stopped by an error, leaves the state
   * reached by feeding exactly the full tokens it has yielded.
   */
  lemma {:induction false} PredictAndFeedFinalState(itos: seq<string>, firstNontermToken: nat, st: ModelState,
                                                    fullTokens: seq<seq<string>>, nSuggestions: nat, d: Decoder)
    requires forall k :: 0 <= k < |fullTokens| ==> |fullTokens[k]| > 0
    ensures var r := PredictAndFeed(itos, firstNontermToken, st, fullTokens, nSuggestions, d);
      r.state == FeedAll(st, itos, fullTokens[..|r.steps|])
    decreases |fullTokens|
  {
    var r := PredictAndFeed(itos, firstNontermToken, st, fullTokens, nSuggestions, d);
    if |r.steps| == 0 {
      assert fullTokens[..0] == [];
    } else {
      var st1 := FeedTokens(st, itos, fullTokens[0]);
      PredictAndFeedFinalState(itos, firstNontermToken, st1, fullTokens[1..], nSuggestions, d);
      FeedAllShift(st, itos, fullTokens, |r.steps|);
    }
  }

  /** The suggestions `get_predictions_and_feed` asks for before feeding the `k`-th full token. */
  function SuggestionsBefore(itos: seq<string>, firstNontermToken: nat, st: ModelState, fullTokens: seq<seq<string>>, k: nat,
                             nSuggestions: nat, d: Decoder): Result<seq<Prediction>, Error>
    requires k < |fullTokens| && forall i :: 0 <= i < |fullTokens| ==> |fullTokens[i]| > 0
  {
    var before := FeedAll(st, itos, fullTokens[..k]);
    Suggestions(itos, d.beamSearch(QueryIn(before, firstNontermToken, nSuggestions)), false, d)
  }

  lemma SuggestionsBeforeShift(itos: seq<string>, firstNontermToken: nat, st: ModelState, fullTokens: seq<seq<string>>, k: nat,
                               nSuggestions: nat, d: Decoder)
    requires 0 < k < |fullTokens| && forall i :: 0 <= i < |fullTokens| ==> |fullTokens[i]| > 0
    ensures SuggestionsBefore(itos, firstNontermToken, st, fullTokens, k, nSuggestions, d) ==
            SuggestionsBefore(itos, firstNontermToken, FeedTokens(st, itos, fullTokens[0]), fullTokens[1..], k - 1, nSuggestions, d)
  {
    FeedAllShift(st, itos, fullTokens, k);
  }

  /**
   * Predictions come before feeding: the `k`-th yielded suggestions are those computed in the
   * state reached by feeding exactly the first `k` full tokens, and the `k`-th yielded text is
   * the `k`-th token.
   */
  lemma {:induction false} PredictionsPrecedeFeeding(itos: seq<string>, firstNontermToken: nat, st: ModelState,
                                                     fullTokens: seq<seq<string>>, nSuggestions: nat, d: Decoder)
    requires forall k :: 0 <= k < |fullTokens| ==> |fullTokens[k]| > 0
    ensures var r := PredictAndFeed(itos, firstNontermToken, st, fullTokens, nSuggestions, d);
      forall k :: 0 <= k < |r.steps| ==>
        Success(r.steps[k].predictions) == SuggestionsBefore(itos, firstNontermToken, st, fullTokens, k, nSuggestions, d) &&
        r.steps[k].fullToken == Flatten(fullTokens[k])
    decreases |fullTokens|
  {
    var r := PredictAndFeed(itos, firstNontermToken, st, fullTokens, nSuggestions, d);
    if |r.steps| > 0 {
      var st1 := FeedTokens(st, itos, fullTokens[0]);
      var tail := fullTokens[1..];
      var rest := PredictAndFeed(itos, firstNontermToken, st1, tail, nSuggestions, d);
      PredictionsPrecedeFeeding(itos, firstNontermToken, st1, tail, nSuggestions, d);
      assert fullTokens[..0] == [];
      forall k | 0 < k < |r.steps|
        ensures Success(r.steps[k].predictions) ==
          SuggestionsBefore(itos, firstNontermToken, st, fullTokens, k, nSuggestions, d)
        ensures r.steps[k].fullToken == Flatten(fullTokens[k])
      {
        SuggestionsBeforeShift(itos, firstNontermToken, st, fullTokens, k, nSuggestions, d);
        assert r.steps[k] == rest.steps[k - 1];
        assert fullTokens[k] == tail[k - 1];
      }
    }
  }

  /**
   * A run stops with the error of the first full token whose suggestions fail: the one
   * right after the tokens it has yielded.
   */
  lemma {:induction false} PredictAndFeedError(itos: seq<string>, firstNontermToken: nat, st: ModelState,
                                               fullTokens: seq<seq<string>>, nSuggestions: nat, d: Decoder)
    requires forall k :: 0 <= k < |fullTokens| ==> |fullTokens[k]| > 0
    ensures var r := PredictAndFeed(itos, firstNontermToken, st, fullTokens, nSuggestions, d);
      r.error.Some? ==>
        SuggestionsBefore(itos, firstNontermToken, st, fullTokens, |r.steps|, nSuggestions, d) == Failure(r.error.value)
    decreases |fullTokens|
  {
    var r := PredictAndFeed(itos, firstNontermToken, st, fullTokens, nSuggestions, d);
    if r.error.Some? {
      if |r.steps| == 0 {
        assert fullTokens[..0] == [];
      } else {
        var st1 := FeedTokens(st, itos, fullTokens[0]);
        PredictAndFeedError(itos, firstNontermToken, st1, fullTokens[1..], nSuggestions, d);
        SuggestionsBeforeShift(itos, firstNontermToken, st, fullTokens, |r.steps|, nSuggestions, d);
      }
    }
  }

  // ------------------------------------------------------------------ the model

  /** The first step of `SlicedRun`. */
  lemma SlicedRunStep(entropy: EntropyOracle, fed: seq<nat>, cursor: nat, ids: seq<nat>, n: nat)
    requires |ids| > 0 && n == Min(MaxSubtokensPerChunk, |ids|)
    ensures var piece := ids[..n];
      var inp := [cursor] + piece[..n - 1];
      var rest := SlicedRun(entropy, fed + inp, piece[n - 1], ids[n..]);
      SlicedRun(entropy, fed, cursor, ids) == Forward(ForwardLosses(entropy, fed, inp, piece) + rest.losses, rest.fed, rest.cursor)
  {
  }

  /** A partial run: the losses `done` already scored, followed by the run `f`. */
  function Continue(done: seq<real>, f: Forward): Forward
  {
    Forward(done + f.losses, f.fed, f.cursor)
  }

  /** The piece of `SlicedRun` that starts at position `i` of the chunk's ids, after the losses `done`. */
  lemma SlicedRunPiece(entropy: EntropyOracle, fed: seq<nat>, cursor: nat, ids: seq<nat>, i: nat, hi: nat, piece: seq<nat>,
                       done: seq<real>)
    requires i < |ids| && hi == Min(i + MaxSubtokensPerChunk, |ids|) && piece == ids[i..hi]
    ensures var inp := [cursor] + piece[..|piece| - 1];
      Continue(done, SlicedRun(entropy, fed, cursor, ids[i..])) ==
      Continue(done + ForwardLosses(entropy, fed, inp, piece), SlicedRun(entropy, fed + inp, piece[|piece| - 1], ids[hi..]))
  {
    SlicedRunStep(entropy, fed, cursor, ids[i..], hi - i);
    assert ids[i..][..hi - i] == piece && ids[i..][hi - i..] == ids[hi..];
    var inp := [cursor] + piece[..|piece| - 1];
    var rest := SlicedRun(entropy, fed + inp, piece[|piece| - 1], ids[hi..]);
    assert done + (ForwardLosses(entropy, fed, inp, piece) + rest.losses) == (done + ForwardLosses(entropy, fed, inp, piece)) + rest.losses;
  }

  /** The first step of `ChunksRun`. */
  lemma ChunksRunStep(entropy: EntropyOracle, itos: seq<string>, st: ModelState,
                      chunks: seq<seq<string>>, resetAfterLastChunk: bool)
    requires |chunks| > 0
    ensures var f := SlicedRun(entropy, st.fed, st.cursor, Numericalize(itos, chunks[0]));
      var after := ModelState(f.fed, f.cursor, st.context + [chunks[0]]);
      var next := if |chunks| > 1 || resetAfterLastChunk then Cleared(after) else after;
      var rest := ChunksRun(entropy, itos, next, chunks[1..], resetAfterLastChunk);
      ChunksRun(entropy, itos, st, chunks, resetAfterLastChunk) == Run(f.losses + rest.losses, rest.state)
  {
  }

  /** Keeping the loop invariant of `GetEntropiesForPrepText` across one chunk. */
  lemma ChunksRunAdvance(entropy: EntropyOracle, itos: seq<string>, st: ModelState, chunks: seq<seq<string>>, ind: nat,
                         resetAfterLastChunk: bool, done: seq<real>, target: Run)
    requires ind < |chunks|
    requires var rest := ChunksRun(entropy, itos, st, chunks[ind..], resetAfterLastChunk);
      done + rest.losses == target.losses && rest.state == target.state
    ensures var f := SlicedRun(entropy, st.fed, st.cursor, Numericalize(itos, chunks[ind]));
      var after := ModelState(f.fed, f.cursor, st.context + [chunks[ind]]);
      var next := if ind < |chunks| - 1 || resetAfterLastChunk then Cleared(after) else after;
      var rest := ChunksRun(entropy, itos, next, chunks[ind + 1..], resetAfterLastChunk);
      (done + f.losses) + rest.losses == target.losses && rest.state == target.state
  {
    ChunksRunStep(entropy, itos, st, chunks[ind..], resetAfterLastChunk);
    assert chunks[ind..][0] == chunks[ind] && chunks[ind..][1..] == chunks[ind + 1..];
    var f := SlicedRun(entropy, st.fed, st.cursor, Numericalize(itos, chunks[ind]));
    var after := ModelState(f.fed, f.cursor, st.context + [chunks[ind]]);
    var next := if ind < |chunks| - 1 || resetAfterLastChunk then Cleared(after) else after;
    var rest := ChunksRun(entropy, itos, next, chunks[ind + 1..], resetAfterLastChunk);
    assert (done + f.losses) + rest.losses == done + (f.losses + rest.losses);
  }

  /** The first step of `PredictAndFeed`, when its suggestions succeed and when they fail. */
  lemma PredictAndFeedStep(itos: seq<string>, firstNontermToken: nat, st: ModelState, fullTokens: seq<seq<string>>,
                           nSuggestions: nat, d: Decoder)
    requires |fullTokens| > 0 && forall k :: 0 <= k < |fullTokens| ==> |fullTokens[k]| > 0
    ensures var p := Suggestions(itos, d.beamSearch(QueryIn(st, firstNontermToken, nSuggestions)), false, d);
      var r := PredictAndFeed(itos, firstNontermToken, st, fullTokens, nSuggestions, d);
      (p.Failure? ==> r == Session([], Some(p.error), st)) &&
      (p.Success? ==> r == Prepend([Step(p.value, Flatten(fullTokens[0]))],
        PredictAndFeed(itos, firstNontermToken, FeedTokens(st, itos, fullTokens[0]), fullTokens[1..], nSuggestions, d)))
  {
  }

  /** Keeping the loop invariant of `GetPredictionsAndFeed` across one fed token. */
  lemma PredictAndFeedAdvance(itos: seq<string>, firstNontermToken: nat, st: ModelState, fullTokens: seq<seq<string>>, i: nat,
                              nSuggestions: nat, d: Decoder, steps: seq<Step>, target: Session)
    requires i < |fullTokens| && forall k :: 0 <= k < |fullTokens| ==> |fullTokens[k]| > 0
    requires target == Prepend(steps, PredictAndFeed(itos, firstNontermToken, st, fullTokens[i..], nSuggestions, d))
    ensures var p := Suggestions(itos, d.beamSearch(QueryIn(st, firstNontermToken, nSuggestions)), false, d);
      (p.Failure? ==> target == Session(steps, Some(p.error), st)) &&
      (p.Success? ==> target == Prepend(steps + [Step(p.value, Flatten(fullTokens[i]))],
        PredictAndFeed(itos, firstNontermToken, FeedTokens(st, itos, fullTokens[i]), fullTokens[i + 1..], nSuggestions, d)))
  {
    var p := Suggestions(itos, d.beamSearch(QueryIn(st, firstNontermToken, nSuggestions)), false, d);
    PredictAndFeedStep(itos, firstNontermToken, st, fullTokens[i..], nSuggestions, d);
    assert fullTokens[i..][0] == fullTokens[i] && fullTokens[i..][1..] == fullTokens[i + 1..];
    if p.Success? {
      PrependPrepend(steps, [Step(p.value, Flatten(fullTokens[i]))],
        PredictAndFeed(itos, firstNontermToken, FeedTokens(st, itos, fullTokens[i]), fullTokens[i + 1..], nSuggestions, d));
    } else {
      assert steps + [] == steps;
    }
  }

  lemma PrependNothing(s: Session)
    ensures Prepend([], s) == s
  {
    assert [] + s.steps == s.steps;
  }

  /** What the loop of `GetPredictionsAndFeed` returns once every full token is fed. */
  lemma PrependAll(steps: seq<Step>, st: ModelState)
    ensures Prepend(steps, Session([], None, st)) == Session(steps, None, st)
  {
    assert steps + [] == steps;
  }

  lemma PrependPrepend(a: seq<Step>, b: seq<Step>, s: Session)
    ensures Prepend(a, Prepend(b, s)) == Prepend(a + b, s)
  {
    assert a + (b + s.steps) == a + b + s.steps;
  }

  /** The result of `get_entropies_for_text` (token types are not modelled). */
  datatype TextEntropies = TextEntropies(entropies: seq<real>, tokens: seq<string>, contextLengths: seq<nat>)

  function ChunkLengths(chunks: seq<seq<seq<string>>>): (r: seq<nat>)
    ensures |r| == |chunks| && forall k :: 0 <= k < |chunks| ==> r[k] == |chunks[k]|
  {
    seq(|chunks|, k requires 0 <= k < |chunks| => |chunks[k]|)
  }

  /**
   * Each element's parts concatenated: `sub_token_view()` of each chunk, and `[i for i in prepped_tokens]`
   * of the prepared units (a sub-token, or a full token joined, as a string).
   */
  function FlattenEach<T>(parts: seq<seq<seq<T>>>): (r: seq<seq<T>>)
    ensures |r| == |parts| && forall k :: 0 <= k < |parts| ==> r[k] == Flatten(parts[k])
  {
    seq(|parts|, k requires 0 <= k < |parts| => Flatten(parts[k]))
  }

  /** Where unit `k` starts among the sub-tokens of the units: the sub-tokens of the units before it. */
  function UnitStart(units: seq<seq<string>>, k: nat): nat
    requires k <= |units|
  {
    |Flatten(units[..k])|
  }

  /**
   * `get_iterator(values, over_full_tokens=False, formatter=sum)`: one value per prepared unit,
   * the sum of the values of its sub-tokens, read from the front of `values` in unit order
   * (a short tail is cut, as Python's slicing does).
   */
  function SumPerUnit(values: seq<real>, units: seq<seq<string>>): (r: seq<real>)
    ensures |r| == |units|
    decreases |units|
  {
    if |units| == 0 then []
    else
      var n := Min(|units[0]|, |values|);
      [Sum(values[..n])] + SumPerUnit(values[n..], units[1..])
  }

  /** The first unit starts at 0, and each next unit right after the sub-tokens of the one before. */
  lemma UnitStartNext(units: seq<seq<string>>, k: nat)
    requires 0 < k <= |units|
    ensures UnitStart(units, k) == |units[0]| + UnitStart(units[1..], k - 1)
    ensures UnitStart(units, 0) == 0
  {
    assert units[..k] == [units[0]] + units[1..][..k - 1];
    FlattenConcat([units[0]], units[1..][..k - 1]);
    assert Flatten([units[0]]) == units[0] + Flatten([units[0]][1..]);
    assert [units[0]][1..] == [];
    assert units[..0] == [];
  }

  /** The units take up all the sub-tokens: the last unit ends at the end of their concatenation. */
  lemma UnitStartEnd(units: seq<seq<string>>)
    ensures UnitStart(units, |units|) == |Flatten(units)|
  {
    assert units[..|units|] == units;
  }

  /**
   * With one value per sub-token, the `k`-th entropy is the sum of the values of exactly the
   * sub-tokens of unit `k`.
   */
  lemma {:induction false} SumPerUnitAt(values: seq<real>, units: seq<seq<string>>)
    requires |values| == |Flatten(units)|
    ensures forall k :: 0 <= k < |units| ==>
      UnitStart(units, k) + |units[k]| <= |values| &&
      SumPerUnit(values, units)[k] == Sum(values[UnitStart(units, k)..UnitStart(units, k) + |units[k]|])
    decreases |units|
  {
    if |units| > 0 {
      var n := |units[0]|;
      var rest := units[1..];
      SumPerUnitAt(values[n..], rest);
      forall k | 0 <= k < |units|
        ensures UnitStart(units, k) + |units[k]| <= |values|
        ensures SumPerUnit(values, units)[k] == Sum(values[UnitStart(units, k)..UnitStart(units, k) + |units[k]|])
      {
        if k == 0 {
          assert units[..0] == [];
        } else {
          UnitStartNext(units, k);
          var a := UnitStart(rest, k - 1);
          assert units[k] == rest[k - 1];
          assert values[n..][a..a + |units[k]|] == values[n + a..n + a + |units[k]|];
        }
      }
    }
  }

  /** With one value per sub-token, regrouping keeps the total. */
  lemma {:induction false} SumPerUnitTotal(values: seq<real>, units: seq<seq<string>>)
    requires |values| == |Flatten(units)|
    ensures Sum(SumPerUnit(values, units)) == Sum(values)
    decreases |units|
  {
    if |units| > 0 {
      var n := |units[0]|;
      SumPerUnitTotal(values[n..], units[1..]);
      assert values == values[..n] + values[n..];
      SumConcat(values[..n], values[n..]);
      var r := SumPerUnit(values, units);
      assert r[1..] == SumPerUnit(values[n..], units[1..]);
    }
  }

  /** In the sub-token view every unit is one sub-token, and the losses come out as they are. */
  lemma {:induction false} SumPerUnitOfSubTokens(values: seq<real>, units: seq<seq<string>>)
    requires |values| == |units| && forall k :: 0 <= k < |units| ==> |units[k]| == 1
    ensures SumPerUnit(values, units) == values
    decreases |units|
  {
    if |units| > 0 {
      assert |units[0]| == 1 && Min(|units[0]|, |values|) == 1;
      SumPerUnitOfSubTokens(values[1..], units[1..]);
      assert values[..1] == [values[0]] && [values[0]][1..] == [];
      assert Sum(values[..1]) == values[0];
      assert SumPerUnit(values, units) == [values[0]] + SumPerUnit(values[1..], units[1..]);
      assert values == [values[0]] + values[1..];
    }
  }

  /**
   * `get_iterator(context_usage, over_full_tokens=True)`: the planned context lengths read
   * one per prepared unit, in order, for as many units as both have.
   */
  function PerUnit(values: seq<nat>, units: seq<seq<string>>): (r: seq<nat>)
    ensures |r| == Min(|units|, |values|) && forall k :: 0 <= k < |r| ==> r[k] == values[k]
  {
    values[..Min(|units|, |values|)]
  }

  /** The chunk lengths add up to the number of units in the chunks. */
  lemma {:induction false} SumChunkLengths(chunks: seq<seq<seq<string>>>)
    ensures SumNat(ChunkLengths(chunks)) == |Flatten(chunks)|
    decreases |chunks|
  {
    if |chunks| > 0 {
      SumChunkLengths(chunks[1..]);
      assert ChunkLengths(chunks)[1..] == ChunkLengths(chunks[1..]);
    }
  }

  /** Concatenating each chunk's units and then the chunks is concatenating the chunks and then the units. */
  lemma {:induction false} FlattenEachFlatten<T>(parts: seq<seq<seq<T>>>)
    ensures Flatten(FlattenEach(parts)) == Flatten(Flatten(parts))
    decreases |parts|
  {
    if |parts| > 0 {
      FlattenEachFlatten(parts[1..]);
      assert FlattenEach(parts)[1..] == FlattenEach(parts[1..]);
      FlattenConcat(parts[0], Flatten(parts[1..]));
    }
  }

  /**
   * When the chunks are the units cut in order, `get_entropies_for_text` gives one entropy per
   * unit, the sum of the losses of that unit's sub-tokens, and the entropies keep the total loss.
   */
  lemma EntropiesPerUnit(entropy: EntropyOracle, itos: seq<string>, st: ModelState, units: seq<seq<string>>,
                         chunks: seq<seq<seq<string>>>, resetAfterLastChunk: bool)
    requires Flatten(chunks) == units
    ensures var losses := ChunksRun(entropy, itos, st, FlattenEach(chunks), resetAfterLastChunk).losses;
      var e := SumPerUnit(losses, units);
      |e| == |units| && Sum(e) == Sum(losses) &&
      forall k :: 0 <= k < |units| ==>
        UnitStart(units, k) + |units[k]| <= |losses| &&
        e[k] == Sum(losses[UnitStart(units, k)..UnitStart(units, k) + |units[k]|])
  {
    var losses := ChunksRun(entropy, itos, st, FlattenEach(chunks), resetAfterLastChunk).losses;
    ChunksRunLossCount(entropy, itos, st, FlattenEach(chunks), resetAfterLastChunk);
    FlattenEachFlatten(chunks);
    SumPerUnitAt(losses, units);
    SumPerUnitTotal(losses, units);
  }

  /**
   * When the chunks are the units cut to fill their windows, `get_entropies_for_text` gives
   * one context length per unit: the whole plan.
   */
  lemma ContextLengthPerUnit(current: nat, maxContextAllowed: int, units: seq<seq<string>>, chunks: seq<seq<seq<string>>>)
    requires Flatten(chunks) == units
    requires EntropiesPlan(current, maxContextAllowed, ChunkLengths(chunks)).Success?
    requires |chunks| > 1 ==> |chunks[0]| == maxContextAllowed - current
    requires forall k :: 0 < k < |chunks| - 1 ==> |chunks[k]| == maxContextAllowed
    ensures var plan := EntropiesPlan(current, maxContextAllowed, ChunkLengths(chunks)).value;
      PerUnit(Iterate(plan), units) == Iterate(plan) && |Iterate(plan)| == |units|
  {
    var plan := EntropiesPlan(current, maxContextAllowed, ChunkLengths(chunks)).value;
    PlanCountsEveryToken(current, maxContextAllowed, ChunkLengths(chunks));
    SumChunkLengths(chunks);
    assert Iterate(plan)[..|Iterate(plan)|] == Iterate(plan);
  }

  /**
   * A loaded `TrainedModel`: its term vocabulary, the id of the first non-terminal
   * sub-token and the id of `STARTING_TOKEN` are fixed at load time; the history fed
   * to the network, the cursor and the context log change.
   */
  class TrainedModel {
    const loadOnlyDescription: bool
    /** `is_terminal_subtoken`, the one predicate both the vocabulary split and the decoding of suggestions use. */
    const isTerminal: string -> bool
    const vocab: seq<string>
    const firstNontermToken: nat
    const startingTokenId: nat
    var fed: seq<nat>
    var cursor: nat
    var context: seq<seq<string>>

    function State(): ModelState
      reads this
    {
      ModelState(fed, cursor, context)
    }

    /**
     * Loading: the original vocabulary is reordered terminals first, and the cursor
     * starts at the id of the starting token; with only the description loaded there is
     * no vocabulary and no network.
     */
    constructor (originalItos: seq<string>, isTerminal: string -> bool, termOrder: seq<nat>,
                 startingToken: string, loadOnlyDescription: bool)
      requires IsTerminalEnumeration(originalItos, isTerminal, termOrder)
      ensures this.loadOnlyDescription == loadOnlyDescription && this.isTerminal == isTerminal
      ensures context == [] && fed == []
      ensures !loadOnlyDescription ==>
        (vocab, firstNontermToken) == CreateTermVocab(originalItos, isTerminal, termOrder) &&
        CheckIsTermVocab(vocab, firstNontermToken, isTerminal).Success? &&
        startingTokenId == StringToId(vocab, startingToken) && cursor == startingTokenId
    {
      this.loadOnlyDescription := loadOnlyDescription;
      this.isTerminal := isTerminal;
      if !loadOnlyDescription {
        var termVocab := CreateTermVocab(originalItos, isTerminal, termOrder);
        CreatedVocabPassesCheck(originalItos, isTerminal, termOrder);
        vocab := termVocab.0;
        firstNontermToken := termVocab.1;
        startingTokenId := StringToId(termVocab.0, startingToken);
        cursor := StringToId(termVocab.0, startingToken);
      } else {
        vocab := [];
        firstNontermToken := 0;
        startingTokenId := 0;
        cursor := 0;
      }
      fed := [];
      context := [];
    }

    /** `_check_model_loaded`: operations needing the network fail when only the description is loaded. */
    function CheckModelLoaded(onlyDescription: bool): (r: Result<(), Error>)
      ensures r.Failure? <==> !onlyDescription && loadOnlyDescription
      ensures r.Failure? ==> r.error == RuntimeError
    {
      if !onlyDescription && loadOnlyDescription then Failure(RuntimeError) else Success(())
    }

    /** `_reset`: clears the network's history and the context log, keeping the cursor. */
    method ResetState()
      modifies this
      ensures State() == Cleared(old(State()))
    {
      fed := [];
      context := [];
    }

    /** `reset`: `_reset`, and the cursor goes back to the starting token. */
    method Reset() returns (r: Result<(), Error>)
      modifies this
      ensures loadOnlyDescription ==> r == Failure(RuntimeError) && State() == old(State())
      ensures !loadOnlyDescription ==> r == Success(()) && State() == ModelState([], startingTokenId, [])
    {
      var loaded := CheckModelLoaded(false);
      if loaded.Failure? {
        return Failure(loaded.error);
      }
      ResetState();
      cursor := startingTokenId;
      return Success(());
    }

    /** `_feed_prep_tokens`. */
    method FeedPrepTokens(tokens: seq<string>) returns (r: Result<(), Error>)
      requires |tokens| > 0
      modifies this
      ensures loadOnlyDescription ==> r == Failure(RuntimeError) && State() == old(State())
      ensures !loadOnlyDescription ==> r == Success(()) && State() == FeedTokens(old(State()), vocab, tokens)
    {
      var loaded := CheckModelLoaded(false);
      if loaded.Failure? {
        return Failure(loaded.error);
      }
      var contextTensor := Numericalize(vocab, tokens);
      context := context + [tokens];
      fed := fed + contextTensor[..|contextTensor| - 1];
      cursor := contextTensor[|contextTensor| - 1];
      return Success(());
    }

    /** The inner loop of `_get_entropies_for_prep_text` over one chunk's sub-tokens. */
    method RunChunk(subTokens: seq<string>, entropy: EntropyOracle) returns (losses: seq<real>)
      modifies this
      ensures var f := SlicedRun(entropy, old(fed), old(cursor), Numericalize(vocab, subTokens));
        losses == f.losses && fed == f.fed && cursor == f.cursor && context == old(context)
    {
      ghost var ids := Numericalize(vocab, subTokens);
      ghost var chunkRun := SlicedRun(entropy, fed, cursor, ids);
      var history, current := fed, cursor;
      losses := [];
      assert ids[0..] == ids && [] + chunkRun.losses == chunkRun.losses;
      var i := 0;
      ghost var lo := 0;
      while i < |subTokens|
        invariant lo == Min(i, |ids|) && context == old(context)
        invariant Continue(losses, SlicedRun(entropy, history, current, ids[lo..])) == chunkRun
        decreases |subTokens| - i
      {
        var hi := Min(i + MaxSubtokensPerChunk, |subTokens|);
        var numericalized := Numericalize(vocab, subTokens[i..hi]);
        NumericalizeSlice(vocab, subTokens, i, hi);
        SlicedRunPiece(entropy, history, current, ids, i, hi, numericalized, losses);
        var inp := [current] + numericalized[..|numericalized| - 1];
        losses := losses + ForwardLosses(entropy, history, inp, numericalized);
        history := history + inp;
        current := numericalized[|numericalized| - 1];
        i := i + MaxSubtokensPerChunk;
        lo := hi;
      }
      assert ids[lo..] == [] && losses + [] == losses;
      fed, cursor := history, current;
    }

    /** `_get_entropies_for_prep_text`: changes the network's history, the cursor and the context log. */
    method GetEntropiesForPrepText(chunks: seq<seq<string>>, resetAfterLastChunk: bool, entropy: EntropyOracle)
      returns (r: Result<seq<real>, Error>)
      modifies this
      ensures loadOnlyDescription ==> r == Failure(RuntimeError) && State() == old(State())
      ensures !loadOnlyDescription ==>
        var run := ChunksRun(entropy, vocab, old(State()), chunks, resetAfterLastChunk);
        r == Success(run.losses) && State() == run.state
    {
      var loaded := CheckModelLoaded(false);
      if loaded.Failure? {
        return Failure(loaded.error);
      }
      if |chunks| == 0 {
        return Success([]);
      }
      ghost var target := ChunksRun(entropy, vocab, State(), chunks, resetAfterLastChunk);
      var lossList: seq<real> := [];
      var ind := 0;
      while ind < |chunks|
        invariant 0 <= ind <= |chunks|
        invariant var rest := ChunksRun(entropy, vocab, State(), chunks[ind..], resetAfterLastChunk);
          lossList + rest.losses == target.losses && rest.state == target.state
      {
        ChunksRunAdvance(entropy, vocab, State(), chunks, ind, resetAfterLastChunk, lossList, target);
        var subTokens := chunks[ind];
        var chunkLosses := RunChunk(subTokens, entropy);
        lossList := lossList + chunkLosses;
        context := context + [subTokens];
        if ind < |chunks| - 1 || resetAfterLastChunk {
          ResetState();
        }
        ind := ind + 1;
      }
      assert chunks[ind..] == [] && lossList + [] == lossList;
      return Success(lossList);
    }

    /**
     * `get_entropies_for_text`, given the prepared text as units (`units`: the sub-tokens of each
     * full token in the full-token view, one sub-token each otherwise), `chunk_prepped_tokens`
     * (`chunker`) and `ModelContext.size` (`contextSize`). Returns one entropy per unit, the
     * units' strings and one planned context length per unit.
     */
    method GetEntropiesForText(units: seq<seq<string>>, fullTokens: bool, maxContextAllowed: int,
                               contextSize: (seq<seq<string>>, bool) -> nat,
                               chunker: (seq<seq<string>>, int, int) -> seq<seq<seq<string>>>,
                               entropy: EntropyOracle)
      returns (r: Result<TextEntropies, Error>)
      modifies this
      ensures var current := contextSize(old(context), fullTokens);
        var chunks := chunker(units, maxContextAllowed - current, maxContextAllowed);
        var plan := EntropiesPlan(current, maxContextAllowed, ChunkLengths(chunks));
        (plan.Failure? ==> r == Failure(plan.error) && State() == old(State())) &&
        (plan.Success? && loadOnlyDescription ==> r == Failure(RuntimeError) && State() == old(State())) &&
        (plan.Success? && !loadOnlyDescription ==>
          var run := ChunksRun(entropy, vocab, old(State()), FlattenEach(chunks), plan.value.IsLastChunkComplete());
          r == Success(TextEntropies(SumPerUnit(run.losses, units), FlattenEach(units), PerUnit(Iterate(plan.value), units))) &&
          State() == run.state)
    {
      var current := contextSize(context, fullTokens);
      if current > maxContextAllowed {
        return Failure(ValueError(ContextTooLong(current, maxContextAllowed)));
      }
      var chunks := chunker(units, maxContextAllowed - current, maxContextAllowed);
      if |chunks| == 0 {
        return Failure(IndexError);
      }
      var last := |chunks[|chunks| - 1]|;
      var lengthEnd := if |chunks| > 1 then last else last + current;
      var plan := MakeContextUsage(current, maxContextAllowed, |chunks| - 1, lengthEnd);
      if plan.Failure? {
        return Failure(plan.error);
      }
      var losses := GetEntropiesForPrepText(FlattenEach(chunks), plan.value.IsLastChunkComplete(), entropy);
      if losses.Failure? {
        return Failure(losses.error);
      }
      var contextLengths := ToList(plan.value);
      return Success(TextEntropies(SumPerUnit(losses.value, units), FlattenEach(units), PerUnit(contextLengths, units)));
    }

    /** `predict_next_full_token`: one suggestion per beam-search result, in beam order. */
    method PredictNextFullToken(nSuggestions: nat, includeDebugTokens: bool, d: Decoder) returns (r: Result<seq<Prediction>, Error>)
      requires d.isTerminal == isTerminal
      ensures loadOnlyDescription ==> r == Failure(RuntimeError)
      ensures !loadOnlyDescription ==>
        r == Suggestions(vocab, d.beamSearch(QueryIn(State(), firstNontermToken, nSuggestions)), includeDebugTokens, d)
    {
      var loaded := CheckModelLoaded(false);
      if loaded.Failure? {
        return Failure(loaded.error);
      }
      var results := d.beamSearch(QueryIn(State(), firstNontermToken, nSuggestions));
      r := SuggestionsFrom(results, includeDebugTokens, d);
    }

    /** The loop of `predict_next_full_token` over the beam-search results. */
    method SuggestionsFrom(results: seq<BeamResult>, includeDebugTokens: bool, d: Decoder) returns (r: Result<seq<Prediction>, Error>)
      requires d.isTerminal == isTerminal
      ensures r == Suggestions(vocab, results, includeDebugTokens, d)
    {
      ghost var each := SuggestionResults(vocab, results, includeDebugTokens, d);
      var suggestions: seq<Prediction> := [];
      var i := 0;
      while i < |results|
        invariant 0 <= i <= |results| && |suggestions| == i
        invariant forall k :: 0 <= k < i ==> each[k] == Success(suggestions[k])
      {
        var suggestion := SuggestionFor(vocab, results[i], includeDebugTokens, d);
        assert each[i] == suggestion;
        if suggestion.Failure? {
          CollectFirstFailure(each, i);
          return Failure(suggestion.error);
        }
        suggestions := suggestions + [suggestion.value];
        i := i + 1;
      }
      CollectAllSucceed(each, suggestions);
      return Success(suggestions);
    }

    /**
     * `get_predictions_and_feed` over the full tokens of the prepared text: predicts, then
     * feeds the token's sub-tokens, token by token. Returns the steps yielded and the error,
     * if any, that ended the generator after them.
     */
    method GetPredictionsAndFeed(fullTokens: seq<seq<string>>, nSuggestions: nat, d: Decoder)
      returns (steps: seq<Step>, error: Option<Error>)
      requires forall k :: 0 <= k < |fullTokens| ==> |fullTokens[k]| > 0
      requires d.isTerminal == isTerminal
      modifies this
      ensures loadOnlyDescription ==>
        steps == [] && error == (if |fullTokens| == 0 then None else Some(RuntimeError)) && State() == old(State())
      ensures !loadOnlyDescription ==>
        Session(steps, error, State()) == PredictAndFeed(vocab, firstNontermToken, old(State()), fullTokens, nSuggestions, d)
    {
      steps := [];
      if |fullTokens| == 0 {
        return steps, None;
      }
      var loaded := CheckModelLoaded(false);
      if loaded.Failure? {
        return steps, Some(loaded.error);
      }
      ghost var target := PredictAndFeed(vocab, firstNontermToken, State(), fullTokens, nSuggestions, d);
      PrependNothing(target);
      assert fullTokens[0..] == fullTokens;
      var i := 0;
      while i < |fullTokens|
        invariant 0 <= i <= |fullTokens|
        invariant target == Prepend(steps, PredictAndFeed(vocab, firstNontermToken, State(), fullTokens[i..], nSuggestions, d))
      {
        ghost var st := State();
        PredictAndFeedAdvance(vocab, firstNontermToken, st, fullTokens, i, nSuggestions, d, steps, target);
        var predictions := PredictNextFullToken(nSuggestions, false, d);
        if predictions.Failure? {
          return steps, Some(predictions.error);
        }
        var fedResult := FeedPrepTokens(fullTokens[i]);
        assert State() == FeedTokens(st, vocab, fullTokens[i]);
        steps := steps + [Step(predictions.value, Flatten(fullTokens[i]))];
        i := i + 1;
      }
      assert fullTokens[i..] == [];
      PrependAll(steps, State());
      return steps, None;
    }
  }
}
