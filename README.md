# langmodels inference and evaluation core, in Dafny

This project models the bookkeeping core of `langmodels`, a library that serves trained source-code
language models. The model covers three parts.

- **Inference bookkeeping** (`langmodels/model.py`):
  - the `ContextUsage` plan and its iterator;
  - the terminal-first vocabulary built at load time and its boundary check;
  - `to_full_token_string`;
  - the state discipline of `TrainedModel`: the "last predicted token" cursor, the context log and the description-only flag, driven by `_feed_prep_tokens`, `_reset`, `reset` and `_check_model_loaded`;
  - the chunked entropy loop and the checks of `get_entropies_for_text`;
  - the post-processing of beam-search results in `predict_next_full_token`;
  - the predict-then-feed loop of `get_predictions_and_feed`.
- **Metrics** (`langmodels/evaluation/metrics.py`): word averaging, the full-token mean reciprocal rank loop, the harmonic `average_ranks`, the arithmetic `average_entropy`, and the `agg_funcs` table.
- **Corpus roll-up** (`langmodels/evaluation/evaluation.py`):
  - metric lookup and `get_metrics_name`;
  - per-line and whole-text evaluation;
  - `_format_postfix`;
  - the running, count-weighted merge of per-file figures in `evaluate_model_on_path`;
  - the project loop of `evaluate_model_on_project_set`.

Files:

- `util.dfy` (module `Util`): `Option`/`Result`, the Python exceptions as an `Error` datatype, and models of `str.split`, `str.join` and `list.index`.
- `dicts.dfy` (module `Dicts`): Python dictionaries as insertion-ordered association lists.
- `context_window.dfy` (module `ContextWindow`): `ContextUsage`; its iterator is a class whose `Next` method is proved against the function `Remaining`.
- `vocabulary.dfy` (module `Vocabulary`): the term vocabulary, `numericalize`/`textify`, and `to_full_token_string`.
- `trained_model.dfy` (module `Model`): the class `TrainedModel`. Its methods update the fields `fed`, `cursor` and `context` and are proved against specification functions (`FeedTokens`, `ChunksRun`, `PredictAndFeed`, ...).
  - `fed` stands for the recurrent hidden state: the ids forwarded through the network since the last reset.
- `metrics.dfy` (module `Metrics`), with `FullTokenMrr` as a method with a loop.
- `evaluation.dfy` (module `Evaluation`), with methods for the loops of `_evaluate_model_on_line`, `evaluate_model_on_string`, `evaluate_model_on_path` (the in-place merge) and `evaluate_model_on_project_set`.

These parts take the form of parameters:

- the neural network, as an entropy oracle over the history of fed ids;
- beam search, and the tokeniser's predicates (`is_terminal_subtoken`, the placeholder values);
- the metrics that `metric_dict` holds, as a `Registry` with a run function over an abstract model state, which returns the metric's output and the new state or the exception the metric raises (the `RuntimeError` of a description-only model, say);
- the file system: files as `SourceFile` values, a directory listing as an optional list of names.

Three facts about the code shape the state model:

- **Feeding.** `_feed_prep_tokens` forwards the new tokens without their last one, and the last one becomes the cursor (`langmodels/model.py:368-372`). The previous cursor is not forwarded, as `Model.ConsecutiveFeeds` states.
- **Context log.** `ModelContext` is not part of this model, so the log is a sequence that `add` extends and `reset` empties.
- **Reset.** `_reset` calls `model.reset()` and `context.reset()` (`langmodels/model.py:454-456`). The model clears the fed history and the log and keeps the cursor. The snapshot taken at load time (`langmodels/model.py:283`) is not used by `_reset`.

## Model

| member | source | states |
|---|---|---|
| `Util.Split` | langmodels/evaluation/evaluation.py:57 | `str.split` of a one-character separator always gives at least one piece |
| `Util.SplitPiecesAvoidSeparator` | langmodels/evaluation/evaluation.py:57 | no piece of a split contains the separator |
| `Util.JoinSplit` | langmodels/evaluation/evaluation.py:57 | joining the pieces with the separator gives the text back |
| `Util.SplitJoin` | langmodels/model.py:127-128 | splitting a join gives the pieces back when none holds the separator |
| `Util.JoinEmptyIsFlatten` | langmodels/model.py:127-128 | `''.join` is plain concatenation |
| `Util.IndicesWhere` | langmodels/model.py:471 | `nonzero()` of a flag list: ascending positions, exactly those whose flag holds |
| `Util.IndicesWhereCount` | langmodels/model.py:471-472 | the positions of set and of cleared flags together number the flags |
| `Util.IndexOf` | langmodels/evaluation/metrics.py:52 | `list.index`: none exactly when absent, otherwise a position holding the element |
| `Util.IndexOfIsFirst` | langmodels/evaluation/metrics.py:52 | the element found does not occur earlier |
| `Util.FindFirst` | langmodels/model.py:104-113 | the first position whose flag holds, or none when no flag does: the first token the check reports |
| `Dicts.GetIndexOf` | langmodels/evaluation/evaluation.py:125 | `d[k]` finds the value of the entry at the first position of the key |
| `Dicts.GetNone` | langmodels/evaluation/evaluation.py:125 | a lookup finds nothing exactly when the key is not stored |
| `Dicts.PutIndexOf` | langmodels/evaluation/evaluation.py:40 | `d[k] = v` rewrites an existing key's entry in place, or appends a new one |
| `Dicts.PutKeys` | langmodels/evaluation/evaluation.py:40 | storing keeps the key order, and a new key goes at the end |
| `Dicts.PutGet` | langmodels/evaluation/evaluation.py:40 | after storing, the key holds the new value, every other key keeps its own, and the keys stay distinct |
| `ContextWindow.MakeContextUsage` | langmodels/model.py:234-235 | construction fails with `AssertionError` exactly when `reset_at > length_start` and `reset_at >= length_end` do not both hold |
| `ContextWindow.RemainingBelowReset` | langmodels/model.py:222-232 | every value the iterator still yields, in any state, is below `reset_at` |
| `ContextWindow.ContextUsageIterator.constructor` | langmodels/model.py:214-217 | a fresh iterator starts at `length_start` with no reset and yields the whole plan |
| `ContextWindow.ContextUsageIterator.Next` | langmodels/model.py:222-232 | `__next__` yields the next planned value and advances, or leaves the state alone and stops |
| `ContextWindow.ToList` | langmodels/model.py:241-242 | listing the iterator gives the plan, every value below `reset_at` |
| `ContextWindow.RemainingLength` | langmodels/model.py:222-232 | how many values an iterator in any state still yields |
| `ContextWindow.IterateLength` | langmodels/model.py:237-239 | the iterator yields `n_predictions()` values when `reset_times >= 1` or `length_end >= length_start`, otherwise it runs to the first reset |
| `ContextWindow.NPredictionsDoctests` | langmodels/model.py:169-174 | doctests: 0, 200 and 440 predictions |
| `ContextWindow.NPredictionsEmptyDoctest` | langmodels/model.py:180-181 | doctest: the plan `(0, 1, 0, 0)` predicts nothing |
| `ContextWindow.NPredictionsFullWindowDoctest` | langmodels/model.py:183-184 | doctest: `(199, 200, 0, 200)` predicts once |
| `ContextWindow.NPredictionsIteratedDoctests` | langmodels/model.py:186-201 | doctests: 2, 3 and 5 predictions |
| `ContextWindow.ConstructionDoctest` | langmodels/model.py:175-178 | doctest: `(20, 10, 2, 50)` raises `AssertionError` |
| `ContextWindow.IterateDoctestWrapOnce` | langmodels/model.py:186-191 | doctest: `(199, 200, 1, 1)` yields `[199, 0]` |
| `ContextWindow.IterateDoctestUnitWindow` | langmodels/model.py:193-197 | doctest: `(0, 1, 2, 1)` yields `[0, 0, 0]` |
| `ContextWindow.IterateDoctestTwoResets` | langmodels/model.py:199-203 | doctest: `(2, 3, 2, 1)` yields `[2, 0, 1, 2, 0]` |
| `Vocabulary.TerminalFlags` | langmodels/model.py:96 | one flag per vocabulary entry: whether it is terminal |
| `Vocabulary.MapIndices` | langmodels/model.py:97 | `[itos[i] for i in idx]` reads each index in order |
| `Vocabulary.MapIndicesMultiset` | langmodels/model.py:96-97 | the iteration order of the terminal-id set does not change which entries are taken |
| `Vocabulary.MapIndicesWhereIsFilter` | langmodels/model.py:98 | reading at the ascending positions of a predicate is filtering by it |
| `Vocabulary.FilterPartition` | langmodels/model.py:97-99 | kept and dropped entries together are all the entries |
| `Vocabulary.EnumerationInRange` | langmodels/model.py:96-97 | any enumeration of the terminal-id set gives terminal, in-range ids, one per terminal |
| `Vocabulary.TermList` | langmodels/model.py:97 | the terminal list holds only terminals, one per terminal entry |
| `Vocabulary.TermListPermutes` | langmodels/model.py:96-97 | the terminal list is a permutation of the terminal entries |
| `Vocabulary.NonTermListIsFilter` | langmodels/model.py:98 | the non-terminal list is the non-terminal entries in original order, and the two counts add up to the vocabulary size |
| `Vocabulary.NonTermListNonTerminal` | langmodels/model.py:98 | the non-terminal list holds no terminal |
| `Vocabulary.TermVocabBlocks` | langmodels/model.py:95-100 | the two blocks together permute the vocabulary, terminals first and non-terminals in original order |
| `Vocabulary.CreateTermVocab` | langmodels/model.py:95-100 | `_create_term_vocab`: a permutation of the vocabulary, terminals first, the rest in original order, and the count of terminals |
| `Vocabulary.BoundaryViolations` | langmodels/model.py:103-113 | marks exactly the entries of the wrong kind on the chosen side of the boundary |
| `Vocabulary.CheckIsTermVocab` | langmodels/model.py:103-113 | `_check_is_term_vocab` passes iff the entries below the boundary are exactly the terminals; otherwise `ValueError` names the first offending token, non-terminals before the boundary first |
| `Vocabulary.CreatedVocabPassesCheck` | langmodels/model.py:95-113 | the vocabulary built at load time always passes the check |
| `Vocabulary.StringToIdSpec` | langmodels/model.py:368 | `stoi`: a known string maps to its last position, an unknown one to 0 |
| `Vocabulary.Numericalize` | langmodels/model.py:368 | `numericalize` maps each token through `stoi` |
| `Vocabulary.NumericalizeKnown` | langmodels/model.py:368 | a known token's id indexes back to the token |
| `Vocabulary.ListIndex` | langmodels/model.py:483 | Python indexing: a negative id counts from the end |
| `Vocabulary.Textify` | langmodels/model.py:483 | `textify(ids, sep=None)` fails with `IndexError` iff an id is out of range, otherwise reads each id |
| `Vocabulary.TextifyNumericalize` | langmodels/model.py:483 | textify after numericalize gives known tokens back |
| `Vocabulary.NumericalizeSlice` | langmodels/model.py:437-438 | numericalizing a slice is slicing the numericalization |
| `Vocabulary.JoinFacts` | langmodels/model.py:127-128 | the plain join is concatenation, and the debug join splits back on the bar separator |
| `Vocabulary.ToFullTokenString` | langmodels/model.py:116-134 | succeeds iff the join is a placeholder value or terminal and then returns it, otherwise `ValueError`; the plain join is concatenation and the debug join splits back |
| `Vocabulary.ToFullTokenStringDebugDoctest` | langmodels/model.py:118-119 | doctest: `['the', 're</t>']` in debug mode gives `the` and `re</t>` joined by a bar |
| `Vocabulary.ToFullTokenStringPlainDoctest` | langmodels/model.py:121-122 | doctest: `['re', 'vol', 'v', 'er</t>']` gives `'revolver</t>'` |
| `Vocabulary.ToFullTokenStringPlaceholderDoctest` | langmodels/model.py:124-125 | doctest: `[placeholders['olc_end']]` gives `'<EOL>'`, whether or not it counts as terminal |
| `Model.FeedTokens` | langmodels/model.py:366-372 | after feeding, fed history plus cursor is the old history plus the token ids, and the tokens join the log |
| `Model.FeedAllCons` | langmodels/model.py:355-357 | feeding the first token and then the rest is feeding them all |
| `Model.ConsecutiveFeeds` | langmodels/model.py:368-372 | two feeds forward each sequence without its last id, and never the cursor |
| `Model.ForwardLosses` | langmodels/model.py:441-447 | one loss per target |
| `Model.ForwardLossesAt` | langmodels/model.py:441-447 | the `j`-th loss scores target `j` after the history and the input up to `j` |
| `Model.ForwardLossesConcat` | langmodels/model.py:441-447 | two consecutive passes score like one pass over both |
| `Model.SlicedRun` | langmodels/model.py:436-448 | one loss per id, and the cursor ends at the last id |
| `Model.SlicingIsTransparent` | langmodels/model.py:436-448 | cutting a chunk into pieces of 200 changes nothing: the result is one pass of the cursor followed by all ids but the last |
| `Model.ChunksRunLossCount` | langmodels/model.py:434-452 | one loss per sub-token over all chunks |
| `Model.ChunksRunFinalState` | langmodels/model.py:449-451 | after the run: an empty history and log if reset after the last chunk, otherwise the log holds the last chunk; the cursor is the last sub-token's id |
| `Model.SingleChunkIsOneForward` | langmodels/model.py:434-451 | one chunk without a reset is one forward pass, logged |
| `Model.LaterChunksStartCleared` | langmodels/model.py:449-451 | every chunk after the first starts from a cleared network and log |
| `Model.EntropiesPlan` | langmodels/model.py:390-403 | `ValueError` when the context exceeds the maximum, `IndexError` without chunks, `AssertionError` when the plan is invalid, otherwise the plan with `length_end` adding the context only for a single chunk |
| `Model.ContextAtMaximumFails` | langmodels/model.py:390-403 | a context of exactly the maximum passes the guard and then fails the plan's assertion |
| `Model.ResetAfterLastIffWindowFull` | langmodels/model.py:400-408 | a reset after the last chunk is asked for iff the last window is filled |
| `Model.PlanCountsEveryToken` | langmodels/model.py:399-403 | when chunks fill their windows, the plan yields one context length per token |
| `Model.CompleteTokenPredicate` | langmodels/model.py:469-473 | ready and pending rows are ascending and disjoint, cover every row, and split on the last id against the first non-terminal id; an empty row raises `IndexError` |
| `Model.TerminalEnds` | langmodels/model.py:470 | one flag per row: whether its last id is terminal |
| `Model.TruncateAtSentinel` | langmodels/model.py:478-482 | the ids before the first `TORCH_LONG_MIN_VAL`, or all ids when there is none |
| `Model.SuggestionFor` | langmodels/model.py:478-485 | a beam result gives a suggestion iff its truncated ids textify and join to a full token |
| `Model.SuggestionResults` | langmodels/model.py:477-485 | one outcome per beam result, in beam order |
| `Model.SuggestionsSucceed` | langmodels/model.py:476-486 | the suggestion list succeeds iff every beam result does, and then has one suggestion per result, in order |
| `Model.SuggestionsFailAtFirst` | langmodels/model.py:476-486 | a failing list fails with the error of the first failing beam result |
| `Model.PredictAndFeed` | langmodels/model.py:351-359 | a run yields at most one step per full token, and every full token exactly when no error stops it |
| `Model.PredictAndFeedFinalState` | langmodels/model.py:355-357 | a run, complete or stopped by an error, leaves the state of feeding exactly the full tokens it yielded |
| `Model.PredictionsPrecedeFeeding` | langmodels/model.py:355-359 | the `k`-th yielded predictions are made in the state after feeding exactly the first `k` tokens, and the `k`-th text is the `k`-th token |
| `Model.PredictAndFeedError` | langmodels/model.py:354 | a run stopped by an error stops with the failure of the predictions for the token right after those it yielded |
| `Model.ChunkLengths` | langmodels/model.py:399-403 | the length of each chunk |
| `Model.SumPerUnit` | langmodels/model.py:412 | one summed entropy per prepared unit |
| `Model.SumPerUnitAt` | langmodels/model.py:412 | with one loss per sub-token, the `k`-th entropy is the sum of the losses of exactly unit `k`'s sub-tokens |
| `Model.SumPerUnitTotal` | langmodels/model.py:412 | with one loss per sub-token, the per-unit entropies keep the total loss |
| `Model.SumPerUnitOfSubTokens` | langmodels/model.py:398-412 | in the sub-token view every unit is one sub-token, and the losses come out unchanged |
| `Model.PerUnit` | langmodels/model.py:413 | the planned context lengths read one per prepared unit, in order |
| `Model.EntropiesPerUnit` | langmodels/model.py:398-412 | when the chunks are the units cut in order, one entropy per unit, each the sum of that unit's sub-token losses, with the total kept |
| `Model.ContextLengthPerUnit` | langmodels/model.py:399-413 | when the chunks fill their windows, one context length per unit, the whole plan |
| `Model.FlattenEach` | langmodels/model.py:410-435 | each element's parts concatenated: the sub-token view of each chunk (line 435) and the string of each prepared unit (line 410) |
| `Model.TrainedModel.constructor` | langmodels/model.py:279-287 | loading builds the term vocabulary, which passes the check, keeps `is_terminal_subtoken` for decoding, and puts the cursor at the starting token's id with an empty history and log |
| `Model.TrainedModel.CheckModelLoaded` | langmodels/model.py:361-364 | `RuntimeError` exactly when the network is needed and only the description is loaded |
| `Model.TrainedModel.ResetState` | langmodels/model.py:454-456 | `_reset` clears the history and the log and keeps the cursor |
| `Model.TrainedModel.Reset` | langmodels/model.py:458-463 | `reset` clears the history and the log and puts the cursor at the starting token; description-only raises without change |
| `Model.TrainedModel.FeedPrepTokens` | langmodels/model.py:366-372 | the new state is `FeedTokens` of the old one; description-only raises without change |
| `Model.TrainedModel.RunChunk` | langmodels/model.py:436-448 | the piece loop over one chunk computes `SlicedRun` and leaves the log alone |
| `Model.TrainedModel.GetEntropiesForPrepText` | langmodels/model.py:417-452 | the chunk loop returns the losses and leaves the state of `ChunksRun`; description-only raises without change |
| `Model.TrainedModel.GetEntropiesForText` | langmodels/model.py:387-415 | a failing plan raises without change; otherwise the losses of the chunk run summed per unit, the units' strings and the plan's context lengths one per unit, with a reset after the last chunk iff the window is full |
| `Model.TrainedModel.PredictNextFullToken` | langmodels/model.py:465-486 | the suggestions of the beam results in the current state; description-only raises |
| `Model.TrainedModel.SuggestionsFrom` | langmodels/model.py:476-486 | the result loop computes `Suggestions` |
| `Model.TrainedModel.GetPredictionsAndFeed` | langmodels/model.py:351-359 | the steps yielded, the error that ended the run and the state left are those of `PredictAndFeed`, without debug tokens; description-only raises at the first token |
| `Metrics.Words` | langmodels/evaluation/metrics.py:21 | word `k` runs from boundary `k` to boundary `k + 1` |
| `Metrics.WordsCoverSpan` | langmodels/evaluation/metrics.py:21 | the words together are the stretch between the first and the last boundary |
| `Metrics.WordSums` | langmodels/evaluation/metrics.py:21 | each word's value is the sum of its sub-word values |
| `Metrics.SumOfWordSums` | langmodels/evaluation/metrics.py:25 | summing word sums is summing all their values |
| `Metrics.WordAverageSpec` | langmodels/evaluation/metrics.py:13-25 | 0.0 without words; otherwise the total between the first and last boundary over the number of words |
| `Metrics.WordAverageEmptyDoctest` | langmodels/evaluation/metrics.py:15-16 | doctest: `([], [0])` gives 0.0 |
| `Metrics.WordAverageDoctest` | langmodels/evaluation/metrics.py:18-19 | doctest: `([1, 2, 3], [0, 1, 3])` gives 3.0 |
| `Metrics.BinEntropy` | langmodels/evaluation/metrics.py:28-36 | the model's entropies for the line; their average is 0.0 without a word, otherwise the entropy between the first and last boundary over the number of words |
| `Metrics.RankOf` | langmodels/evaluation/metrics.py:51-56 | the 1-based first position of the token among the predictions, or `maxsize` when absent |
| `Metrics.InverseRank` | langmodels/evaluation/metrics.py:51-57 | `1 / rank` when found, 0 when absent |
| `Metrics.Ranks` | langmodels/evaluation/metrics.py:47-56 | the rank of each full token, predicted from the tokens before it |
| `Metrics.InverseRanks` | langmodels/evaluation/metrics.py:47-57 | the inverse-rank term of each full token |
| `Metrics.ActualTokens` | langmodels/evaluation/metrics.py:47-50 | one full-token string per word |
| `Metrics.FullTokenMrr` | langmodels/evaluation/metrics.py:39-60 | the loop returns one rank per full token and the count over the inverse-rank sum, predicting before feeding |
| `Metrics.MrrZeroIffNothingFound` | langmodels/evaluation/metrics.py:60 | the value is 0.0 iff no token was found among its predictions, and never negative |
| `Metrics.Ones` | langmodels/evaluation/metrics.py:74 | `[1.0] * n` |
| `Metrics.WeightedSumOnes` | langmodels/evaluation/metrics.py:74-75 | unit weights give the plain sum |
| `Metrics.WeightedMean` | langmodels/evaluation/metrics.py:75 | `np.average` fails exactly on mismatched shapes (`TypeError`) or zero total weight (`ZeroDivisionError`) |
| `Metrics.WeightedMeanOfTwo` | langmodels/evaluation/evaluation.py:124 | the count-weighted mean of two figures |
| `Metrics.Reciprocals` | langmodels/evaluation/metrics.py:75 | `1 / x` of each value, `ZeroDivisionError` iff a value is zero |
| `Metrics.AverageRanksOfPositive` | langmodels/evaluation/metrics.py:63-75 | without weights, the harmonic mean: the count over the sum of reciprocals |
| `Metrics.AverageRanksGrouping` | langmodels/evaluation/metrics.py:63-75 | averaging two groups' averages weighted by their sizes gives the average of all ranks |
| `Metrics.AverageRanksOfTwoMeans` | langmodels/evaluation/metrics.py:71-72 | two harmonic means weighted by their counts merge into the harmonic mean of everything |
| `Metrics.AverageRanksDoctest` | langmodels/evaluation/metrics.py:65-66 | doctest: `[1, 5]` gives 5/3 |
| `Metrics.AverageRanksThreeDoctest` | langmodels/evaluation/metrics.py:68-69 | doctest: `[1, 5, 9]` gives 135/59 |
| `Metrics.AverageRanksGroupingDoctest` | langmodels/evaluation/metrics.py:71-72 | doctest: `[5/3, 9]` weighted `[2, 1]` equals `[1, 5, 9]` |
| `Metrics.AverageEntropyUnweighted` | langmodels/evaluation/metrics.py:78-79 | without weights, the unit-weighted mean |
| `Metrics.AverageEntropyEqualWeights` | langmodels/evaluation/metrics.py:78-79 | equal non-zero weights do not change the mean |
| `Metrics.AggFunc` | langmodels/evaluation/metrics.py:82-86 | exactly the three names have an aggregation, and only `full_token_mrr` uses `average_ranks` |
| `Metrics.MrrIsAverageRanks` | langmodels/evaluation/metrics.py:82-86 | when every token is found, the aggregation `agg_funcs` assigns to `full_token_mrr` gives the MRR value of its ranks |
| `Evaluation.FirstNameOf` | langmodels/evaluation/evaluation.py:22-26 | the first name registered for the metric, or none iff it is not registered |
| `Evaluation.GetMetricsName` | langmodels/evaluation/evaluation.py:22-26 | the search loop returns that name, or raises `KeyError` |
| `Evaluation.MetricByNameSpec` | langmodels/evaluation/evaluation.py:18-19 | `KeyError` iff the name is not registered, otherwise a metric stored under it |
| `Evaluation.MetricNameRoundTrip` | langmodels/evaluation/evaluation.py:18-26 | looking up the name found for a metric gives the metric back |
| `Evaluation.StoreOutputKeepsDistinct` | langmodels/evaluation/evaluation.py:39-40 | storing keeps the scenario keys distinct |
| `Evaluation.StoreOutputGet` | langmodels/evaluation/evaluation.py:39-40 | each customization's result is under `Scenario(metric, customization)`, and other metrics' scenarios are untouched |
| `Evaluation.StoreOutputKeys` | langmodels/evaluation/evaluation.py:39-40 | every stored scenario was there before or belongs to the metric |
| `Evaluation.LineEvaluation` | langmodels/evaluation/evaluation.py:32-41 | the evaluation's text is the line |
| `Evaluation.MetricStepSpec` | langmodels/evaluation/evaluation.py:38-39 | one pass of the loop raises `KeyError` for an unknown name, and otherwise is the run of the metric registered under the name |
| `Evaluation.EvalLineSpec` | langmodels/evaluation/evaluation.py:36-41 | the line raises iff the loop reaches a step that raises, and then with that step's exception, no earlier step having raised; an unknown name always makes it raise, and `KeyError` iff a name is unknown only when the metrics never raise; on success distinct scenarios, each of a requested metric |
| `Evaluation.StoreMetricOutput` | langmodels/evaluation/evaluation.py:39-40 | the inner loop computes `StoreOutput` |
| `Evaluation.EvaluateModelOnLine` | langmodels/evaluation/evaluation.py:32-41 | the metric loop computes `LineEvaluation` |
| `Evaluation.TextLines` | langmodels/evaluation/evaluation.py:57 | at least one text to evaluate |
| `Evaluation.EvaluatedTexts` | langmodels/evaluation/evaluation.py:41 | the text of each evaluation |
| `Evaluation.EvalLines` | langmodels/evaluation/evaluation.py:60-63 | one evaluation per remaining line |
| `Evaluation.EvalLinesTexts` | langmodels/evaluation/evaluation.py:60-63 | the evaluations come out in line order |
| `Evaluation.EvalLinesEofOnLast` | langmodels/evaluation/evaluation.py:60-62 | the loop is every line but the last with `append_eof` off, then the last with the caller's flag |
| `Evaluation.PerLineEvaluations` | langmodels/evaluation/evaluation.py:57-64 | per line: one evaluation per `'\n'`-separated line, in order, whose texts join back to the text |
| `Evaluation.AppendEofOnLastLine` | langmodels/evaluation/evaluation.py:57-63 | per line, only the last line gets `append_eof`, and only when the caller asks for it |
| `Evaluation.WholeTextIsOneLine` | langmodels/evaluation/evaluation.py:57-64 | without splitting, exactly one evaluation of the whole text |
| `Evaluation.EvaluateModelOnString` | langmodels/evaluation/evaluation.py:44-64 | the line loop computes `StringEvaluation` |
| `Evaluation.EvaluateModelOnFile` | langmodels/evaluation/evaluation.py:67-74 | the contents are evaluated with the suffix and `append_eof`; unsplit, that is the file as one line |
| `Evaluation.FormatPostfixAsWrittenIsEmpty` | langmodels/evaluation/evaluation.py:77-82 | as written, the postfix is empty for every input |
| `Evaluation.FormatPostfixDiscrepancy` | langmodels/evaluation/evaluation.py:77-82 | one running figure: empty as written, labelled as intended |
| `Evaluation.FormatPostfixKeys` | langmodels/evaluation/evaluation.py:81-82 | corrected: distinct keys, empty iff there are no figures |
| `Evaluation.FormatPostfixCovers` | langmodels/evaluation/evaluation.py:81-82 | corrected: a label under every scenario's string form |
| `Evaluation.FormatPostfixOnlyShown` | langmodels/evaluation/evaluation.py:81-82 | corrected: every label is under some scenario's string form |
| `Evaluation.FormatPostfixValues` | langmodels/evaluation/evaluation.py:81-82 | corrected: with distinct string forms, each label is its scenario's formatted figure |
| `Evaluation.FileStatsKeys` | langmodels/evaluation/evaluation.py:119-120 | a file's figures are under its scenarios, in order |
| `Evaluation.PairAverageIsWeightedMean` | langmodels/evaluation/evaluation.py:124-125 | `avg_func` is `np.average` of the two values weighted by the two counts |
| `Evaluation.MergeEntrySpec` | langmodels/evaluation/evaluation.py:123-125 | a scenario missing from the file raises `KeyError`, zero total count raises `ZeroDivisionError`, otherwise counts add and the value is the weighted mean |
| `Evaluation.MergeEntries` | langmodels/evaluation/evaluation.py:123-125 | the merge outcome of each cumulative entry |
| `Evaluation.MergeEntrySucceeded` | langmodels/evaluation/evaluation.py:124-125 | a successful merge is the count-weighted merge |
| `Evaluation.MergeFileFigures` | langmodels/evaluation/evaluation.py:122-127 | a file lacking a cumulative scenario fails; on success the scenarios keep their order and each is merged |
| `Evaluation.MergeFileKeys` | langmodels/evaluation/evaluation.py:122-125 | merging keeps the scenario keys |
| `Evaluation.MergeInto` | langmodels/evaluation/evaluation.py:122-125 | the in-place loop computes `MergeFile` |
| `Evaluation.EvaluateAndMerge` | langmodels/evaluation/evaluation.py:116-127 | the loop body computes `FileStep` and keeps the keys distinct |
| `Evaluation.EvaluateModelOnPath` | langmodels/evaluation/evaluation.py:104-131 | the file loop computes `PathEvaluation`, with the corrected postfix shown per file |
| `Evaluation.FileStepEvaluated` | langmodels/evaluation/evaluation.py:116-127 | a successful step evaluated the file and merged exactly its figures |
| `Evaluation.EvalPathRolls` | langmodels/evaluation/evaluation.py:113-127 | a successful loop evaluated every file and its result rolls up their figures |
| `Evaluation.TalliesStep` | langmodels/evaluation/evaluation.py:124-125 | one merge folds one file's figure into a scenario's tally |
| `Evaluation.RollFigures` | langmodels/evaluation/evaluation.py:122-125 | rolling keeps the scenarios and folds in every file's figure for each |
| `Evaluation.RollFromEmpty` | langmodels/evaluation/evaluation.py:122-127 | from no figures, each scenario appears once with the tally of all files |
| `Evaluation.RollFromFirst` | langmodels/evaluation/evaluation.py:126-127 | taking the first file's figures and rolling the rest tallies every file |
| `Evaluation.TalliesFromFirst` | langmodels/evaluation/evaluation.py:127 | the first figures start a scenario's tally from nothing |
| `Evaluation.PathFigures` | langmodels/evaluation/evaluation.py:104-131 | no files raises; a result has each scenario once, with the total count over all files and the count-weighted mean |
| `Evaluation.EvaluateModelOnProjectSet` | langmodels/evaluation/evaluation.py:85-101 | the project loop computes `ProjectSetEvaluation` |
| `Evaluation.EvalProjectsKeys` | langmodels/evaluation/evaluation.py:97-100 | every remaining project is stored in order under its name, none empty |
| `Evaluation.ProjectSetKeys` | langmodels/evaluation/evaluation.py:85-101 | `ValueError` for a non-directory path and for no projects; otherwise every project under its name, in listing order, none empty |

## Left out

- The neural network, the cross-entropy and `to_binary_entropy`. They are an entropy oracle over the history of fed ids. The hidden state is that history.
- `beam_search`. It is a parameter returning padded id rows and scores, computed from the fed history and the cursor.
  - The source passes the live network to it (`langmodels/model.py:475`), and its code is not part of this model. The model takes it to leave the network's hidden state, the cursor and the context log as it found them. `Model.TrainedModel.PredictNextFullToken` therefore changes nothing, and `Model.PredictAndFeed`, `Model.PredictAndFeedFinalState`, `Model.PredictionsPrecedeFeeding` and the predictor of `Metrics.FullTokenMrr` rest on that.
- `1 / exp(score)`. This is the parameter `toProbability`.
- Floating point. Averages use `real`, so no result is claimed to be bit-exact.
  - numpy's `inf`/`nan` outcomes are reported as `NonFiniteResult`.
- The `threading.Lock`. The methods are sequential.
- Tokenisation (`prep_text`), `chunk_prepped_tokens`, `ModelContext.size`, `is_terminal_subtoken` and `placeholders`. They are parameters.
  - `is_terminal_subtoken` is given once, to the `TrainedModel` constructor, and the methods that decode suggestions require the `Decoder`'s predicate to be that one.
  - The `units` and `fullTokens` arguments are the prepared text. Token types are not modelled.
  - `get_iterator` of the prepared sequence is not part of this model. With `formatter=sum` it is `Model.SumPerUnit`. Over the context-usage plan it is `Model.PerUnit`, which reads one value per unit in order.
- `FullWordIterator`. It is not part of this model; words are slices between consecutive boundaries.
- `bin_entropy` and `full_token_mrr` are stated against abstract model functions, because their calls into the model do not match `model.py`'s signatures.
  - For `full_token_mrr`, the predictor maps the full tokens fed so far to the predicted strings.
  - For `bin_entropy`, `LineEntropies` gives the entropies of a prepared line. `get_entropies_for_prep_text` with one argument is not part of this model.
  - `feed_text` is not modelled as a method.
- Model loading and file I/O: reading configs, `Vocab.load`, `_load_model`, `convert_weights`, and the initial snapshot.
  - The constructor takes the original vocabulary and the starting token.
- `read_file_contents`, `get_all_files` and `os.walk`.
  - Files are `SourceFile` values.
  - A directory listing is an optional list of names, with none for a file or a missing path.
  - The files of each project come from the parameter `filesOf`.
- `check_inference_possible_for_file_type` in `evaluate_model_on_file`. Its result is discarded, so it has no effect.
- tqdm progress bars. The postfixes set on the bar are returned as a list.
  - `str` of a scenario and the `.2f` formatting are the parameters `show` and `fmt`.
  - `evaluate_model_on_project_set` does not return the postfixes of its projects.
- Metric sets are sequences, in the iteration order of the set.
- `ModelDescription`, the config helpers, `prep_corpus` and the CLI.
- `Model.FeedTokens`: requires a non-empty token sequence. On an empty one the source would run the network on an empty input and leave an empty cursor tensor; that is not modelled. The modelled caller, `get_predictions_and_feed`, feeds the sub-tokens of one full token, of which there is at least one (`langmodels/model.py:356`). `feed_text` (`langmodels/model.py:381-385`) is not modelled, and it can pass an empty sequence for an empty text. `Model.FeedAllCons` and `Model.PredictAndFeed` inherit this requirement.
- `Model.TrainedModel.FeedPrepTokens`: its `requires` excludes the empty token sequence that `_feed_prep_tokens` accepts, for the reason given for `Model.FeedTokens`.
- `Metrics.RankOf`: does not state that a found rank stays below `maxsize` (every prediction list here is shorter).
- `Evaluation.MetricNameRoundTrip`: requires distinct registered names, as a Python dictionary has.
- `Evaluation.EvaluateAndMerge`: requires distinct cumulative scenarios, as a Python dictionary has.
- `Evaluation.MergeInto`: requires distinct cumulative scenarios, as a Python dictionary has.
- `Evaluation.ProjectSetKeys`: states the keys of the result only for directory names listed once each, as a directory listing gives them.
- `Evaluation.FormatPostfixValues`: states each label only when distinct scenarios have distinct string forms. Otherwise a later label overwrites an earlier one, as in the source.
- `Evaluation.EvaluateModelOnPath`: shows the corrected postfix (`Evaluation.FormatPostfix`) for each file, as the Findings table gives it. The code as written shows an empty postfix at every file, as `Evaluation.FormatPostfixAsWrittenIsEmpty` states. `Evaluation.EvalPath` does the same.
- `Evaluation.EvaluateModelOnLine`: when a later metric name is unknown (`KeyError`) or a later metric raises, the result is the error alone. The changes that the earlier metrics of the line made to the model's state are not returned with it, though the Python object keeps them.
- `ContextWindow.ContextUsage`: fields are natural numbers, so plans with negative fields are not modelled.
  - Some such plans stop, such as `(-1, 1, 0, 0)`, which yields `[-1]`.
  - Others never stop, for example when `reset_at <= 0` and a reset is still due: `(-3, -1, 1, -2)` wraps to 0 and then counts up past `reset_at`.
  - Every plan `get_entropies_for_text` builds has non-negative fields. The context size is at least 0, and the guard at `langmodels/model.py:391` makes `max_context_allowed` at least the context size. An empty chunk list raises `IndexError` at `langmodels/model.py:403` (`chunked_prepped_tokens[-1]`), so no plan with `reset_times = -1` is ever built.

## Findings

| source | as written | input that shows it | evidently intended | confidence | as-written member | corrected member |
|---|---|---|---|---|---|---|
| langmodels/evaluation/evaluation.py:78-79 | `if current_metrics: return {}` returns the empty postfix whenever there are figures, and the comprehension only runs on an empty dictionary, so the progress bar never shows a figure | one running figure, for example a single scenario with value 1.5 over 2 values | `if not current_metrics: return {}`, so that every scenario's figure is labelled | not executed | `Evaluation.FormatPostfixDiscrepancy` | `Evaluation.FormatPostfixKeys` |
