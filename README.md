# Next-token prediction, softmax formatting and metric bar charts

This project models three small pieces of an LLM-visualisation server.

- **The next-token-prediction component.** It keeps the text generated so far (the
  *context*) and lets the page append a chosen token to it through `select`. `fetch`
  reports the context and the model's predicted continuations. It also turns a
  probability vector into the `n` most probable tokens. The component's `name` is
  `"next_token_prediction"` and its `title` is `"Next Token Prediction"`.
- **The softmax formatter.** It turns a probability vector into the list of most
  probable words. It keeps a `changed` flag that is set when the list is assigned and
  cleared when the list is formatted for the client.
- **The metrics mixin.** It orders the metrics: generated-text metrics first, then
  probability metrics. It keeps one checkbox per metric, ticked at start. For every
  candidate output it assembles one bar-chart *piece*: one bar per ticked metric, in
  ordering order.

Both top-N operations call `heapq.nlargest(n, zip(probs, vocab), key=first)`. Python
documents this call as `sorted(..., reverse=True)[:n]`. The shared module `TopN`
models it as a stable descending sort of positions, followed by a prefix:

- ties keep vocabulary order;
- `zip` stops at the shorter of the probabilities and the vocabulary;
- `n <= 0` selects nothing.

Modules:

- `TopN` (`top_n.dfy`): stable top-N selection, proved to be the unique stable
  descending order cut to length `n`.
- `NextToken` (`next_token_prediction.dfy`): class `NextTokenPredictionComponent`.
- `Softmax` (`softmax_formatter.dfy`): class `SoftmaxFormatter`.
- `Metrics` (`metrics_mixin.dfy`): class `MetricsMixin`, with a `BarChartElement`
  stand-in holding the displayed pieces.

How the model represents the source:

- Python dicts are `Dict(keys, entries)`: the insertion order plus a map.
- Tensors are `seq<real>` and floats are `real`.
- The component's hooks (`append_to_context`, `get_next_token_predictions`) are function
  values fixed at construction.
- Metric functions and `str.format` are also function values (`metricCalculation`,
  `applyFormat`).

Two behaviours of the code are easy to miss:

- **No lower clamp on bar heights.** A scalable metric's bar height is
  `min(result * 100, 100)`, capped from above only, so a negative value gives a negative
  bar (`Metrics.NegativeScalableHeight`).
- **Mismatched lengths are truncated.** When the probability vector and the vocabulary
  differ in length, `zip` silently truncates to the shorter one and nothing is raised
  (`NextToken.ExtraProbabilitiesIgnored`, `NextToken.ExtraVocabularyIgnored`).

## Model

| member | source | states |
|---|---|---|
| TopN.Insert | llm_generation_server/next_token_prediction_component.py:65-69 | inserting a position adds exactly that position: one entry longer, same members plus the new one, all in range |
| TopN.SortIndices | llm_generation_server/next_token_prediction_component.py:65-69 | the stable sort yields positions in range |
| TopN.NLargest | llm_generation_server/next_token_prediction_component.py:65-69 | `nlargest` selects `min(n, len)` positions (none for `n <= 0`); they are distinct and stably descending (keys non-increasing, ties by position); every chosen position precedes every position left out |
| TopN.ZipNLargest | llm_generation_server/next_token_prediction_component.py:65-69 | selection over `zip(probs, vocab)`: only the first `min(len(probs), len(vocab))` positions take part; distinct indices; non-increasing probabilities; ties in vocabulary order; top-N against every unchosen position |
| TopN.PrefixKeys | llm_generation_server/next_token_prediction_component.py:67 | a selection made on the zipped prefix of the vector keeps its order and top-N properties on the whole vector |
| TopN.InsertSorted | llm_generation_server/next_token_prediction_component.py:65-69 | inserting a later position keeps the sequence stably descending |
| TopN.SortIndicesMembers | llm_generation_server/next_token_prediction_component.py:65-69 | the sort lists each position below `m` exactly once |
| TopN.SortIndicesSorted | llm_generation_server/next_token_prediction_component.py:65-69 | the sort is stably descending |
| TopN.StablyDescendingDistinct | llm_generation_server/next_token_prediction_component.py:65-69 | a stably descending list repeats no position |
| TopN.PrefixIsTop | llm_generation_server/next_token_prediction_component.py:65-69 | a prefix of the full stable order holds the top entries |
| TopN.StableOrderUnique | llm_generation_server/next_token_prediction_component.py:65-69 | two stably descending orders of the same positions are equal |
| TopN.NLargestIsSortedPrefix | llm_generation_server/next_token_prediction_component.py:65-69 | `nlargest(n, ...)` equals the first `n` entries of ANY stable descending sort (`sorted(..., reverse=True)[:n]`) |
| TopN.TopTwoOfThree | llm_generation_server/next_token_prediction_component.py:65-69 | the two largest of `[0.1, 0.7, 0.2]` are at positions 1 then 2 |
| NextToken.NextTokenPredictionComponent.constructor | llm_generation_server/next_token_prediction_component.py:15-17 | stores `n` and the hooks; no vocabulary and no context yet |
| NextToken.NextTokenPredictionComponent.InitializeVocab | llm_generation_server/next_token_prediction_component.py:72-80 | the vocabulary hook's documented effect: `word_vocab` is set |
| NextToken.NextTokenPredictionComponent.InitializeContext | llm_generation_server/next_token_prediction_component.py:58-59 | the context becomes exactly `c` |
| NextToken.NextTokenPredictionComponent.FormatContext | llm_generation_server/next_token_prediction_component.py:61-62 | the default rendering is the identity |
| NextToken.NextTokenPredictionComponent.Fetch | llm_generation_server/next_token_prediction_component.py:40-45 | answers "success", the context and the predictions for it; changes nothing |
| NextToken.NextTokenPredictionComponent.Select | llm_generation_server/next_token_prediction_component.py:47-56 | the context becomes `append_to_context(old, token)`; answers with the new context and its predictions |
| NextToken.NextTokenPredictionComponent.CreateContinuations | llm_generation_server/next_token_prediction_component.py:64-70 | item `k` is `(vocab[i], probs[i] * 100)` for the `k`-th selected index `i`; length `min(n, len(probs), len(vocab))` (0 for `n <= 0`); probabilities non-increasing; no unselected probability exceeds a returned one |
| NextToken.FetchTwice | llm_generation_server/next_token_prediction_component.py:40-45 | two fetches in a row return identical payloads |
| NextToken.SelectThenFetch | llm_generation_server/next_token_prediction_component.py:40-56 | `select` answers exactly what a following `fetch` returns |
| NextToken.ExtraProbabilitiesIgnored | llm_generation_server/next_token_prediction_component.py:67 | probabilities beyond the vocabulary's length are ignored, with no error |
| NextToken.ExtraVocabularyIgnored | llm_generation_server/next_token_prediction_component.py:67 | vocabulary words beyond the vector's length are ignored: a component with extra words answers as one without them |
| NextToken.TwoOfThree | llm_generation_server/next_token_prediction_component.py:64-70 | vocabulary `a b c`, probabilities `0.1 0.7 0.2`, `n = 2` gives `[("b", 70), ("c", 20)]` |
| Softmax.SoftmaxFormatter.constructor | llm_generation_server/formatters/softmax_formatter.py:17-30 | stores `n`, the endpoint URL and `long_tokens` as passed; possibilities empty |
| Softmax.SoftmaxFormatter.SetPossibilities | llm_generation_server/formatters/softmax_formatter.py:32-39 | the getter returns the assigned value and `changed` is set |
| Softmax.SoftmaxFormatter.AssignWordsToProbs | llm_generation_server/formatters/softmax_formatter.py:41-45 | item `k` is `(long_tokens, vocab[i], [probs[i] * 100])` for the `k`-th selected index; length formula; `probs[0]` non-increasing; top-N; changes no state |
| Softmax.SoftmaxFormatter.Format | llm_generation_server/formatters/softmax_formatter.py:47-53 | clears `changed`; emits the name, type `"softmax"`, the current possibilities and the endpoint URL; possibilities unchanged |
| Softmax.FormatTwice | llm_generation_server/formatters/softmax_formatter.py:47-53 | formatting twice gives equal results and leaves the flag cleared |
| Softmax.AssignThenFormat | llm_generation_server/formatters/softmax_formatter.py:36-53 | assigning the top-N list and formatting sends exactly that list |
| Metrics.CreateOrdering | visuallm/components/mixins/metrics_mixin.py:72-79 | generated-text keys in order, then probability keys in order; length is the sum |
| Metrics.OrderingNames | visuallm/components/mixins/metrics_mixin.py:72-79 | a name is in the ordering iff it is a key of either dict |
| Metrics.SelectedNames | visuallm/components/mixins/metrics_mixin.py:146-149 | the ticked names of the ordering, drawn from the ordering |
| Metrics.SelectedNamesMembers | visuallm/components/mixins/metrics_mixin.py:146-149 | a name is shown iff it is in the ordering and its checkbox is ticked |
| Metrics.SelectedNamesAppend | visuallm/components/mixins/metrics_mixin.py:146-149 | selection keeps the ordering order (it distributes over concatenation) |
| Metrics.SelectedNamesAll | visuallm/components/mixins/metrics_mixin.py:146-149 | with all boxes ticked, every metric is shown in ordering order |
| Metrics.UntickHidesMetric | visuallm/components/mixins/metrics_mixin.py:146-149 | unticking one box removes exactly that metric from the shown names |
| Metrics.MinReal | visuallm/components/mixins/metrics_mixin.py:163 | Python's two-argument `min`: no larger than either argument and equal to one of them |
| Metrics.Zip3 | visuallm/components/mixins/metrics_mixin.py:134-142 | the three-way `zip`: as long as the shortest list, entry `k` is the `k`-th entries of the three lists |
| Metrics.PieceFor | visuallm/components/mixins/metrics_mixin.py:143-175 | one candidate's piece: titled by its text, named by the given bars, equal-length lists, every height at most 100, bar `j` equal to `MetricBar` of name `j` |
| Metrics.MetricBar | visuallm/components/mixins/metrics_mixin.py:151-166 | height at most 100; exactly 100 for a non-scalable metric |
| Metrics.GeneratedTextMetricWins | visuallm/components/mixins/metrics_mixin.py:151-160 | a name in both dicts is computed as a generated-text metric on `(generated_text, label_text)` |
| Metrics.NegativeScalableHeight | visuallm/components/mixins/metrics_mixin.py:162-163 | a negative scalable result gives a negative bar (no lower clamp) |
| Metrics.MetricsMixin.constructor | visuallm/components/mixins/metrics_mixin.py:46-64 | the ordering is `CreateOrdering` of the two dicts; one checkbox per ordering name, ticked; two distinct, empty chart elements |
| Metrics.MetricsMixin.PrepareMetricsSelectionFrontend | visuallm/components/mixins/metrics_mixin.py:81-92 | the loop creates exactly one checkbox `(name, True)` per ordering name |
| Metrics.MetricsMixin.SetSelected | visuallm/components/mixins/metrics_mixin.py:147 | stand-in for the posted checkbox value: only that box's `selected` changes |
| Metrics.BarChartElement.SetPieceInfos | visuallm/components/mixins/metrics_mixin.py:177 | stand-in for `set_piece_infos`: the element holds exactly the given pieces |
| Metrics.MetricsMixin.Pieces | visuallm/components/mixins/metrics_mixin.py:133-175 | as many pieces as the shortest candidate list; piece `k` is the `PieceFor` of the `k`-th entries of the three lists, with the ticked names in ordering order |
| Metrics.MetricsMixin.ComputePieces | visuallm/components/mixins/metrics_mixin.py:133-175 | the outer loop, with `ComputePiece` as its body, builds exactly the pieces `Pieces` defines: piece `k` for zipped candidate `k`, one bar per ticked metric |
| Metrics.MetricsMixin.ComputePiece | visuallm/components/mixins/metrics_mixin.py:143-175 | the inner loop builds the piece of one candidate: one bar per ticked name, in ordering order |
| Metrics.MetricsMixin.ComputeBar | visuallm/components/mixins/metrics_mixin.py:151-166 | the loop body's metric dispatch produces exactly the `MetricBar` of that name |
| Metrics.SelectedNamesStep | visuallm/components/mixins/metrics_mixin.py:146-149 | one more ordering name joins the selection exactly when its box is ticked |
| Metrics.MetricsMixin.ComputeNDisplayMetricsForElement | visuallm/components/mixins/metrics_mixin.py:113-177 | the element given ends up holding those pieces |
| Metrics.MetricsMixin.ComputeNDisplayMetricsOnPredicted | visuallm/components/mixins/metrics_mixin.py:179-203 | the predicted chart gets the pieces; the target chart is untouched |
| Metrics.MetricsMixin.ComputeNDisplayMetricsOnTarget | visuallm/components/mixins/metrics_mixin.py:205-227 | the target chart gets the pieces of `[target]` against `target`, at most one; the predicted chart is untouched |
| Metrics.PieceShape | visuallm/components/mixins/metrics_mixin.py:143-166 | a piece is titled by its text; names, heights and annotations have equal lengths; names are exactly the ticked metrics; every height is at most 100 |
| Metrics.PiecesShape | visuallm/components/mixins/metrics_mixin.py:134-175 | as many pieces as the shortest zipped list; piece `k` is titled `generated_text_list[k]` and lists the ticked names in ordering order |
| Metrics.TargetPieces | visuallm/components/mixins/metrics_mixin.py:221-227 | the target variant yields at most one piece, titled `target` |

## Left out

- Flask and HTTP plumbing (`init_app`, `add_endpoint`, `jsonify`, `request.get_json`): the posted token is a plain parameter and the payload a plain return value.
- The component's abstract hooks (`initialize_vocab`, `append_to_context`, `get_next_token_predictions`) are uninterpreted function values or, for the vocabulary, a setter. The language model behind them is external.
- NextToken.NextTokenPredictionComponent.CreateContinuations: requires the vocabulary to be set. With `word_vocab` still `None`, its value after construction, Python's `zip(probs, None)` raises `TypeError`; the model does not capture that failure.
- Default arguments are not modelled. These are `n_largest_tokens_to_return = 10` for the component, `long_tokens = False` for the formatter, and empty metric dicts for the mixin. Every constructor takes these values explicitly.
- Reading the context before `initialize_context` raises `AttributeError` in Python. `Fetch` and `Select` instead require an initialised context.
- The base `Formatter` class is not part of this model. The formatter's `name` is a constructor parameter, and the initial value of `changed` is left unconstrained.
- `endpoint_callback` and `SoftmaxFormatter.add_endpoint`: these are server wiring.
- Metric functions, torch tensors and `str.format`: these are foreign code, kept as uninterpreted functions over `seq<real>` and `real`.
- Floating-point rounding of `* 100` and `min`: values are mathematical reals.
- The heading, plain-text and button elements, and the `metrics_selection_elements` / `metrics_display_elements` properties: these only list elements for the page.
- `BarChartElement` and `CheckBoxSubElement` are not part of this model. They are replaced by a piece-list stand-in and a `(name, selected)` record, with `MetricsMixin.SetSelected` standing in for the page posting a checkbox value.
- The abstract `metrics_processing_callback`: it has no body to model.
- The example components and `app.py`: they hold downloading, random data, tokenizer calls and global server wiring.
- The code raises no dimension-mismatch, invalid-selection or per-metric error, so none is modelled; the Python errors it does raise for an unset vocabulary or context are listed above.
