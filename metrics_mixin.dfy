/** The metrics mixin: the user ticks, one checkbox per metric, which metrics are shown;
    for every candidate text the selected metrics are computed and drawn as one piece of
    a bar chart. There are two families of metrics: metrics on the generated text (given
    the generated text and the gold text) and metrics on probabilities (given the
    probability and id tensors). Metric functions and Python's `str.format` are foreign
    and enter the model as function values. */
module Metrics {
  import opened TopN

  /** A Python dict keyed by metric name: its keys in insertion order and its entries. */
  datatype Dict<V> = Dict(keys: seq<string>, entries: map<string, V>) {
    ghost predicate Valid()
    {
      && (forall i, j :: 0 <= i < j < |keys| ==> keys[i] != keys[j])
      && (forall name :: name in entries <==> name in keys)
    }
  }

  /** A tensor handed to a probability metric. */
  type Tensor = seq<real>

  /** `format` is the display format of the value; a scalable metric's bar height follows
      the value, any other metric's bar is drawn full height. */
  datatype GeneratedTextMetric =
    GeneratedTextMetric(format: string, scalable: bool, metricCalculation: (string, string) -> real)

  datatype ProbsMetric =
    ProbsMetric(format: string, scalable: bool, metricCalculation: (Tensor, Tensor) -> real)

  /** One group of bars in a bar chart. */
  datatype PieceInfo =
    PieceInfo(pieceTitle: string, barHeights: seq<real>, barAnnotations: seq<string>, barNames: seq<string>)

  /** One bar: its height and the formatted metric value written on it. */
  datatype Bar = Bar(height: real, annotation: string)

  /** Stand-in for a checkbox element: its label and whether it is ticked. */
  datatype CheckBox = CheckBox(name: string, selected: bool)

  /** Python's `min(a, b)`: `a` unless `b` is strictly smaller. */
  function MinReal(a: real, b: real): (r: real)
    ensures r <= a && r <= b && (r == a || r == b)
  {
    if b < a then b else a
  }

  /** Display order of the metrics: the generated-text metrics in dict order, then the
      probability metrics in dict order. */
  function CreateOrdering<U, W>(onGeneratedText: Dict<U>, onProbs: Dict<W>): (r: seq<string>)
    ensures |r| == |onGeneratedText.keys| + |onProbs.keys|
    ensures r[..|onGeneratedText.keys|] == onGeneratedText.keys
    ensures r[|onGeneratedText.keys|..] == onProbs.keys
  {
    onGeneratedText.keys + onProbs.keys
  }

  /** Every name in the ordering is a metric of one of the two dicts, and every metric
      of either dict is in the ordering. */
  lemma OrderingNames<U, W>(onGeneratedText: Dict<U>, onProbs: Dict<W>)
    requires onGeneratedText.Valid() && onProbs.Valid()
    ensures forall name :: name in CreateOrdering(onGeneratedText, onProbs) <==>
                           name in onGeneratedText.entries || name in onProbs.entries
  {
  }

  /** The names of `ordering` whose checkbox is ticked, in ordering order. */
  function SelectedNames(ordering: seq<string>, boxes: map<string, CheckBox>): (r: seq<string>)
    requires forall name :: name in ordering ==> name in boxes
    ensures forall name :: name in r ==> name in ordering
  {
    if ordering == [] then []
    else
      assert ordering == ordering[..|ordering| - 1] + [ordering[|ordering| - 1]];
      var last := ordering[|ordering| - 1];
      var rest := SelectedNames(ordering[..|ordering| - 1], boxes);
      if boxes[last].selected then rest + [last] else rest
  }

  /** A name is shown exactly when it is in the ordering and its checkbox is ticked. */
  lemma {:induction false} SelectedNamesMembers(ordering: seq<string>, boxes: map<string, CheckBox>)
    requires forall name :: name in ordering ==> name in boxes
    ensures forall name :: name in SelectedNames(ordering, boxes) <==>
                           name in ordering && boxes[name].selected
  {
    if ordering != [] {
      var front := ordering[..|ordering| - 1];
      SelectedNamesMembers(front, boxes);
      assert ordering == front + [ordering[|ordering| - 1]];
    }
  }

  /** Selection keeps the ordering: selecting from two consecutive parts of the ordering
      gives the two selections one after the other. */
  lemma {:induction false} SelectedNamesAppend(a: seq<string>, b: seq<string>, boxes: map<string, CheckBox>)
    requires forall name :: name in a + b ==> name in boxes
    ensures SelectedNames(a + b, boxes) == SelectedNames(a, boxes) + SelectedNames(b, boxes)
  {
    if b == [] {
      assert a + b == a;
    } else {
      var front := b[..|b| - 1];
      SelectedNamesAppend(a, front, boxes);
      assert (a + b)[..|a + b| - 1] == a + front;
    }
  }

  /** With every checkbox ticked, all metrics are shown in ordering order. */
  lemma {:induction false} SelectedNamesAll(ordering: seq<string>, boxes: map<string, CheckBox>)
    requires forall name :: name in ordering ==> name in boxes && boxes[name].selected
    ensures SelectedNames(ordering, boxes) == ordering
  {
    if ordering != [] {
      var front := ordering[..|ordering| - 1];
      SelectedNamesAll(front, boxes);
      assert ordering == front + [ordering[|ordering| - 1]];
    }
  }

  /** One more name of the ordering adds it to the selection exactly when it is ticked. */
  lemma SelectedNamesStep(ordering: seq<string>, i: int, boxes: map<string, CheckBox>)
    requires 0 <= i < |ordering|
    requires forall name :: name in ordering ==> name in boxes
    ensures SelectedNames(ordering[..i + 1], boxes) ==
              SelectedNames(ordering[..i], boxes) + (if boxes[ordering[i]].selected then [ordering[i]] else [])
  {
    assert ordering[..i + 1][..i] == ordering[..i];
  }

  /** One candidate as `zip` hands it to the loop: the generated text, the probability
      tensor and the id tensor. */
  datatype Candidate = Candidate(generatedText: string, labelsEncoded: Tensor, generatedEncoded: Tensor)

  /** Python's `zip` of the three candidate lists: it stops at the shortest. */
  function Zip3(generatedTextList: seq<string>, probsEncodedList: seq<Tensor>,
                generatedEncodedList: seq<Tensor>): (r: seq<Candidate>)
    ensures |r| <= |generatedTextList| && |r| <= |probsEncodedList| && |r| <= |generatedEncodedList|
    ensures |r| == |generatedTextList| || |r| == |probsEncodedList| || |r| == |generatedEncodedList|
    ensures forall k :: 0 <= k < |r| ==>
              r[k] == Candidate(generatedTextList[k], probsEncodedList[k], generatedEncodedList[k])
  {
    var n := Min(Min(|generatedTextList|, |probsEncodedList|), |generatedEncodedList|);
    seq(n, k requires 0 <= k < n =>
          Candidate(generatedTextList[k], probsEncodedList[k], generatedEncodedList[k]))
  }

  /** The bar of metric `name` for one candidate. A generated-text metric of that name
      is computed from the generated and the gold text and wins over a probability metric
      of the same name; otherwise the probability metric is computed from the two
      tensors. A scalable metric's height is the value times 100, capped at 100 (with no
      lower bound); any other metric's bar is 100 high. The annotation is the value
      rendered with the metric's format. */
  function MetricBar(onGeneratedText: Dict<GeneratedTextMetric>, onProbs: Dict<ProbsMetric>,
                     applyFormat: (string, real) -> string, name: string,
                     candidate: Candidate, labelText: string): (bar: Bar)
    requires name in onGeneratedText.entries || name in onProbs.entries
    ensures bar.height <= 100.0
    ensures var scalable := if name in onGeneratedText.entries then onGeneratedText.entries[name].scalable
                            else onProbs.entries[name].scalable;
            !scalable ==> bar.height == 100.0
  {
    if name in onGeneratedText.entries then
      var d := onGeneratedText.entries[name];
      var result := d.metricCalculation(candidate.generatedText, labelText);
      Bar(if d.scalable then MinReal(result * 100.0, 100.0) else 100.0, applyFormat(d.format, result))
    else
      var d := onProbs.entries[name];
      var result := d.metricCalculation(candidate.labelsEncoded, candidate.generatedEncoded);
      Bar(if d.scalable then MinReal(result * 100.0, 100.0) else 100.0, applyFormat(d.format, result))
  }

  /** The piece of one candidate: titled by its generated text, one bar per name of
      `barNames`. */
  function PieceFor(onGeneratedText: Dict<GeneratedTextMetric>, onProbs: Dict<ProbsMetric>,
                    applyFormat: (string, real) -> string, barNames: seq<string>,
                    candidate: Candidate, labelText: string): (p: PieceInfo)
    requires Known(onGeneratedText, onProbs, barNames)
    ensures p.pieceTitle == candidate.generatedText && p.barNames == barNames
    ensures |p.barHeights| == |barNames| && |p.barAnnotations| == |barNames|
    ensures forall j :: 0 <= j < |barNames| ==> p.barHeights[j] <= 100.0
    ensures forall j :: 0 <= j < |barNames| ==>
              Bar(p.barHeights[j], p.barAnnotations[j]) ==
                MetricBar(onGeneratedText, onProbs, applyFormat, barNames[j], candidate, labelText)
  {
    PieceInfo(candidate.generatedText,
              seq(|barNames|, j requires 0 <= j < |barNames| =>
                    MetricBar(onGeneratedText, onProbs, applyFormat, barNames[j], candidate, labelText).height),
              seq(|barNames|, j requires 0 <= j < |barNames| =>
                    MetricBar(onGeneratedText, onProbs, applyFormat, barNames[j], candidate, labelText).annotation),
              barNames)
  }

  /** Every name is a metric of one of the two dicts. */
  predicate Known(onGeneratedText: Dict<GeneratedTextMetric>, onProbs: Dict<ProbsMetric>, names: seq<string>)
  {
    forall name :: name in names ==> name in onGeneratedText.entries || name in onProbs.entries
  }

  /** Heights and annotations agree one by one with the bars of `barNames`. */
  predicate BarsMatch(onGeneratedText: Dict<GeneratedTextMetric>, onProbs: Dict<ProbsMetric>,
                      applyFormat: (string, real) -> string, barNames: seq<string>,
                      candidate: Candidate, labelText: string,
                      barHeights: seq<real>, barAnnotations: seq<string>)
    requires Known(onGeneratedText, onProbs, barNames)
  {
    && |barHeights| == |barNames| && |barAnnotations| == |barNames|
    && forall j :: 0 <= j < |barNames| ==>
         Bar(barHeights[j], barAnnotations[j]) ==
           MetricBar(onGeneratedText, onProbs, applyFormat, barNames[j], candidate, labelText)
  }

  /** Appending the bar of one more metric keeps the bars in agreement. */
  lemma BarsMatchAppend(onGeneratedText: Dict<GeneratedTextMetric>, onProbs: Dict<ProbsMetric>,
                        applyFormat: (string, real) -> string, barNames: seq<string>,
                        candidate: Candidate, labelText: string,
                        barHeights: seq<real>, barAnnotations: seq<string>, name: string, bar: Bar)
    requires Known(onGeneratedText, onProbs, barNames)
    requires name in onGeneratedText.entries || name in onProbs.entries
    requires BarsMatch(onGeneratedText, onProbs, applyFormat, barNames, candidate, labelText,
                       barHeights, barAnnotations)
    requires bar == MetricBar(onGeneratedText, onProbs, applyFormat, name, candidate, labelText)
    ensures Known(onGeneratedText, onProbs, barNames + [name])
    ensures BarsMatch(onGeneratedText, onProbs, applyFormat, barNames + [name], candidate, labelText,
                      barHeights + [bar.height], barAnnotations + [bar.annotation])
  {
  }

  /** A piece whose bars agree one by one with `MetricBar` is the piece `PieceFor` builds. */
  lemma PieceForOfBars(onGeneratedText: Dict<GeneratedTextMetric>, onProbs: Dict<ProbsMetric>,
                       applyFormat: (string, real) -> string, barNames: seq<string>,
                       candidate: Candidate, labelText: string,
                       barHeights: seq<real>, barAnnotations: seq<string>)
    requires Known(onGeneratedText, onProbs, barNames)
    requires BarsMatch(onGeneratedText, onProbs, applyFormat, barNames, candidate, labelText,
                       barHeights, barAnnotations)
    ensures PieceFor(onGeneratedText, onProbs, applyFormat, barNames, candidate, labelText) ==
              PieceInfo(candidate.generatedText, barHeights, barAnnotations, barNames)
  {
  }

  /** Stand-in for the bar-chart element: the pieces it displays. */
  class BarChartElement {
    const longContexts: bool
    var pieceInfos: seq<PieceInfo>

    constructor (longContexts: bool)
      ensures this.longContexts == longContexts && pieceInfos == []
    {
      this.longContexts := longContexts;
      pieceInfos := [];
    }

    method SetPieceInfos(pieceInfos: seq<PieceInfo>)
      modifies this`pieceInfos
      ensures this.pieceInfos == pieceInfos
    {
      this.pieceInfos := pieceInfos;
    }
  }

  class MetricsMixin {
    const metricsOnGeneratedText: Dict<GeneratedTextMetric>
    const metricsOnProbs: Dict<ProbsMetric>
    const ordering: seq<string>
    /** Python's `str.format` applied to a format string and a metric value. */
    const applyFormat: (string, real) -> string
    const displayMetricsOnPredictedElement: BarChartElement
    const displayMetricsOnTargetElement: BarChartElement
    /** The metric checkboxes, by metric name. */
    var selectMetricsElements: map<string, CheckBox>

    ghost predicate Valid()
      reads this
    {
      && metricsOnGeneratedText.Valid() && metricsOnProbs.Valid()
      && ordering == CreateOrdering(metricsOnGeneratedText, metricsOnProbs)
      && (forall name :: name in ordering ==> name in selectMetricsElements)
      && (forall name :: name in ordering ==>
            name in metricsOnGeneratedText.entries || name in metricsOnProbs.entries)
      && displayMetricsOnPredictedElement != displayMetricsOnTargetElement
    }

    constructor (metricsOnGeneratedText: Dict<GeneratedTextMetric>, metricsOnProbs: Dict<ProbsMetric>,
                 applyFormat: (string, real) -> string)
      requires metricsOnGeneratedText.Valid() && metricsOnProbs.Valid()
      ensures Valid()
      ensures this.metricsOnGeneratedText == metricsOnGeneratedText
      ensures this.metricsOnProbs == metricsOnProbs
      ensures this.applyFormat == applyFormat
      ensures ordering == CreateOrdering(metricsOnGeneratedText, metricsOnProbs)
      ensures forall name :: name in selectMetricsElements <==> name in ordering
      ensures forall name :: name in ordering ==> selectMetricsElements[name] == CheckBox(name, true)
      ensures fresh(displayMetricsOnPredictedElement) && fresh(displayMetricsOnTargetElement)
      ensures displayMetricsOnPredictedElement.pieceInfos == []
      ensures displayMetricsOnTargetElement.pieceInfos == []
    {
      this.ordering := CreateOrdering(metricsOnGeneratedText, metricsOnProbs);
      this.metricsOnGeneratedText := metricsOnGeneratedText;
      this.metricsOnProbs := metricsOnProbs;
      this.applyFormat := applyFormat;
      this.displayMetricsOnPredictedElement := new BarChartElement(true);
      this.displayMetricsOnTargetElement := new BarChartElement(true);
      new;
      OrderingNames(metricsOnGeneratedText, metricsOnProbs);
      PrepareMetricsSelectionFrontend(ordering);
    }

    /** One ticked checkbox per name of `ordering`, and no other checkbox. */
    method PrepareMetricsSelectionFrontend(ordering: seq<string>)
      modifies this`selectMetricsElements
      ensures forall name :: name in selectMetricsElements <==> name in ordering
      ensures forall name :: name in ordering ==> selectMetricsElements[name] == CheckBox(name, true)
    {
      selectMetricsElements := map[];
      for i := 0 to |ordering|
        invariant forall name :: name in selectMetricsElements <==> name in ordering[..i]
        invariant forall name :: name in selectMetricsElements ==>
                    selectMetricsElements[name] == CheckBox(name, true)
      {
        selectMetricsElements := selectMetricsElements[ordering[i] := CheckBox(ordering[i], true)];
        assert ordering[..i + 1] == ordering[..i] + [ordering[i]];
      }
      assert ordering[..|ordering|] == ordering;
    }

    /** Stand-in for the checkbox element's `selected` value, which the page posts back. */
    method SetSelected(name: string, selected: bool)
      requires Valid() && name in selectMetricsElements
      modifies this`selectMetricsElements
      ensures Valid()
      ensures selectMetricsElements ==
                old(selectMetricsElements)[name := old(selectMetricsElements)[name].(selected := selected)]
    {
      selectMetricsElements := selectMetricsElements[name := selectMetricsElements[name].(selected := selected)];
    }

    /** One piece per candidate, each with one bar per ticked metric in ordering order:
        piece `k` is built from the `k`-th entries of the three candidate lists. */
    function Pieces(generatedTextList: seq<string>, labelText: string,
                    probsEncodedList: seq<Tensor>, generatedEncodedList: seq<Tensor>): (r: seq<PieceInfo>)
      reads this
      requires Valid()
      ensures |r| == Min(Min(|generatedTextList|, |probsEncodedList|), |generatedEncodedList|)
      ensures forall k :: 0 <= k < |r| ==>
                r[k] == PieceFor(metricsOnGeneratedText, metricsOnProbs, applyFormat,
                                 SelectedNames(ordering, selectMetricsElements),
                                 Candidate(generatedTextList[k], probsEncodedList[k], generatedEncodedList[k]),
                                 labelText)
    {
      var names := SelectedNames(ordering, selectMetricsElements);
      SelectedNamesMembers(ordering, selectMetricsElements);
      var candidates := Zip3(generatedTextList, probsEncodedList, generatedEncodedList);
      var onGeneratedText, onProbs, applyFormat := metricsOnGeneratedText, metricsOnProbs, applyFormat;
      seq(|candidates|, k requires 0 <= k < |candidates| =>
            PieceFor(onGeneratedText, onProbs, applyFormat, names, candidates[k], labelText))
    }

    /** The outer loop that assembles the pieces: one per zipped candidate. */
    method ComputePieces(generatedTextList: seq<string>, labelText: string,
                         probsEncodedList: seq<Tensor>, generatedEncodedList: seq<Tensor>)
        returns (pieceInfos: seq<PieceInfo>)
      requires Valid()
      ensures pieceInfos == Pieces(generatedTextList, labelText, probsEncodedList, generatedEncodedList)
    {
      var candidates := Zip3(generatedTextList, probsEncodedList, generatedEncodedList);
      ghost var names := SelectedNames(ordering, selectMetricsElements);
      pieceInfos := [];
      for k := 0 to |candidates|
        invariant |pieceInfos| == k
        invariant forall p :: 0 <= p < k ==>
                    pieceInfos[p] == PieceFor(metricsOnGeneratedText, metricsOnProbs, applyFormat,
                                              names, candidates[p], labelText)
      {
        var piece := ComputePiece(candidates[k], labelText);
        pieceInfos := pieceInfos + [piece];
      }
    }

    /** The inner loop: for each name of the ordering whose checkbox is ticked, one bar. */
    method ComputePiece(candidate: Candidate, labelText: string) returns (piece: PieceInfo)
      requires Valid()
      ensures piece == PieceFor(metricsOnGeneratedText, metricsOnProbs, applyFormat,
                                SelectedNames(ordering, selectMetricsElements), candidate, labelText)
    {
      var onGeneratedText, onProbs, boxes := metricsOnGeneratedText, metricsOnProbs, selectMetricsElements;
      assert forall name :: name in ordering ==> name in boxes;
      assert Known(onGeneratedText, onProbs, ordering);
      var barNames: seq<string> := [];
      var barAnnotations: seq<string> := [];
      var barHeights: seq<real> := [];
      for i := 0 to |ordering|
        invariant barNames == SelectedNames(ordering[..i], boxes)
        invariant Known(onGeneratedText, onProbs, barNames)
        invariant BarsMatch(onGeneratedText, onProbs, applyFormat, barNames, candidate, labelText,
                            barHeights, barAnnotations)
      {
        var name := ordering[i];
        SelectedNamesStep(ordering, i, boxes);
        if !boxes[name].selected {
          continue;
        }
        var height, annotation := ComputeBar(name, candidate, labelText);
        BarsMatchAppend(onGeneratedText, onProbs, applyFormat, barNames, candidate, labelText,
                        barHeights, barAnnotations, name, Bar(height, annotation));
        barNames := barNames + [name];
        barHeights := barHeights + [height];
        barAnnotations := barAnnotations + [annotation];
      }
      assert ordering[..|ordering|] == ordering;
      PieceForOfBars(onGeneratedText, onProbs, applyFormat, barNames, candidate, labelText,
                     barHeights, barAnnotations);
      piece := PieceInfo(candidate.generatedText, barHeights, barAnnotations, barNames);
    }

    /** The body of the inner loop for a ticked metric: its value, then its bar height and
        annotation. Its specification is `MetricBar`, which says the same dispatch as a
        function. */
    method ComputeBar(name: string, candidate: Candidate, labelText: string)
        returns (height: real, annotation: string)
      requires name in metricsOnGeneratedText.entries || name in metricsOnProbs.entries
      ensures Bar(height, annotation) ==
                MetricBar(metricsOnGeneratedText, metricsOnProbs, applyFormat, name, candidate, labelText)
    {
      var scalable: bool;
      var format: string;
      var result: real;
      if name in metricsOnGeneratedText.entries {
        var metricDescription := metricsOnGeneratedText.entries[name];
        result := metricDescription.metricCalculation(candidate.generatedText, labelText);
        scalable, format := metricDescription.scalable, metricDescription.format;
      } else {
        var metricDescription := metricsOnProbs.entries[name];
        result := metricDescription.metricCalculation(candidate.labelsEncoded, candidate.generatedEncoded);
        scalable, format := metricDescription.scalable, metricDescription.format;
      }
      if scalable {
        height := MinReal(result * 100.0, 100.0);
      } else {
        height := 100.0;
      }
      annotation := applyFormat(format, result);
    }

    method ComputeNDisplayMetricsForElement(generatedTextList: seq<string>, labelText: string,
                                            probsEncodedList: seq<Tensor>, generatedEncodedList: seq<Tensor>,
                                            element: BarChartElement)
      requires Valid()
      modifies element`pieceInfos
      ensures element.pieceInfos == Pieces(generatedTextList, labelText, probsEncodedList, generatedEncodedList)
    {
      var pieceInfos := ComputePieces(generatedTextList, labelText, probsEncodedList, generatedEncodedList);
      element.SetPieceInfos(pieceInfos);
    }

    /** Metrics of the model's generations, shown on the predicted-output chart only. */
    method ComputeNDisplayMetricsOnPredicted(generatedTextList: seq<string>, labelText: string,
                                             probsEncodedList: seq<Tensor>, generatedEncodedList: seq<Tensor>)
      requires Valid()
      modifies displayMetricsOnPredictedElement`pieceInfos
      ensures displayMetricsOnPredictedElement.pieceInfos ==
                Pieces(generatedTextList, labelText, probsEncodedList, generatedEncodedList)
      ensures displayMetricsOnTargetElement.pieceInfos == old(displayMetricsOnTargetElement.pieceInfos)
    {
      ComputeNDisplayMetricsForElement(generatedTextList, labelText, probsEncodedList, generatedEncodedList,
                                       displayMetricsOnPredictedElement);
    }

    /** Metrics of the gold output against itself, shown on the target chart only. */
    method ComputeNDisplayMetricsOnTarget(target: string, probsTarget: seq<Tensor>, targetEncoded: seq<Tensor>)
      requires Valid()
      modifies displayMetricsOnTargetElement`pieceInfos
      ensures displayMetricsOnTargetElement.pieceInfos == Pieces([target], target, probsTarget, targetEncoded)
      ensures |displayMetricsOnTargetElement.pieceInfos| <= 1
      ensures displayMetricsOnPredictedElement.pieceInfos == old(displayMetricsOnPredictedElement.pieceInfos)
    {
      ComputeNDisplayMetricsForElement([target], target, probsTarget, targetEncoded,
                                       displayMetricsOnTargetElement);
    }
  }

  /** Shape of every piece: its title is its candidate's text; names, heights and
      annotations have one entry per bar; the names are the ticked metrics in ordering
      order, so an unticked metric appears nowhere; no bar is higher than 100. */
  lemma PieceShape(m: MetricsMixin, candidate: Candidate, labelText: string)
    requires m.Valid()
    ensures var p := PieceFor(m.metricsOnGeneratedText, m.metricsOnProbs, m.applyFormat,
                              SelectedNames(m.ordering, m.selectMetricsElements), candidate, labelText);
            && p.pieceTitle == candidate.generatedText
            && |p.barHeights| == |p.barNames| && |p.barAnnotations| == |p.barNames|
            && (forall name :: name in p.barNames <==>
                  name in m.ordering && m.selectMetricsElements[name].selected)
            && (forall j :: 0 <= j < |p.barHeights| ==> p.barHeights[j] <= 100.0)
  {
    SelectedNamesMembers(m.ordering, m.selectMetricsElements);
  }

  /** The pieces: as many as the shortest of the three candidate lists, piece `k` for
      candidate `k`, with one bar per ticked metric. */
  lemma PiecesShape(m: MetricsMixin, generatedTextList: seq<string>, labelText: string,
                    probsEncodedList: seq<Tensor>, generatedEncodedList: seq<Tensor>)
    requires m.Valid()
    ensures var ps := m.Pieces(generatedTextList, labelText, probsEncodedList, generatedEncodedList);
            && |ps| == Min(Min(|generatedTextList|, |probsEncodedList|), |generatedEncodedList|)
            && forall k :: 0 <= k < |ps| ==>
                 && ps[k].pieceTitle == generatedTextList[k]
                 && ps[k].barNames == SelectedNames(m.ordering, m.selectMetricsElements)
  {
  }

  /** The target chart holds at most one piece, and that piece is titled by the target. */
  lemma TargetPieces(m: MetricsMixin, target: string, probsTarget: seq<Tensor>, targetEncoded: seq<Tensor>)
    requires m.Valid()
    ensures var ps := m.Pieces([target], target, probsTarget, targetEncoded);
            && |ps| == Min(1, Min(|probsTarget|, |targetEncoded|))
            && (ps != [] ==> ps[0].pieceTitle == target)
  {
  }

  /** A metric name found in both dicts is computed as a generated-text metric. */
  lemma GeneratedTextMetricWins(m: MetricsMixin, name: string, candidate: Candidate, labelText: string)
    requires m.Valid() && name in m.metricsOnGeneratedText.entries && name in m.metricsOnProbs.entries
    ensures var d := m.metricsOnGeneratedText.entries[name];
            MetricBar(m.metricsOnGeneratedText, m.metricsOnProbs, m.applyFormat, name,
                      candidate, labelText).annotation ==
              m.applyFormat(d.format, d.metricCalculation(candidate.generatedText, labelText))
  {
  }

  /** Heights are capped only from above: a scalable metric with a negative value gets a
      negative bar. */
  lemma NegativeScalableHeight(onGeneratedText: Dict<GeneratedTextMetric>, onProbs: Dict<ProbsMetric>,
                               applyFormat: (string, real) -> string, name: string,
                               candidate: Candidate, labelText: string)
    requires name in onGeneratedText.entries && onGeneratedText.entries[name].scalable
    requires onGeneratedText.entries[name].metricCalculation(candidate.generatedText, labelText) < 0.0
    ensures MetricBar(onGeneratedText, onProbs, applyFormat, name, candidate, labelText).height < 0.0
  {
  }

  /** Unticking one checkbox removes exactly that metric from the shown names. */
  lemma UntickHidesMetric(ordering: seq<string>, boxes: map<string, CheckBox>, name: string)
    requires forall n :: n in ordering ==> n in boxes
    requires name in boxes
    ensures var unticked := boxes[name := boxes[name].(selected := false)];
            forall n :: n in SelectedNames(ordering, unticked) <==>
                        n in SelectedNames(ordering, boxes) && n != name
  {
    SelectedNamesMembers(ordering, boxes);
    SelectedNamesMembers(ordering, boxes[name := boxes[name].(selected := false)]);
  }
}
