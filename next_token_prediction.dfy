/** The next-token-prediction component: it keeps the text generated so far (the
    context), lets the user append a chosen token to it, and reports the most probable
    continuations. The language model sits behind two hooks a concrete component
    supplies: how a token is appended to the context, and which continuations the
    model predicts for a context. */
module NextToken {
  import opened TopN

  datatype Option<T> = None | Some(value: T)

  /** A candidate next token with its probability in percent. */
  datatype Continuation = Continuation(token: string, prob: real)

  /** The payload `fetch` and `select` return (before JSON encoding). */
  datatype Response = Response(result: string, context: string, continuations: seq<Continuation>)

  class NextTokenPredictionComponent {
    /** Routing key and user-facing title. */
    const name: string := "next_token_prediction"
    const title: string := "Next Token Prediction"

    const nLargestTokensToReturn: int
    /** Hook: joins a chosen token onto the context (component-specific rules). */
    const appendToContext: (string, string) -> string
    /** Hook: the continuations the model predicts for a context. */
    const getNextTokenPredictions: string -> seq<Continuation>

    /** `None` until the vocabulary hook has run. */
    var wordVocab: Option<seq<string>>
    /** `None` until `InitializeContext`; Python has no `_context` attribute before that. */
    var context: Option<string>

    constructor (nLargestTokensToReturn: int,
                 appendToContext: (string, string) -> string,
                 getNextTokenPredictions: string -> seq<Continuation>)
      ensures this.nLargestTokensToReturn == nLargestTokensToReturn
      ensures this.appendToContext == appendToContext
      ensures this.getNextTokenPredictions == getNextTokenPredictions
      ensures wordVocab == None && context == None
    {
      this.nLargestTokensToReturn := nLargestTokensToReturn;
      this.appendToContext := appendToContext;
      this.getNextTokenPredictions := getNextTokenPredictions;
      wordVocab := None;
      context := None;
    }

    /** What the vocabulary hook is documented to do: store the vocabulary whose
        positions are the token ids of the model's probability vectors. */
    method InitializeVocab(vocab: seq<string>)
      modifies this`wordVocab
      ensures wordVocab == Some(vocab)
    {
      wordVocab := Some(vocab);
    }

    method InitializeContext(c: string)
      modifies this`context
      ensures context == Some(c)
    {
      context := Some(c);
    }

    /** The default rendering of the context is the context itself. */
    function FormatContext(c: string): (r: string)
      ensures r == c
    {
      c
    }

    /** The payload for the current context; changes nothing. */
    method Fetch() returns (response: Response)
      requires context.Some?
      ensures response.result == "success"
      ensures response.context == context.value
      ensures response.continuations == getNextTokenPredictions(context.value)
    {
      response := Response("success", FormatContext(context.value),
                           getNextTokenPredictions(context.value));
    }

    /** Appends the posted token to the context, then answers as `Fetch` does for the
        new context. */
    method Select(postToken: string) returns (response: Response)
      requires context.Some?
      modifies this`context
      ensures context == Some(appendToContext(old(context.value), postToken))
      ensures response == Response("success", context.value, getNextTokenPredictions(context.value))
    {
      context := Some(appendToContext(context.value, postToken));
      response := Response("success", FormatContext(context.value),
                           getNextTokenPredictions(context.value));
    }

    /** The `nLargestTokensToReturn` most probable tokens for a probability vector,
        paired position by position with the vocabulary (the shorter of the two decides
        how many positions there are), most probable first, ties in vocabulary order,
        probabilities scaled to percent. */
    function CreateContinuations(probs: seq<real>): (r: seq<Continuation>)
      reads this
      requires wordVocab.Some?
      ensures var vocab := wordVocab.value;
              var picked := ZipNLargest(probs, |vocab|, nLargestTokensToReturn);
              && |r| == |picked|
              && (forall k :: 0 <= k < |r| ==>
                    r[k] == Continuation(vocab[picked[k]], probs[picked[k]] * 100.0))
              && (forall k, j :: 0 <= k < |r| && 0 <= j < Min(|probs|, |vocab|) && j !in picked ==>
                    probs[j] * 100.0 <= r[k].prob)
      ensures |r| == if nLargestTokensToReturn <= 0 then 0
                     else Min(nLargestTokensToReturn, Min(|probs|, |wordVocab.value|))
      ensures forall a, b :: 0 <= a < b < |r| ==> r[a].prob >= r[b].prob
    {
      var vocab := wordVocab.value;
      var picked := ZipNLargest(probs, |vocab|, nLargestTokensToReturn);
      seq(|picked|, k requires 0 <= k < |picked| =>
            Continuation(vocab[picked[k]], probs[picked[k]] * 100.0))
    }
  }

  /** With nothing in between, two fetches return the same payload. */
  method FetchTwice(c: NextTokenPredictionComponent) returns (first: Response, second: Response)
    requires c.context.Some?
    ensures first == second
  {
    first := c.Fetch();
    second := c.Fetch();
  }

  /** `select` answers with exactly what a `fetch` right after it returns. */
  method SelectThenFetch(c: NextTokenPredictionComponent, token: string)
      returns (selected: Response, fetched: Response)
    requires c.context.Some?
    modifies c
    ensures c.context == Some(c.appendToContext(old(c.context.value), token))
    ensures selected == fetched
  {
    selected := c.Select(token);
    fetched := c.Fetch();
  }

  /** Probabilities beyond the vocabulary's length are ignored: no error is raised for
      mismatched lengths. */
  lemma ExtraProbabilitiesIgnored(c: NextTokenPredictionComponent, probs: seq<real>, extra: seq<real>)
    requires c.wordVocab.Some? && |probs| == |c.wordVocab.value|
    ensures c.CreateContinuations(probs + extra) == c.CreateContinuations(probs)
  {
    var n, vocab := c.nLargestTokensToReturn, c.wordVocab.value;
    assert (probs + extra)[..|probs|] == probs[..|probs|];
    var picked := ZipNLargest(probs, |vocab|, n);
    assert ZipNLargest(probs + extra, |vocab|, n) == picked;
    var longer, shorter := c.CreateContinuations(probs + extra), c.CreateContinuations(probs);
    forall k | 0 <= k < |shorter|
      ensures longer[k] == shorter[k]
    {
      assert (probs + extra)[picked[k]] == probs[picked[k]];
    }
  }

  /** Vocabulary beyond the vector's length is ignored as well: a component whose
      vocabulary has extra words answers as one without them. */
  lemma ExtraVocabularyIgnored(c: NextTokenPredictionComponent, d: NextTokenPredictionComponent,
                               probs: seq<real>, extraWords: seq<string>)
    requires c.wordVocab.Some? && d.wordVocab == Some(c.wordVocab.value + extraWords)
    requires c.nLargestTokensToReturn == d.nLargestTokensToReturn
    requires |probs| == |c.wordVocab.value|
    ensures d.CreateContinuations(probs) == c.CreateContinuations(probs)
  {
    var n, vocab := c.nLargestTokensToReturn, c.wordVocab.value;
    var picked := ZipNLargest(probs, |vocab|, n);
    assert ZipNLargest(probs, |vocab + extraWords|, n) == picked;
    var longer, shorter := d.CreateContinuations(probs), c.CreateContinuations(probs);
    forall k | 0 <= k < |shorter|
      ensures longer[k] == shorter[k]
    {
      assert (vocab + extraWords)[picked[k]] == vocab[picked[k]];
    }
  }

  /** Vocabulary `["a", "b", "c"]`, probabilities `[0.1, 0.7, 0.2]`, two tokens wanted. */
  lemma TwoOfThree(c: NextTokenPredictionComponent)
    requires c.wordVocab == Some(["a", "b", "c"]) && c.nLargestTokensToReturn == 2
    ensures c.CreateContinuations([0.1, 0.7, 0.2]) == [Continuation("b", 70.0), Continuation("c", 20.0)]
  {
    var keys := [0.1, 0.7, 0.2];
    TopTwoOfThree();
    assert keys[..3] == keys;
    var r := c.CreateContinuations(keys);
    assert |r| == 2;
    assert r[0] == Continuation("b", 0.7 * 100.0);
    assert r[1] == Continuation("c", 0.2 * 100.0);
  }
}
