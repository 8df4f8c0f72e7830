/** The softmax formatter: turns a probability vector into the list of most probable
    tokens shown on the page, and keeps a `changed` flag that tells whether the list
    must be sent to the client again. */
module Softmax {
  import opened TopN

  /** One displayed token: its text, whether it is shown in long-token layout, and
      its probability in percent as a one-element list. */
  datatype Continuation = Continuation(isLong: bool, content: string, probs: seq<real>)

  /** The content record of a formatted softmax element. */
  datatype Content = Content(possibilities: seq<Continuation>, address: string)

  /** What `format` returns: the formatter's name, its type tag and its content. */
  datatype FormattedContext = FormattedContext(name: string, kind: string, content: Content)

  class SoftmaxFormatter {
    const name: string
    const nLargestTokensToReturn: int
    const endpointUrl: string
    const longTokens: bool

    /** Set whenever `possibilities` is assigned, cleared by `Format`. */
    var changed: bool
    var possibilities: seq<Continuation>

    constructor (name: string, nLargestTokensToReturn: int, endpointUrl: string, longTokens: bool)
      ensures this.name == name
      ensures this.nLargestTokensToReturn == nLargestTokensToReturn
      ensures this.endpointUrl == endpointUrl
      ensures this.longTokens == longTokens
      ensures possibilities == []
    {
      this.name := name;
      this.nLargestTokensToReturn := nLargestTokensToReturn;
      this.endpointUrl := endpointUrl;
      this.longTokens := longTokens;
      possibilities := [];
    }

    /** The `possibilities` property setter: stores the value and marks the formatter
        changed. */
    method SetPossibilities(value: seq<Continuation>)
      modifies this`changed, this`possibilities
      ensures possibilities == value
      ensures changed
    {
      changed := true;
      possibilities := value;
    }

    /** The `nLargestTokensToReturn` most probable words, most probable first, ties in
        vocabulary order, each with its probability in percent. Probabilities and
        vocabulary are paired position by position; extra entries of the longer one are
        ignored. Being a function, it changes neither `changed` nor `possibilities`. */
    function AssignWordsToProbs(probs: seq<real>, wordVocab: seq<string>): (r: seq<Continuation>)
      ensures var picked := ZipNLargest(probs, |wordVocab|, nLargestTokensToReturn);
              && |r| == |picked|
              && (forall k :: 0 <= k < |r| ==>
                    r[k] == Continuation(longTokens, wordVocab[picked[k]], [probs[picked[k]] * 100.0]))
              && (forall k, j :: 0 <= k < |r| && 0 <= j < Min(|probs|, |wordVocab|) && j !in picked ==>
                    probs[j] * 100.0 <= r[k].probs[0])
      ensures |r| == if nLargestTokensToReturn <= 0 then 0
                     else Min(nLargestTokensToReturn, Min(|probs|, |wordVocab|))
      ensures forall a, b :: 0 <= a < b < |r| ==> r[a].probs[0] >= r[b].probs[0]
    {
      var picked := ZipNLargest(probs, |wordVocab|, nLargestTokensToReturn);
      seq(|picked|, k requires 0 <= k < |picked| =>
            Continuation(longTokens, wordVocab[picked[k]], [probs[picked[k]] * 100.0]))
    }

    /** Clears `changed` and describes the current possibilities and the endpoint the
        client posts to. */
    method Format() returns (f: FormattedContext)
      modifies this`changed
      ensures !changed
      ensures possibilities == old(possibilities)
      ensures f == FormattedContext(name, "softmax", Content(possibilities, endpointUrl))
    {
      changed := false;
      f := FormattedContext(name, "softmax", Content(possibilities, endpointUrl));
    }
  }

  /** Formatting twice in a row gives the same result and leaves the flag cleared. */
  method FormatTwice(s: SoftmaxFormatter) returns (first: FormattedContext, second: FormattedContext)
    modifies s
    ensures first == second && !s.changed
    ensures s.possibilities == old(s.possibilities)
  {
    first := s.Format();
    second := s.Format();
  }

  /** Assigning possibilities and then formatting sends exactly the assigned list. */
  method AssignThenFormat(s: SoftmaxFormatter, probs: seq<real>, wordVocab: seq<string>)
      returns (f: FormattedContext)
    modifies s
    ensures f.content.possibilities == s.AssignWordsToProbs(probs, wordVocab)
    ensures f.kind == "softmax" && f.content.address == s.endpointUrl && !s.changed
  {
    s.SetPossibilities(s.AssignWordsToProbs(probs, wordVocab));
    f := s.Format();
  }
}
