/**
 From the request to the text its client reads: the engines' channel histories joined
 to the responses made of them.
 */
module EndToEnd {
  import opened Basics
  import opened Transformer
  import opened Sequences
  import opened Reference
  import opened RequestQueues
  import opened Clients
  import opened TextFilter
  import opened Responses
  import opened Answers
  import opened Machine
  import opened Invariants
  import opened Chronicle
  import opened Soundness
  import FallbackTokenizer

  /** What the HTTP side makes of one channel. */
  function ResponseTo(h: seq<StreamItem>, decode: Decoder, stops: seq<string>): Outcome {
    Respond(NonEmpty(stops), decode, "", [], h)
  }

  /** What it makes of a request that is served alone and to the end. */
  function WholeResponse(m: Gpt2, req: GenerationRequest, decode: Decoder, stops: seq<string>): Outcome {
    var answer := Answer(m, req.promptTokens, req.config);
    CompleteResponse(stops, decode, answer.tokens, answer.reason)
  }

  /** Without a finishing item a response completes only by a text stop. */
  lemma {:induction false} UnfinishedOnlyStops(stops: seq<string>, decode: Decoder, emitted: string, tokens: seq<Token>,
                                               items: seq<StreamItem>)
    requires forall i :: 0 <= i < |items| ==> !items[i].FinishedItem?
    ensures var o := Respond(stops, decode, emitted, tokens, items); o.end.Completed? ==> o.stopped
    decreases |items|
  {
    hide PushSpec, FinishSpec;
    if items != [] && items[0].TokenItem? && decode(tokens + [items[0].token]).Some? {
      var text := FallbackTokenizer.Trim(decode(tokens + [items[0].token]).value);
      UnfinishedOnlyStops(stops, decode, PushSpec(stops, emitted, text).1, tokens + [items[0].token], items[1..]);
    }
  }

  lemma MessagesSplit(tokens: seq<Token>, n: nat, reason: Option<FinishReason>)
    requires n <= |tokens|
    ensures TokenItems(tokens[..n]) + Messages(tokens[n..], reason) == Messages(tokens, reason)
  {
    assert TokenItems(tokens[..n]) + TokenItems(tokens[n..]) == TokenItems(tokens);
  }

  /** A broken-off history is a beginning of the complete one, up to one error item. */
  lemma BrokenBegins(m: Gpt2, req: GenerationRequest, cause: Cause, h: seq<StreamItem>)
    returns (seen: seq<StreamItem>, tail: seq<StreamItem>, rest: seq<StreamItem>)
    requires LegalHistory(m, req, cause, h) && !cause.Completed?
    ensures h == seen + tail && forall i :: 0 <= i < |h| ==> !h[i].FinishedItem?
    ensures tail != [] ==> tail[0].ErrorItem?
    ensures var answer := Answer(m, req.promptTokens, req.config);
            Messages(answer.tokens, Some(answer.reason)) == seen + rest
  {
    hide Answer, Messages;
    var answer := Answer(m, req.promptTokens, req.config);
    var n: nat, told :| BrokenAt(answer.tokens, cause, h, n, told);
    seen, tail := TokenItems(answer.tokens[..n]), Closing(cause, told);
    rest := Messages(answer.tokens[n..], Some(answer.reason));
    MessagesSplit(answer.tokens, n, Some(answer.reason));
  }

  /**
   Whatever happened to the request, a response that looks complete is the one of a
   completed solo run. No truncated answer passes for a whole one, and where the text
   stopped it does not matter what the engine did afterwards.
   */
  lemma CompleteMeansWhole(m: Gpt2, req: GenerationRequest, cause: Cause, h: seq<StreamItem>, decode: Decoder,
                           stops: seq<string>)
    requires LegalHistory(m, req, cause, h)
    ensures ResponseTo(h, decode, stops).end.Completed? ==>
              ResponseTo(h, decode, stops) == WholeResponse(m, req, decode, stops)
  {
    hide Respond;
    if !cause.Completed? && ResponseTo(h, decode, stops).end.Completed? {
      var seen, tail, rest := BrokenBegins(m, req, cause, h);
      UnfinishedOnlyStops(NonEmpty(stops), decode, "", [], h);
      StopIsFinal(NonEmpty(stops), decode, "", [], seen, tail, rest);
    }
  }

  /** A completed request yields the text of its reference answer, cut at its stops. */
  lemma CompletedIsAnswered(m: Gpt2, req: GenerationRequest, h: seq<StreamItem>, decode: Decoder, stops: seq<string>)
    requires LegalHistory(m, req, Cause.Completed, h) && GrowsOn(decode, Answer(m, req.promptTokens, req.config).tokens)
    ensures var answer := Answer(m, req.promptTokens, req.config); var o := ResponseTo(h, decode, stops);
            && o == WholeResponse(m, req, decode, stops) && o.end.Completed?
            && Shows(o, CutAtFirstSighting(NonEmpty(stops), Texts(decode, answer.tokens, 0),
                                           TextOf(decode, answer.tokens)), answer.reason)
            && (NoInnerStop(NonEmpty(stops)) && NoTrimmedStop(NonEmpty(stops)) ==>
                  Shows(o, TextFilter.OneShot(NonEmpty(stops), TextOf(decode, answer.tokens)), answer.reason))
  {
    hide Respond, GrowsOn, CutAtFirstSighting, Texts;
    var answer := Answer(m, req.promptTokens, req.config);
    CompletedResponse(stops, decode, answer.tokens, answer.reason);
    if NoInnerStop(NonEmpty(stops)) && NoTrimmedStop(NonEmpty(stops)) {
      CompletedResponseIsOneShot(stops, decode, answer.tokens, answer.reason);
    }
  }

  /** At the end of every run, every accepted request's response is whole, or says that it is not. */
  lemma EveryResponseIsSound(c: Setup, s: Snap, w: World, id: Id, decode: Decoder, stops: seq<string>)
    requires Settled(c, s, w) && id in s.ledger.accepted
    ensures var req := s.ledger.accepted[id]; var o := ResponseTo(HistoryOf(s.ledger.sent, id), decode, stops);
            && id in s.ledger.ended
            && (o.end.Completed? ==> o == WholeResponse(c.m, req, decode, stops))
            && (s.ledger.ended[id].Completed? && GrowsOn(decode, Answer(c.m, req.promptTokens, req.config).tokens) ==>
                  o.end.Completed?)
  {
    hide Respond, GrowsOn, LegalHistory;
    var req, h := s.ledger.accepted[id], HistoryOf(s.ledger.sent, id);
    assert id in s.ledger.ended && LegalHistory(c.m, req, s.ledger.ended[id], h);
    CompleteMeansWhole(c.m, req, s.ledger.ended[id], h, decode, stops);
    if s.ledger.ended[id].Completed? && GrowsOn(decode, Answer(c.m, req.promptTokens, req.config).tokens) {
      CompletedIsAnswered(c.m, req, h, decode, stops);
    }
  }
}
