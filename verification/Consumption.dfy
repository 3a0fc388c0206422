/** How either engine turns a row of logits into the next visible tokens of a sequence. */
module Consumption {
  import opened Basics
  import opened Transformer
  import opened Sampling
  import opened Sequences
  import opened Reference
  import opened Clients
  import opened Steps

  /** Sample the next token, append it, and take out what became visible. */
  method NextTokens(m: Gpt2, s: Sequence, row: Row) returns (tokens: seq<Token>, reason: Option<FinishReason>)
    requires s.sampler.exp == m.exp && row == FullLogits(m, Context(s.View().prompt, s.View().generated))
    requires var w := Sampled(m, s.View()); s.View().emitted == w.emitted <= SafeEnd(w) <= |w.generated|
    modifies s, s.sampler
    ensures s.View() == Consumed(m, old(s.View()))
    ensures Messages(tokens, reason) == NewlySafe(m, old(s.View()))
    ensures reason == Sampled(m, old(s.View())).finishReason
  {
    hide AppendView, SampleSpec, SafeEnd;
    var token := s.sampler.Sample(row);
    s.AppendToken(token);
    assert s.View() == Sampled(m, old(s.View()));
    reason := s.finishReason;
    tokens := s.TakeEmittableTokens();
  }
}
