/**
 The meaning of a request, free of caches, batches and channels: sample the next
 token from the logits of a full forward pass over everything so far, and cut the
 result at its first end.
 */
module Reference {
  import opened Basics
  import opened Overlap
  import opened Sampling
  import opened Transformer
  import opened Sequences

  /** An empty prompt decodes as a single token 0. */
  function EffectivePrompt(prompt: seq<Token>): (r: seq<Token>)
    ensures r != []
  {
    if prompt == [] then [0] else prompt
  }

  function Context(prompt: seq<Token>, generated: seq<Token>): (r: seq<Token>)
    ensures r != []
  {
    EffectivePrompt(prompt) + generated
  }

  /** The first `n` tokens of a request and the generator state after them. */
  function Generate(m: Gpt2, prompt: seq<Token>, config: SamplerConfig, n: nat): (r: (seq<Token>, bv64))
    ensures |r.0| == n
  {
    if n == 0 then ([], InitialState(config))
    else
      var (tokens, rng) := Generate(m, prompt, config, n - 1);
      var (token, rng') := SampleSpec(config, m.exp, FullLogits(m, Context(prompt, tokens)), rng);
      (tokens + [token], rng')
  }

  lemma {:induction false} GeneratePrefix(m: Gpt2, prompt: seq<Token>, config: SamplerConfig, k: nat, n: nat)
    requires k <= n
    ensures Generate(m, prompt, config, k).0 <= Generate(m, prompt, config, n).0
  {
    hide SampleSpec, FullLogits, Context;
    if k < n { GeneratePrefix(m, prompt, config, k, n - 1); }
  }

  /** The complete answer to a request. */
  function Answer(m: Gpt2, prompt: seq<Token>, config: SamplerConfig): Output {
    var tokens := Generate(m, prompt, config, Max(1, config.maxNewTokens)).0;
    AnswerExists(m, prompt, config);
    OneShot(config, tokens).value
  }

  lemma AnswerExists(m: Gpt2, prompt: seq<Token>, config: SamplerConfig)
    ensures OneShot(config, Generate(m, prompt, config, Max(1, config.maxNewTokens)).0).Some?
  {
    var tokens := Generate(m, prompt, config, Max(1, config.maxNewTokens)).0;
    assert tokens[..|tokens|] == tokens;
    assert EndingAt(config, tokens[..|tokens|]).Some?;
  }

  /** `v` has generated the reference tokens, and its generator is where the reference is. */
  ghost predicate OnTrack(m: Gpt2, v: SeqView) {
    (v.generated, v.rng) == Generate(m, v.prompt, v.config, |v.generated|)
  }

  /** An unfinished sequence is strictly below its token budget. */
  lemma BelowBudget(v: SeqView)
    requires Emitting(v)
    ensures |v.generated| < Max(1, v.config.maxNewTokens)
  {
    if v.generated != [] {
      assert v.generated[..|v.generated|] == v.generated;
    }
  }

  /** What an unfinished sequence has shown begins its answer. */
  lemma ShownBeginsAnswer(m: Gpt2, v: SeqView)
    requires Emitting(v) && OnTrack(m, v)
    ensures v.emitted <= |v.generated|
    ensures v.generated[..v.emitted] <= Answer(m, v.prompt, v.config).tokens
  {
    BelowBudget(v);
    GeneratePrefix(m, v.prompt, v.config, |v.generated|, Max(1, v.config.maxNewTokens));
    AnswerExists(m, v.prompt, v.config);
    EmittedBeginsOneShot(v, Generate(m, v.prompt, v.config, Max(1, v.config.maxNewTokens)).0);
  }

  /** The next sequence state when `token` is sampled. */
  function Sampled(m: Gpt2, v: SeqView): SeqView {
    var (token, rng) := SampleSpec(v.config, m.exp, FullLogits(m, Context(v.prompt, v.generated)), v.rng);
    AppendView(v.(rng := rng), token)
  }

  lemma SampledStaysOnTrack(m: Gpt2, v: SeqView)
    requires Emitting(v) && OnTrack(m, v)
    ensures OnTrack(m, Sampled(m, v))
    ensures v.generated < Sampled(m, v).generated && |Sampled(m, v).generated| == |v.generated| + 1
  {
    hide SampleSpec, FullLogits, Context, Emitting, EndingAt;
    assert (v.generated + [Sampled(m, v).generated[|v.generated|]])[..|v.generated|] == v.generated;
  }

  /** A sequence that finishes holds its answer: everything up to its safe end, for the same reason. */
  lemma FinishedHoldsAnswer(m: Gpt2, v: SeqView)
    requires Emitting(v) && OnTrack(m, v) && Sampled(m, v).finishReason.Some?
    ensures var w := Sampled(m, v);
            && v.emitted <= SafeEnd(w) <= |w.generated|
            && Answer(m, v.prompt, v.config) == Output(w.generated[..SafeEnd(w)], w.finishReason.value)
  {
    hide SampleSpec, FullLogits, Context, HeldLen, MatchedStopLen, Unended;
    var (token, rng) := SampleSpec(v.config, m.exp, FullLogits(m, Context(v.prompt, v.generated)), v.rng);
    var u := v.(rng := rng);
    var budget := Max(1, v.config.maxNewTokens);
    BelowBudget(v);
    SampledStaysOnTrack(m, v);
    GeneratePrefix(m, v.prompt, v.config, |v.generated| + 1, budget);
    AnswerExists(m, v.prompt, v.config);
    EmittingEnds(u, token);
    OneShotOfEnding(v.config, v.generated, token, Generate(m, v.prompt, v.config, budget).0);
  }

  /** A sequence that goes on stays in step with the reference and takes nothing back. */
  lemma UnfinishedStaysInStep(m: Gpt2, v: SeqView)
    requires Emitting(v) && OnTrack(m, v) && Sampled(m, v).finishReason.None?
    ensures var w := Sampled(m, v);
            && v.emitted <= SafeEnd(w) <= |w.generated| && w.state == v.state
            && Emitting(w.(emitted := SafeEnd(w))) && OnTrack(m, w.(emitted := SafeEnd(w)))
            && w == v.(generated := w.generated, rng := w.rng)
  {
    hide SampleSpec, FullLogits, Context, HeldLen, MatchedStopLen, Unended, Generate;
    var (token, rng) := SampleSpec(v.config, m.exp, FullLogits(m, Context(v.prompt, v.generated)), v.rng);
    SampledStaysOnTrack(m, v);
    EmittingContinues(v.(rng := rng), token);
  }

  /** How many tokens a request generates until its first end. */
  function GenerationLength(m: Gpt2, prompt: seq<Token>, config: SamplerConfig): (n: nat)
    ensures 1 <= n <= Max(1, config.maxNewTokens)
  {
    var tokens := Generate(m, prompt, config, Max(1, config.maxNewTokens)).0;
    AnswerExists(m, prompt, config);
    FirstEnd(config, tokens, 1).value
  }

  /** A sequence in step is short of that length, and the token that finishes it reaches it. */
  lemma LengthIsAhead(m: Gpt2, v: SeqView)
    requires Emitting(v) && OnTrack(m, v)
    ensures |v.generated| < GenerationLength(m, v.prompt, v.config)
    ensures Sampled(m, v).finishReason.Some? ==> |v.generated| + 1 == GenerationLength(m, v.prompt, v.config)
  {
    hide SampleSpec, FullLogits, Context, HeldLen, MatchedStopLen, Generate;
    var n, budget := GenerationLength(m, v.prompt, v.config), Max(1, v.config.maxNewTokens);
    var tokens := Generate(m, v.prompt, v.config, budget).0;
    BelowBudget(v);
    AnswerExists(m, v.prompt, v.config);
    GeneratePrefix(m, v.prompt, v.config, |v.generated|, budget);
    assert forall k :: 0 < k <= |v.generated| ==> tokens[..k] == v.generated[..k];
    SampledStaysOnTrack(m, v);
    GeneratePrefix(m, v.prompt, v.config, |v.generated| + 1, budget);
    assert tokens[..|v.generated| + 1] == Sampled(m, v).generated;
  }

  /**
   The answer is the first tokens of the reference generation: all of the budget exactly when
   no EOS token and no stop comes up in it, and otherwise up to the first of these, without it.
   */
  lemma AnswerMeaning(m: Gpt2, prompt: seq<Token>, config: SamplerConfig)
    ensures var answer, budget := Answer(m, prompt, config), Max(1, config.maxNewTokens);
            var tokens, n := Generate(m, prompt, config, budget).0, GenerationLength(m, prompt, config);
            && answer.tokens <= tokens[..n]
            && (answer.reason.Length? ==> answer.tokens == tokens)
            && (answer.reason.Length? <==> forall k :: 0 < k <= budget ==> !StoppedAt(config, tokens, k))
            && (answer.reason.Stop? ==> IsCutOff(config, tokens[..n], tokens[|answer.tokens|..n]))
  {
    hide Generate, IsCutOff, StoppedAt;
    var tokens := Generate(m, prompt, config, Max(1, config.maxNewTokens)).0;
    AnswerExists(m, prompt, config);
    OneShotMeaning(config, tokens);
    assert Answer(m, prompt, config) == OneShot(config, tokens).value;
    assert GenerationLength(m, prompt, config) == FirstEnd(config, tokens, 1).value;
  }
}
