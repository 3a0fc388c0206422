/**
 One generating sequence: its state machine, when it ends, and which of its tokens
 may already be shown to the client.
 */
module Sequences {
  import opened Basics
  import opened Overlap
  import opened Sampling
  import opened KvCache

  datatype FinishReason = Length | Stop

  datatype SequenceState = Prefilling | Running | Finished | Cancelled | Failed

  /** A request; its identity stands for its response channel and its cancellation token. */
  datatype GenerationRequest = GenerationRequest(
    id: Id,
    promptTokens: seq<Token>,
    config: SamplerConfig,
    priority: nat,
    channelCapacity: nat)

  // ----- When a generation ends -----

  function MaxOption(a: Option<nat>, b: Option<nat>): Option<nat> {
    if a.None? then b else if b.None? then a else Some(Max(a.value, b.value))
  }

  /** The length of the longest nonempty stop that `generated` ends with. */
  function MatchedStopLen(stops: seq<seq<Token>>, generated: seq<Token>): Option<nat> {
    if stops == [] then None
    else
      var first := if stops[0] != [] && EndsWith(generated, stops[0]) then Some(|stops[0]|) else None;
      MaxOption(first, MatchedStopLen(stops[1..], generated))
  }

  lemma {:induction false} MatchedStopIsLongest(stops: seq<seq<Token>>, generated: seq<Token>)
    ensures var r := MatchedStopLen(stops, generated);
            && (r.Some? ==> exists k :: 0 <= k < |stops| && |stops[k]| == r.value > 0 && EndsWith(generated, stops[k]))
            && forall k :: 0 <= k < |stops| && stops[k] != [] && EndsWith(generated, stops[k]) ==>
                 r.Some? && |stops[k]| <= r.value
  {
    if stops != [] {
      MatchedStopIsLongest(stops[1..], generated);
      var r, rest := MatchedStopLen(stops, generated), MatchedStopLen(stops[1..], generated);
      if r.Some? && r == rest {
        var k :| 0 <= k < |stops[1..]| && |stops[1..][k]| == r.value > 0 && EndsWith(generated, stops[1..][k]);
        assert stops[k + 1] == stops[1..][k];
      }
      forall k | 0 <= k < |stops| && stops[k] != [] && EndsWith(generated, stops[k])
        ensures r.Some? && |stops[k]| <= r.value
      {
        if k > 0 { assert stops[1..][k - 1] == stops[k]; }
      }
    }
  }

  /** Why generation ends with the last token of `generated`, and how many trailing tokens are not output. */
  datatype Ending = Ending(reason: FinishReason, trim: nat)

  function EndingAt(config: SamplerConfig, generated: seq<Token>): Option<Ending>
    requires generated != []
  {
    var matched := MatchedStopLen(config.stopSequences, generated);
    if generated[|generated| - 1] == config.eosToken || matched.Some? then
      Some(Ending(Stop, if matched.Some? then matched.value else 1))
    else if |generated| >= config.maxNewTokens then Some(Ending(Length, 0))
    else None
  }

  // ----- The sequence as a value -----

  datatype SeqView = SeqView(
    id: Id,
    prompt: seq<Token>,
    generated: seq<Token>,
    kvHandle: KvHandle,
    config: SamplerConfig,
    rng: bv64,
    state: SequenceState,
    finishReason: Option<FinishReason>,
    emitted: nat,
    trim: nat,
    channelCapacity: nat)
  {
    predicate Done() { state in {Finished, Cancelled, Failed} }
  }

  function FreshView(req: GenerationRequest, handle: KvHandle): SeqView {
    SeqView(req.id, req.promptTokens, [], handle, req.config, InitialState(req.config), Prefilling, None, 0, 0,
            req.channelCapacity)
  }

  function MarkRunningView(v: SeqView): SeqView { if v.state.Prefilling? then v.(state := Running) else v }

  function CancelView(v: SeqView): SeqView { if v.Done() then v else v.(state := Cancelled) }

  function FailView(v: SeqView): SeqView { if v.Done() then v else v.(state := Failed) }

  function AppendView(v: SeqView, token: Token): SeqView {
    var w := v.(generated := v.generated + [token]);
    if v.finishReason.Some? then w
    else
      var ending := EndingAt(v.config, w.generated);
      if ending.None? then w
      else
        w.(state := Finished,
           finishReason := Some(ending.value.reason),
           trim := if ending.value.reason.Stop? then ending.value.trim else v.trim)
  }

  /**
   A terminal state is not absorbing by itself: appending a token moves a cancelled or
   failed sequence to finished exactly when nothing had ended it and that token does.
   */
  lemma TerminalStateIsKeptIff(v: SeqView, token: Token)
    requires v.Done()
    ensures AppendView(v, token).state == v.state
            <==> v.state.Finished? || v.finishReason.Some? || EndingAt(v.config, v.generated + [token]).None?
  {
  }

  /** A cancelled sequence that an EOS token turns into a finished one. */
  lemma CancelledCanFinish(v: SeqView)
    requires v.state.Running? && v.finishReason.None?
    ensures CancelView(v).state.Cancelled? && AppendView(CancelView(v), v.config.eosToken).state.Finished?
  {
    var more := v.generated + [v.config.eosToken];
    assert more[|more| - 1] == v.config.eosToken;
  }

  /** How many generated tokens may be shown. */
  function SafeEnd(v: SeqView): nat {
    if v.finishReason == Some(Stop) then SaturatingSub(|v.generated|, v.trim)
    else if v.finishReason == Some(Length) then |v.generated|
    else SaturatingSub(|v.generated|, HeldLen(v.config.stopSequences, v.generated))
  }

  function LastTokenOf(prompt: seq<Token>, generated: seq<Token>): Token {
    if generated != [] then generated[|generated| - 1]
    else if prompt != [] then prompt[|prompt| - 1]
    else 0
  }

  function PositionOf(prompt: seq<Token>, generated: seq<Token>): nat {
    SaturatingAdd(SaturatingSub(|prompt|, 1), |generated|)
  }

  // ----- One-shot truncation -----

  /** The first length `>= n` at which the token list ends a generation. */
  function FirstEnd(config: SamplerConfig, tokens: seq<Token>, n: nat): (r: Option<nat>)
    requires 0 < n
    ensures r.Some? ==> n <= r.value <= |tokens| && EndingAt(config, tokens[..r.value]).Some?
    ensures forall k :: n <= k <= |tokens| && (r.None? || k < r.value) ==> EndingAt(config, tokens[..k]).None?
    decreases |tokens| - n
  {
    if n > |tokens| then None
    else if EndingAt(config, tokens[..n]).Some? then Some(n)
    else FirstEnd(config, tokens, n + 1)
  }

  datatype Output = Output(tokens: seq<Token>, reason: FinishReason)

  /** Run a token list to its first end and cut it there; None when it does not end. */
  function OneShot(config: SamplerConfig, tokens: seq<Token>): Option<Output> {
    var n := FirstEnd(config, tokens, 1);
    if n.None? then None
    else
      var ending := EndingAt(config, tokens[..n.value]).value;
      Some(Output(tokens[..SaturatingSub(n.value, ending.trim)], ending.reason))
  }

  /** Nothing up to here ended the generation. */
  ghost predicate Unended(config: SamplerConfig, generated: seq<Token>) {
    forall k :: 0 < k <= |generated| ==> EndingAt(config, generated[..k]).None?
  }

  lemma UnendedPrefix(config: SamplerConfig, generated: seq<Token>, token: Token)
    requires Unended(config, generated)
    ensures forall k :: 0 < k <= |generated| ==> EndingAt(config, (generated + [token])[..k]).None?
    ensures EndingAt(config, generated + [token]).None? ==> Unended(config, generated + [token])
  {
    var more := generated + [token];
    forall k | 0 < k <= |generated| ensures EndingAt(config, more[..k]).None? {
      assert more[..k] == generated[..k];
    }
    assert more[..|more|] == more;
  }

  /** The end of a token list is decided by its first ending prefix, whatever follows. */
  lemma OneShotOfEnding(config: SamplerConfig, generated: seq<Token>, token: Token, tokens: seq<Token>)
    requires Unended(config, generated) && generated + [token] <= tokens
    requires EndingAt(config, generated + [token]).Some?
    ensures var ending := EndingAt(config, generated + [token]).value;
            OneShot(config, tokens)
            == Some(Output((generated + [token])[..SaturatingSub(|generated| + 1, ending.trim)], ending.reason))
  {
    var more := generated + [token];
    UnendedPrefix(config, generated, token);
    forall k | 0 < k <= |more| ensures tokens[..k] == more[..k] {
    }
    assert more[..|more|] == more;
    var n := FirstEnd(config, tokens, 1);
    assert tokens[..|more|] == more;
    assert n == Some(|more|);
  }

  // ----- The incremental filter agrees with one-shot truncation -----

  /** A sequence that keeps generating and has shown exactly what is safe. */
  ghost predicate Emitting(v: SeqView) {
    && v.finishReason.None? && Unended(v.config, v.generated)
    && v.emitted == SafeEnd(v) && v.emitted <= |v.generated|
  }

  lemma FreshIsEmitting(req: GenerationRequest, handle: KvHandle)
    ensures Emitting(FreshView(req, handle))
  {
  }

  lemma MatchedStop(stops: seq<seq<Token>>, generated: seq<Token>) returns (k: nat)
    requires MatchedStopLen(stops, generated).Some?
    ensures k < |stops| && |stops[k]| == MatchedStopLen(stops, generated).value > 0
    ensures |stops[k]| <= |generated| && OccursAt(generated, stops[k], |generated| - |stops[k]|)
  {
    MatchedStopIsLongest(stops, generated);
    k :| k < |stops| && |stops[k]| == MatchedStopLen(stops, generated).value > 0 && EndsWith(generated, stops[k]);
    var p := |generated| - |stops[k]|;
    assert generated[p..p + |stops[k]|] == generated[p..];
  }

  /** How many tokens of an unfinished generation may be shown. */
  function SafeLen(config: SamplerConfig, generated: seq<Token>): nat {
    SaturatingSub(|generated|, HeldLen(config.stopSequences, generated))
  }

  lemma SafeLenGrows(config: SamplerConfig, generated: seq<Token>, token: Token)
    ensures SafeLen(config, generated) <= SafeLen(config, generated + [token]) <= |generated| + 1
    ensures SafeLen(config, generated) <= |generated|
  {
    SafeEndNeverRetracts(config.stopSequences, generated, generated + [token]);
  }

  /** What is dropped at an end is the longest matched stop, or at most the EOS token. */
  lemma TrimIsMatched(config: SamplerConfig, more: seq<Token>)
    requires more != [] && EndingAt(config, more).Some?
    ensures var matched := MatchedStopLen(config.stopSequences, more);
            EndingAt(config, more).value.trim <= if matched.Some? then matched.value else 1
  {
    hide MatchedStopLen;
  }

  /** The tokens dropped at a stop were all still held back one token earlier. */
  lemma TrimmedTokensWereHeld(config: SamplerConfig, generated: seq<Token>, token: Token)
    requires EndingAt(config, generated + [token]).Some?
    ensures EndingAt(config, generated + [token]).value.trim <= |generated| + 1
    ensures SafeLen(config, generated) <= |generated| + 1 - EndingAt(config, generated + [token]).value.trim
  {
    hide HeldLen, MatchedStopLen, EndingAt;
    var stops, more := config.stopSequences, generated + [token];
    SafeLenGrows(config, generated, token);
    TrimIsMatched(config, more);
    if MatchedStopLen(stops, more).Some? {
      var k := MatchedStop(stops, more);
      CrossingWholeStopIsHeld(stops, generated, more, k, |more| - |stops[k]|);
    }
  }

  /** A token that does not end the generation: more may be shown, nothing is taken back. */
  lemma EmittingContinues(v: SeqView, token: Token)
    requires Emitting(v) && EndingAt(v.config, v.generated + [token]).None?
    ensures var w := AppendView(v, token);
            && w == v.(generated := v.generated + [token])
            && v.emitted <= SafeEnd(w) <= |w.generated| && Emitting(w.(emitted := SafeEnd(w)))
  {
    SafeLenGrows(v.config, v.generated, token);
    UnendedPrefix(v.config, v.generated, token);
    var w := AppendView(v, token);
    assert SafeEnd(v) == SafeLen(v.config, v.generated) && SafeEnd(w) == SafeLen(v.config, w.generated);
  }

  /** A token that ends the generation: what was shown is still within the output. */
  lemma EmittingEnds(v: SeqView, token: Token)
    requires Emitting(v) && EndingAt(v.config, v.generated + [token]).Some?
    ensures var w := AppendView(v, token); var ending := EndingAt(v.config, w.generated).value;
            && w.generated == v.generated + [token] && w.state.Finished? && w.finishReason == Some(ending.reason)
            && ending.trim <= |w.generated| && v.emitted <= SafeEnd(w) == |w.generated| - ending.trim
  {
    TrimmedTokensWereHeld(v.config, v.generated, token);
  }

  lemma FirstEndExists(config: SamplerConfig, tokens: seq<Token>)
    requires OneShot(config, tokens).Some?
    ensures !Unended(config, tokens)
  {
    var n := FirstEnd(config, tokens, 1).value;
    assert EndingAt(config, tokens[..n]).Some?;
  }

  /** Everything shown so far begins the one-shot output of any continuation. */
  lemma {:induction false} EmittedBeginsOneShot(v: SeqView, tokens: seq<Token>)
    requires Emitting(v) && v.generated <= tokens && OneShot(v.config, tokens).Some?
    ensures v.generated[..v.emitted] <= OneShot(v.config, tokens).value.tokens
    decreases |tokens| - |v.generated|
  {
    var n := |v.generated|;
    if n == |tokens| {
      assert v.generated == tokens;
      FirstEndExists(v.config, tokens);
    } else {
      var more := v.generated + [tokens[n]];
      assert more == tokens[..n + 1] && more[..v.emitted] == v.generated[..v.emitted];
      if EndingAt(v.config, more).None? {
        EmittingContinues(v, tokens[n]);
        var w := AppendView(v, tokens[n]);
        EmittedBeginsOneShot(w.(emitted := SafeEnd(w)), tokens);
        assert more[..v.emitted] <= more[..SafeEnd(w)];
      } else {
        EmittingEnds(v, tokens[n]);
        OneShotOfEnding(v.config, v.generated, tokens[n], tokens);
      }
    }
  }

  function Slice(s: seq<Token>, from: nat, to: nat): seq<Token> {
    if from <= to <= |s| then s[from..to] else []
  }

  lemma SlicesJoin(s: seq<Token>, t: seq<Token>, a: nat, b: nat, tail: seq<Token>)
    requires a <= b <= |s| && a <= |t| && t <= s
    ensures t[..a] + (Slice(s, a, b) + tail) == s[..b] + tail
  {
    assert t[..a] == s[..a];
    assert s[..a] + s[a..b] == s[..b];
  }

  /** Append each token and take what may be shown, until the sequence finishes. */
  function Emissions(v: SeqView, tokens: seq<Token>): seq<Token>
    decreases |tokens|
  {
    if tokens == [] || v.Done() then []
    else
      var w := AppendView(v, tokens[0]);
      Slice(w.generated, v.emitted, SafeEnd(w)) + Emissions(w.(emitted := SafeEnd(w)), tokens[1..])
  }

  /** One token more: what is newly shown joins what was shown before. */
  lemma EmissionsStep(v: SeqView, rest: seq<Token>, all: seq<Token>)
    requires rest != [] && !v.Done() && v.emitted <= |v.generated|
    requires var w := AppendView(v, rest[0]);
             && v.emitted <= SafeEnd(w) <= |w.generated|
             && w.generated[..SafeEnd(w)] + Emissions(w.(emitted := SafeEnd(w)), rest[1..]) == all
    ensures v.generated[..v.emitted] + Emissions(v, rest) == all
  {
    var w := AppendView(v, rest[0]);
    SlicesJoin(w.generated, v.generated, v.emitted, SafeEnd(w), Emissions(w.(emitted := SafeEnd(w)), rest[1..]));
  }

  lemma {:induction false} EmissionsFrom(v: SeqView, rest: seq<Token>)
    requires Emitting(v) && v.state.Running? && OneShot(v.config, v.generated + rest).Some?
    ensures v.generated[..v.emitted] + Emissions(v, rest) == OneShot(v.config, v.generated + rest).value.tokens
    decreases |rest|
  {
    if rest == [] {
      assert v.generated + rest == v.generated;
      FirstEndExists(v.config, v.generated);
    } else {
      var w, all := AppendView(v, rest[0]), v.generated + rest;
      assert v.generated + [rest[0]] + rest[1..] == all;
      if EndingAt(v.config, v.generated + [rest[0]]).None? {
        EmittingContinues(v, rest[0]);
        EmissionsFrom(w.(emitted := SafeEnd(w)), rest[1..]);
      } else {
        EmittingEnds(v, rest[0]);
        OneShotOfEnding(v.config, v.generated, rest[0], all);
        assert Emissions(w.(emitted := SafeEnd(w)), rest[1..]) == [];
      }
      EmissionsStep(v, rest, OneShot(v.config, all).value.tokens);
    }
  }

  /** Shown token by token, a finished generation shows exactly its one-shot truncation. */
  lemma EmissionsAreOneShot(req: GenerationRequest, handle: KvHandle, tokens: seq<Token>)
    requires OneShot(req.config, tokens).Some?
    ensures Emissions(MarkRunningView(FreshView(req, handle)), tokens) == OneShot(req.config, tokens).value.tokens
  {
    hide Emissions, OneShot, HeldLen, MatchedStopLen, EndingAt;
    var v := MarkRunningView(FreshView(req, handle));
    assert [] + tokens == tokens && [] + Emissions(v, tokens) == Emissions(v, tokens);
    EmissionsFrom(v, tokens);
  }

  /** The output ends before the token that ended the generation, unless that only used up the budget. */
  lemma OutputEnd(config: SamplerConfig, tokens: seq<Token>) returns (n: nat)
    requires OneShot(config, tokens).Some?
    ensures FirstEnd(config, tokens, 1) == Some(n) && n <= |tokens| && EndingAt(config, tokens[..n]).Some?
    ensures var out := OneShot(config, tokens).value.tokens;
            out <= tokens && |out| <= n && (|out| < n || EndingAt(config, tokens[..n]).value.reason.Length?)
  {
    n := FirstEnd(config, tokens, 1).value;
    MatchedStopIsLongest(config.stopSequences, tokens[..n]);
  }

  /** The output contains neither the EOS token nor a whole stop sequence. */
  lemma OutputIsClean(config: SamplerConfig, tokens: seq<Token>)
    requires OneShot(config, tokens).Some?
    ensures var out := OneShot(config, tokens).value.tokens;
            && config.eosToken !in out
            && forall k, p: nat :: 0 <= k < |config.stopSequences| && config.stopSequences[k] != [] ==>
                 !OccursAt(out, config.stopSequences[k], p)
  {
    hide OneShot, FirstEnd, EndingAt, MatchedStopLen;
    var out := OneShot(config, tokens).value.tokens;
    var n := OutputEnd(config, tokens);
    forall i | 0 <= i < |out| ensures out[i] != config.eosToken {
      CleanAt(config, tokens, n, i + 1);
    }
    forall k, p: nat
      | 0 <= k < |config.stopSequences| && config.stopSequences[k] != [] && OccursAt(out, config.stopSequences[k], p)
      ensures false
    {
      var stop := config.stopSequences[k];
      var q := p + |stop|;
      assert tokens[..q][|tokens[..q]| - |stop|..] == tokens[p..q] == out[p..q];
      CleanAt(config, tokens, n, q);
      MatchedStopIsLongest(config.stopSequences, tokens[..q]);
    }
  }

  /** A prefix that ended neither by EOS nor by a stop. */
  lemma CleanAt(config: SamplerConfig, tokens: seq<Token>, n: nat, k: nat)
    requires FirstEnd(config, tokens, 1) == Some(n) && 0 < k <= n
    requires k < n || EndingAt(config, tokens[..n]).value.reason.Length?
    ensures tokens[k - 1] != config.eosToken && MatchedStopLen(config.stopSequences, tokens[..k]).None?
  {
    assert k < n ==> EndingAt(config, tokens[..k]).None?;
    assert tokens[..k][k - 1] == tokens[k - 1];
  }

  /** Some nonempty stop sequence ends the list. */
  predicate EndsWithStop(config: SamplerConfig, generated: seq<Token>) {
    exists k :: 0 <= k < |config.stopSequences| && config.stopSequences[k] != []
                && EndsWith(generated, config.stopSequences[k])
  }

  /** `tail` is the longest stop sequence that ends the list. */
  ghost predicate IsLongestStop(config: SamplerConfig, generated: seq<Token>, tail: seq<Token>) {
    && tail != [] && tail in config.stopSequences && EndsWith(generated, tail)
    && forall stop :: stop in config.stopSequences && EndsWith(generated, stop) ==> |stop| <= |tail|
  }

  lemma LongestStop(config: SamplerConfig, generated: seq<Token>)
    ensures var matched := MatchedStopLen(config.stopSequences, generated);
            && (matched.Some? <==> EndsWithStop(config, generated))
            && (matched.Some? ==> matched.value <= |generated|
                                  && IsLongestStop(config, generated, generated[|generated| - matched.value..]))
  {
    hide MatchedStopLen;
    MatchedStopIsLongest(config.stopSequences, generated);
  }

  /** What ends a generation, and how much is cut off there. */
  lemma EndingMeaning(config: SamplerConfig, generated: seq<Token>)
    requires generated != []
    ensures var ending, last := EndingAt(config, generated), generated[|generated| - 1];
            if last == config.eosToken || EndsWithStop(config, generated) then
              && ending.Some? && ending.value.reason.Stop? && ending.value.trim <= |generated|
              && if EndsWithStop(config, generated) then
                   IsLongestStop(config, generated, generated[|generated| - ending.value.trim..])
                 else ending.value.trim == 1
            else
              ending == if |generated| >= config.maxNewTokens then Some(Ending(Length, 0)) else None
  {
    hide MatchedStopLen, IsLongestStop, EndsWithStop;
    LongestStop(config, generated);
  }

  /**
   Where a generation ends and what is cut off: after its whole budget, with nothing cut off,
   or earlier or there at an EOS token or a stop, with exactly the longest stop cut off or
   else the one EOS token.
   */
  lemma OneShotMeaning(config: SamplerConfig, tokens: seq<Token>)
    requires OneShot(config, tokens).Some?
    ensures var out, n := OneShot(config, tokens).value, FirstEnd(config, tokens, 1).value;
            && out.tokens <= tokens[..n]
            && (forall k :: 0 < k < n ==> k < config.maxNewTokens && !StoppedAt(config, tokens, k))
            && if StoppedAt(config, tokens, n) then
                 out.reason.Stop? && IsCutOff(config, tokens[..n], tokens[|out.tokens|..n])
               else out.reason.Length? && |out.tokens| == n == Max(1, config.maxNewTokens)
  {
    hide EndingAt, IsLongestStop, EndsWithStop;
    var n := FirstEnd(config, tokens, 1).value;
    forall k | 0 < k <= n ensures tokens[..k][k - 1] == tokens[k - 1] {
    }
    forall k | 0 < k < n ensures k < config.maxNewTokens && !StoppedAt(config, tokens, k) {
      EndingMeaning(config, tokens[..k]);
    }
    if n > 1 {
      EndingMeaning(config, tokens[..n - 1]);
    }
    EndingMeaning(config, tokens[..n]);
    var trim := EndingAt(config, tokens[..n]).value.trim;
    assert tokens[..n][..n - trim] == tokens[..n - trim];
    assert n > 1 ==> n - 1 < config.maxNewTokens;
    if StoppedAt(config, tokens, n) {
      assert tokens[..n][n - trim..] == tokens[n - trim..n];
      assert !EndsWithStop(config, tokens[..n]) ==> tokens[n - trim..n] == [tokens[n - 1]];
    }
  }

  /** The first `n` tokens end with an EOS token or a stop. */
  predicate StoppedAt(config: SamplerConfig, tokens: seq<Token>, n: nat)
    requires 0 < n <= |tokens|
  {
    tokens[n - 1] == config.eosToken || EndsWithStop(config, tokens[..n])
  }

  /** `tail` is what is cut off a stopped generation. */
  ghost predicate IsCutOff(config: SamplerConfig, generated: seq<Token>, tail: seq<Token>) {
    if EndsWithStop(config, generated) then IsLongestStop(config, generated, tail) else tail == [config.eosToken]
  }

  /** Of an unfinished generation everything is shown but the longest ending that may still become a stop. */
  lemma AllSafeIsShown(v: SeqView)
    requires v.finishReason.None?
    ensures IsHeld(v.config.stopSequences, v.generated, |v.generated| - SafeEnd(v))
  {
    HeldLenIsLongest(v.config.stopSequences, v.generated);
  }

  // ----- The sequence object -----

  class Sequence {
    const id: Id
    const promptTokens: seq<Token>
    const kvHandle: KvHandle
    const sampler: Sampler
    const channelCapacity: nat
    var generatedTokens: seq<Token>
    var state: SequenceState
    var finishReason: Option<FinishReason>
    var emittedTokens: nat
    var terminalTrimTokens: nat

    ghost function View(): SeqView
      reads this, sampler
    {
      SeqView(id, promptTokens, generatedTokens, kvHandle, sampler.config, sampler.rngState,
              state, finishReason, emittedTokens, terminalTrimTokens, channelCapacity)
    }

    constructor (req: GenerationRequest, kvHandle: KvHandle, exp: real -> real)
      ensures fresh(sampler) && sampler.exp == exp && View() == FreshView(req, kvHandle)
    {
      id, promptTokens, channelCapacity := req.id, req.promptTokens, req.channelCapacity;
      this.kvHandle := kvHandle;
      var s := new Sampler(req.config, exp);
      sampler := s;
      generatedTokens, state, finishReason := [], Prefilling, None;
      emittedTokens, terminalTrimTokens := 0, 0;
    }

    /** Admit a request: take a slot sized for its prompt and its token budget. */
    static method New(req: GenerationRequest, exp: real -> real, cache: SlabKvCache)
      returns (r: Result<Sequence, KvError>)
      requires cache.Valid()
      modifies cache
      ensures cache.Valid()
      ensures r.Ok? <==> HasRoom(old(cache.View()), |req.promptTokens|, req.config.maxNewTokens)
      ensures r.Err? ==> cache.View() == old(cache.View())
      ensures r.Ok? ==> old(cache.freeSlots[0] < cache.maxSeqs)
                        && fresh(r.value) && fresh(r.value.sampler) && r.value.sampler.exp == exp
                        && cache.View() == SlabAllocate(old(cache.View()), |req.promptTokens|, req.config.maxNewTokens)
                        && r.value.View()
                           == FreshView(req, NewHandle(old(cache.View()), |req.promptTokens|, req.config.maxNewTokens))
    {
      var handle := cache.Allocate(|req.promptTokens|, req.config.maxNewTokens);
      if handle.Err? {
        return Err(handle.error);
      }
      var s := new Sequence(req, handle.value, exp);
      return Ok(s);
    }

    predicate IsDone()
      reads this
    {
      state in {Finished, Cancelled, Failed}
    }

    method MarkRunning()
      modifies this
      ensures View() == MarkRunningView(old(View()))
    {
      if state == Prefilling {
        state := Running;
      }
    }

    method AppendToken(token: Token)
      modifies this
      ensures View() == AppendView(old(View()), token)
    {
      generatedTokens := generatedTokens + [token];
      if finishReason.None? {
        var matchedStopLen := MatchedStopLen(sampler.config.stopSequences, generatedTokens);
        var reason: Option<FinishReason> := None;
        if token == sampler.config.eosToken || matchedStopLen.Some? {
          terminalTrimTokens := if matchedStopLen.Some? then matchedStopLen.value else 1;
          reason := Some(Stop);
        } else if |generatedTokens| >= sampler.config.maxNewTokens {
          reason := Some(Length);
        }
        if reason.Some? {
          state := Finished;
          finishReason := reason;
        }
      }
    }

    method Cancel()
      modifies this
      ensures View() == CancelView(old(View()))
    {
      if state != Finished && state != Cancelled && state != Failed {
        state := Cancelled;
      }
    }

    method Fail()
      modifies this
      ensures View() == FailView(old(View()))
    {
      if state != Finished && state != Cancelled && state != Failed {
        state := Failed;
      }
    }

    /** Hand out the tokens that became safe to show; the slice needs the shown part to end before them. */
    method TakeEmittableTokens() returns (tokens: seq<Token>)
      requires View().emitted <= SafeEnd(View()) <= |View().generated|
      modifies this
      ensures tokens == old(View().generated[View().emitted..SafeEnd(View())])
      ensures View() == old(View().(emitted := SafeEnd(View())))
    {
      var safeEnd;
      match finishReason {
        case Some(Stop) => safeEnd := SaturatingSub(|generatedTokens|, terminalTrimTokens);
        case Some(Length) => safeEnd := |generatedTokens|;
        case None =>
          safeEnd := SaturatingSub(|generatedTokens|, HeldLen(sampler.config.stopSequences, generatedTokens));
      }
      tokens := generatedTokens[emittedTokens..safeEnd];
      emittedTokens := safeEnd;
    }

    /** The position of the token that the next decode step processes. */
    function DecodePosition(): nat
      reads this
    {
      SaturatingAdd(SaturatingSub(|promptTokens|, 1), |generatedTokens|)
    }

    function LastToken(): Token
      reads this
    {
      if generatedTokens != [] then generatedTokens[|generatedTokens| - 1]
      else if promptTokens != [] then promptTokens[|promptTokens| - 1]
      else 0
    }
  }
}
