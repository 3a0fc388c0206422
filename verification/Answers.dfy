/**
 What the response to a completed generation says, and when it is the whole decoded
 text cut once at its earliest stop.
 */
module Answers {
  import opened Basics
  import opened Overlap
  import opened Sequences
  import opened Clients
  import opened TextFilter
  import opened Responses
  import FallbackTokenizer

  /** The decoding of a token list, where it has one. */
  function TextOf(decode: Decoder, tokens: seq<Token>): string {
    if decode(tokens).Some? then decode(tokens).value else ""
  }

  /** The part of it that the filter is shown before the end. */
  function StableOf(decode: Decoder, tokens: seq<Token>): string { FallbackTokenizer.Trim(TextOf(decode, tokens)) }

  /** Every beginning of the token list decodes, and decoding one token more only adds to the settled text. */
  ghost predicate GrowsOn(decode: Decoder, tokens: seq<Token>) {
    && decode([]) == Some("")
    && (forall n :: 0 <= n <= |tokens| ==> decode(tokens[..n]).Some?)
    && (forall n :: 0 <= n < |tokens| ==> StableOf(decode, tokens[..n]) <= StableOf(decode, tokens[..n + 1]))
  }

  /** The texts pushed for the tokens from index `n` on. */
  function Texts(decode: Decoder, tokens: seq<Token>, n: nat): seq<string>
    requires n <= |tokens|
    decreases |tokens| - n
  {
    if n == |tokens| then [] else [StableOf(decode, tokens[..n + 1])] + Texts(decode, tokens, n + 1)
  }

  lemma {:induction false} TextsGrow(decode: Decoder, tokens: seq<Token>, n: nat)
    requires n <= |tokens| && GrowsOn(decode, tokens)
    ensures Growing(StableOf(decode, tokens[..n]), Texts(decode, tokens, n), TextOf(decode, tokens))
    decreases |tokens| - n
  {
    if n == |tokens| {
      assert tokens[..n] == tokens;
    } else {
      TextsGrow(decode, tokens, n + 1);
      assert Texts(decode, tokens, n)[1..] == Texts(decode, tokens, n + 1);
    }
  }

  /** The outcome that corresponds to a run of the filter. */
  predicate Shows(o: Outcome, shown: Shown, reason: FinishReason) {
    && o.text == shown.text && o.stopped == shown.stopped
    && o.end == Completed(if shown.stopped then FinishReason.Stop else reason)
  }

  /** On a complete history the response is what the text filter lets out. */
  lemma {:induction false} RespondIsFeed(stops: seq<string>, decode: Decoder, emitted: string, tokens: seq<Token>,
                                         n: nat, reason: FinishReason)
    requires n <= |tokens| && forall k :: 0 <= k <= |tokens| ==> decode(tokens[..k]).Some?
    requires Feed(stops, emitted, Texts(decode, tokens, n), TextOf(decode, tokens)).Ok?
    ensures Shows(Respond(stops, decode, emitted, tokens[..n], Messages(tokens[n..], Some(reason))),
                  Feed(stops, emitted, Texts(decode, tokens, n), TextOf(decode, tokens)).value, reason)
    decreases |tokens| - n
  {
    hide PushSpec, FinishSpec;
    var items := Messages(tokens[n..], Some(reason));
    if n == |tokens| {
      assert tokens[..n] == tokens;
      assert items == [FinishedItem(reason)];
    } else {
      assert items[0] == TokenItem(tokens[n]);
      assert items[1..] == Messages(tokens[n + 1..], Some(reason));
      assert tokens[..n] + [tokens[n]] == tokens[..n + 1];
      var text := StableOf(decode, tokens[..n + 1]);
      assert Texts(decode, tokens, n)[0] == text && Texts(decode, tokens, n)[1..] == Texts(decode, tokens, n + 1);
      var (update, emitted') := PushSpec(stops, emitted, text);
      if update.value.Continue? {
        RespondIsFeed(stops, decode, emitted', tokens, n + 1, reason);
      }
    }
  }

  /** The response to a channel that holds exactly these tokens and a finishing item. */
  function CompleteResponse(stops: seq<string>, decode: Decoder, tokens: seq<Token>, reason: FinishReason): Outcome {
    Respond(NonEmpty(stops), decode, "", [], Messages(tokens, Some(reason)))
  }

  /**
   A completed generation always yields a complete response: no error arm is reachable,
   and the text is cut where a pushed text first contains a stop.
   */
  lemma CompletedResponse(stops: seq<string>, decode: Decoder, tokens: seq<Token>, reason: FinishReason)
    requires GrowsOn(decode, tokens)
    ensures Shows(CompleteResponse(stops, decode, tokens, reason),
                  CutAtFirstSighting(NonEmpty(stops), Texts(decode, tokens, 0), TextOf(decode, tokens)), reason)
  {
    TextsGrow(decode, tokens, 0);
    assert tokens[..0] == [] && tokens[0..] == tokens;
    ResponseIsExact(NonEmpty(stops), Texts(decode, tokens, 0), TextOf(decode, tokens));
    RespondIsFeed(NonEmpty(stops), decode, "", tokens, 0, reason);
  }

  // ----- When the answer is the one-shot cut of the whole text -----

  /** No leading stop ends with the character that is held back until the end. */
  predicate NoTrimmedStop(stops: seq<string>) {
    forall i :: 0 <= i < |stops| && stops[i] != "" && Leading(stops, i) ==>
      stops[i][|stops[i]| - 1] != FallbackTokenizer.REPLACEMENT
  }

  lemma {:induction false} TrimmedAreReplacements(s: string)
    ensures forall x :: |FallbackTokenizer.Trim(s)| <= x < |s| ==> s[x] == FallbackTokenizer.REPLACEMENT
    decreases |s|
  {
    if s != "" && s[|s| - 1] == FallbackTokenizer.REPLACEMENT {
      TrimmedAreReplacements(s[..|s| - 1]);
    }
  }

  /** An occurrence that does not end with U+FFFD survives trimming. */
  lemma OccurrenceSurvivesTrim(s: string, stop: string, p: nat)
    requires OccursAt(s, stop, p) && stop != "" && stop[|stop| - 1] != FallbackTokenizer.REPLACEMENT
    ensures OccursAt(FallbackTokenizer.Trim(s), stop, p)
  {
    hide FallbackTokenizer.Trim;
    TrimmedAreReplacements(s);
    assert s[p + |stop| - 1] == s[p..p + |stop|][|stop| - 1];
    OccurrenceSurvivesGrowth(FallbackTokenizer.Trim(s), s, stop, p);
  }

  /** A stop in the whole text already shows in the trimmed one. */
  lemma StopSurvivesTrim(stops: seq<string>, s: string)
    requires NoTrimmedStop(stops) && forall k :: 0 <= k < |stops| ==> stops[k] != ""
    requires EarliestStop(stops, s).Some?
    ensures EarliestStop(stops, FallbackTokenizer.Trim(s)).Some?
  {
    hide FallbackTokenizer.Trim, OccursAt, EarliestStop;
    var p := EarliestStop(stops, s).value;
    var k := FoundStop(stops, s);
    var i := LeadingStopAt(stops, s, k, p);
    OccurrenceSurvivesTrim(s, stops[i], p);
    StopIsFound(stops, FallbackTokenizer.Trim(s), i, p);
  }

  lemma {:induction false} CutIsOneShot(stops: seq<string>, decode: Decoder, tokens: seq<Token>, n: nat)
    requires NoInnerStop(stops) && NoTrimmedStop(stops) && forall k :: 0 <= k < |stops| ==> stops[k] != ""
    requires GrowsOn(decode, tokens) && n <= |tokens| && EarliestStop(stops, StableOf(decode, tokens[..n])).None?
    ensures CutAtFirstSighting(stops, Texts(decode, tokens, n), TextOf(decode, tokens))
            == TextFilter.OneShot(stops, TextOf(decode, tokens))
    decreases |tokens| - n
  {
    var whole := TextOf(decode, tokens);
    if n == |tokens| {
      assert tokens[..n] == tokens;
      if EarliestStop(stops, whole).Some? {
        StopSurvivesTrim(stops, whole);
      }
    } else {
      var text := StableOf(decode, tokens[..n + 1]);
      assert Texts(decode, tokens, n)[0] == text && Texts(decode, tokens, n)[1..] == Texts(decode, tokens, n + 1);
      if EarliestStop(stops, text).None? {
        CutIsOneShot(stops, decode, tokens, n + 1);
      } else {
        TextsGrow(decode, tokens, n + 1);
        GrowingReachesLast(text, Texts(decode, tokens, n + 1), whole);
        EarliestStopMeaning(stops, text);
        EarliestStopIsStable(stops, text, whole);
        var q := EarliestStop(stops, text).value;
        assert text[..q] == whole[..q];
      }
    }
  }

  /**
   Unless a stop lies strictly inside a leading stop, or a leading stop ends with U+FFFD,
   the answer is the whole decoded text cut at the earliest start of any stop, even where
   the token budget ends inside a character.
   */
  lemma CompletedResponseIsOneShot(stops: seq<string>, decode: Decoder, tokens: seq<Token>, reason: FinishReason)
    requires NoInnerStop(NonEmpty(stops)) && NoTrimmedStop(NonEmpty(stops)) && GrowsOn(decode, tokens)
    ensures Shows(CompleteResponse(stops, decode, tokens, reason),
                  TextFilter.OneShot(NonEmpty(stops), TextOf(decode, tokens)), reason)
  {
    CompletedResponse(stops, decode, tokens, reason);
    NoStopInEmpty(NonEmpty(stops));
    assert tokens[..0] == [] && FallbackTokenizer.Trim("") == "";
    CutIsOneShot(NonEmpty(stops), decode, tokens, 0);
  }

  // ----- The byte-level tokenizer -----

  function FallbackDecode(tokens: seq<Token>): Option<string> { Some(FallbackTokenizer.Decode(tokens)) }

  /** Whatever bytes the tokens name, their decodings grow. */
  lemma FallbackGrows(tokens: seq<Token>)
    ensures GrowsOn(FallbackDecode, tokens)
  {
    assert FallbackTokenizer.Bytes([]) == [];
    forall n | 0 <= n < |tokens|
      ensures StableOf(FallbackDecode, tokens[..n]) <= StableOf(FallbackDecode, tokens[..n + 1])
    {
      FallbackTokenizer.StableGrows(tokens[..n], tokens[..n + 1]);
    }
  }

  /** For every generation, the response is the one-shot cut of its whole decoding. */
  ghost predicate AnswersAreOneShot(stops: seq<string>) {
    forall tokens: seq<Token>, reason: FinishReason ::
      Shows(CompleteResponse(stops, FallbackDecode, tokens, reason),
            TextFilter.OneShot(NonEmpty(stops), TextOf(FallbackDecode, tokens)), reason)
  }

  /** A proper beginning of a leading stop has no stop at its front. */
  lemma FrontIsFree(stops: seq<string>, i: nat, text: string)
    requires i < |stops| && Leading(stops, i) && text < stops[i] && EarliestStop(stops, text).Some?
    ensures EarliestStop(stops, text).value > 0
  {
    if EarliestStop(stops, text).value == 0 {
      var k := FoundStop(stops, text);
      FrontOccurrenceIsPrefix(text, stops[i], stops[k]);
    }
  }

  /**
   As long as the pushed texts stay short of the leading stop `stops[i]`, a response is
   never cut at its very front: another stop is sighted first, by token `m`, or none at all.
   */
  lemma {:induction false} NeverCutAtFront(stops: seq<string>, i: nat, tokens: seq<Token>, n: nat, m: nat)
    requires i < |stops| && Leading(stops, i) && n <= m <= |tokens|
    requires forall k :: n < k <= m ==> StableOf(FallbackDecode, tokens[..k]) < stops[i]
    requires m == |tokens| || (n < m && EarliestStop(stops, StableOf(FallbackDecode, tokens[..m])).Some?)
    ensures CutAtFirstSighting(stops, Texts(FallbackDecode, tokens, n), TextOf(FallbackDecode, tokens))
            != Shown("", true)
    decreases |tokens| - n
  {
    if n < |tokens| {
      var text := StableOf(FallbackDecode, tokens[..n + 1]);
      var texts := Texts(FallbackDecode, tokens, n);
      assert texts[0] == text && texts[1..] == Texts(FallbackDecode, tokens, n + 1);
      if EarliestStop(stops, text).Some? {
        FrontIsFree(stops, i, text);
        EarliestStopMeaning(stops, text);
      } else {
        NeverCutAtFront(stops, i, tokens, n + 1, m);
      }
    }
  }

  lemma WholeStopIsCutAtFront(stops: seq<string>, i: nat)
    requires i < |stops|
    ensures TextFilter.OneShot(stops, stops[i]) == Shown("", true)
  {
    assert OccursAt(stops[i], stops[i], 0);
    StopIsFound(stops, stops[i], i, 0);
  }

  lemma {:induction false} EncodeConcat(x: string, y: string)
    ensures FallbackTokenizer.EncodeBytes(x + y) == FallbackTokenizer.EncodeBytes(x) + FallbackTokenizer.EncodeBytes(y)
    decreases |x|
  {
    if x == "" {
      assert x + y == y;
    } else {
      assert (x + y)[1..] == x[1..] + y;
      EncodeConcat(x[1..], y);
    }
  }

  /** The bytes of a text begin those of every longer one. */
  lemma EncodeOfPrefix(x: string, whole: string)
    requires x <= whole
    ensures FallbackTokenizer.Encode(x) <= FallbackTokenizer.Encode(whole)
  {
    assert whole == x + whole[|x|..];
    EncodeConcat(x, whole[|x|..]);
  }

  /** A generation that spells a leading stop ending with U+FFFD is never cut at its front. */
  lemma TrimmedStopIsMissed(stops: seq<string>, i: nat) returns (tokens: seq<Token>)
    requires i < |stops| && Leading(stops, i)
    requires stops[i] != "" && stops[i][|stops[i]| - 1] == FallbackTokenizer.REPLACEMENT
    ensures CutAtFirstSighting(stops, Texts(FallbackDecode, tokens, 0), TextOf(FallbackDecode, tokens))
            != TextFilter.OneShot(stops, TextOf(FallbackDecode, tokens))
  {
    var outer := stops[i];
    tokens := FallbackTokenizer.Encode(outer);
    FallbackTokenizer.DecodeInvertsEncode(outer);
    WholeStopIsCutAtFront(stops, i);
    forall k | 0 < k <= |tokens| ensures StableOf(FallbackDecode, tokens[..k]) < outer {
      FallbackTokenizer.StableGrows(tokens[..k], tokens);
      assert FallbackTokenizer.Trim(outer) <= outer[..|outer| - 1];
    }
    NeverCutAtFront(stops, i, tokens, 0, |tokens|);
  }

  /** A generation that spells a leading stop with another one inside is cut at the inner one. */
  lemma InnerStopIsSightedFirst(stops: seq<string>, i: nat, j: nat, a: nat) returns (tokens: seq<Token>)
    requires i < |stops| && j < |stops| && Leading(stops, i) && OccursAt(stops[i], stops[j], a)
    requires stops[j] != "" && a + |stops[j]| < |stops[i]|
    requires stops[j][|stops[j]| - 1] != FallbackTokenizer.REPLACEMENT
    ensures CutAtFirstSighting(stops, Texts(FallbackDecode, tokens, 0), TextOf(FallbackDecode, tokens))
            != TextFilter.OneShot(stops, TextOf(FallbackDecode, tokens))
  {
    hide OccursAt, FallbackTokenizer.Encode, FallbackTokenizer.Decode, EarliestStop, CutAtFirstSighting, Texts;
    var outer := stops[i];
    var first := InnerFront(outer, stops[j], a);
    tokens := FallbackTokenizer.Encode(outer);
    FallbackTokenizer.DecodeInvertsEncode(outer);
    FallbackTokenizer.DecodeInvertsEncode(first);
    WholeStopIsCutAtFront(stops, i);
    EncodeOfPrefix(first, outer);
    var m := |FallbackTokenizer.Encode(first)|;
    assert tokens[..m] == FallbackTokenizer.Encode(first);
    assert StableOf(FallbackDecode, tokens[..m]) == first;
    StopIsFound(stops, first, j, a);
    forall k | 0 < k <= m ensures StableOf(FallbackDecode, tokens[..k]) < outer {
      FallbackTokenizer.StableGrows(tokens[..k], tokens[..m]);
    }
    assert m > 0 by {
      NothingEncoded(tokens);
    }
    NeverCutAtFront(stops, i, tokens, 0, m);
  }

  lemma NothingEncoded(tokens: seq<Token>)
    ensures FallbackTokenizer.Decode(tokens[..0]) == ""
  {
    assert tokens[..0] == [] && FallbackTokenizer.Bytes([]) == [];
  }

  /** The outer stop up to the end of the inner one. */
  lemma InnerFront(outer: string, inner: string, a: nat) returns (first: string)
    requires OccursAt(outer, inner, a) && inner != "" && inner[|inner| - 1] != FallbackTokenizer.REPLACEMENT
    requires a + |inner| < |outer|
    ensures first < outer && first != "" && OccursAt(first, inner, a) && FallbackTokenizer.Trim(first) == first
  {
    first := outer[..a + |inner|];
    assert first[a..a + |inner|] == outer[a..a + |inner|];
    assert first[|first| - 1] == outer[a..a + |inner|][|inner| - 1];
  }

  lemma ShownOnce(o: Outcome, a: Shown, b: Shown, reason: FinishReason)
    requires Shows(o, a, reason) && a != b
    ensures !Shows(o, b, reason)
  {
  }

  /** One generation whose response is not the one-shot cut refutes the claim for all. */
  lemma OneCounterexample(stops: seq<string>, tokens: seq<Token>)
    requires CutAtFirstSighting(NonEmpty(stops), Texts(FallbackDecode, tokens, 0), TextOf(FallbackDecode, tokens))
             != TextFilter.OneShot(NonEmpty(stops), TextOf(FallbackDecode, tokens))
    ensures !AnswersAreOneShot(stops)
  {
    hide Respond, CutAtFirstSighting, GrowsOn;
    FallbackGrows(tokens);
    var reason := FinishReason.Length;
    CompletedResponse(stops, FallbackDecode, tokens, reason);
    ShownOnce(CompleteResponse(stops, FallbackDecode, tokens, reason),
              CutAtFirstSighting(NonEmpty(stops), Texts(FallbackDecode, tokens, 0), TextOf(FallbackDecode, tokens)),
              TextFilter.OneShot(NonEmpty(stops), TextOf(FallbackDecode, tokens)), reason);
  }

  /** A leading stop, no longer than `stops[k]`, that occurs where `stops[k]` does. */
  lemma LeadingInside(stops: seq<string>, s: string, k: nat, p: nat) returns (i: nat)
    requires k < |stops| && OccursAt(s, stops[k], p)
    ensures i < |stops| && Leading(stops, i) && OccursAt(s, stops[i], p) && |stops[i]| <= |stops[k]|
  {
    var head := s[..p + |stops[k]|];
    assert head[p..p + |stops[k]|] == s[p..p + |stops[k]|];
    i := LeadingStopAt(stops, head, k, p);
    OccurrenceSurvivesGrowth(head, s, stops[i], p);
  }

  lemma TrimmedStopRefutes(stops: seq<string>)
    requires !NoTrimmedStop(NonEmpty(stops))
    ensures !AnswersAreOneShot(stops)
  {
    hide AnswersAreOneShot, CutAtFirstSighting, Texts, NonEmpty, Leading;
    var active := NonEmpty(stops);
    var i :| 0 <= i < |active| && active[i] != "" && Leading(active, i)
             && active[i][|active[i]| - 1] == FallbackTokenizer.REPLACEMENT;
    var tokens := TrimmedStopIsMissed(active, i);
    OneCounterexample(stops, tokens);
  }

  lemma InnerStopRefutes(stops: seq<string>)
    requires NoTrimmedStop(NonEmpty(stops)) && !NoInnerStop(NonEmpty(stops))
    ensures !AnswersAreOneShot(stops)
  {
    hide AnswersAreOneShot, CutAtFirstSighting, Texts, NonEmpty, Leading, OccursAt;
    var active := NonEmpty(stops);
    var i, k :| 0 <= i < |active| && 0 <= k < |active| && Leading(active, i) && StrictlyInside(active[k], active[i]);
    var a :| 0 < a < |active[i]| && a + |active[k]| < |active[i]| && OccursAt(active[i], active[k], a);
    var j := LeadingInside(active, active[i], k, a);
    var tokens := InnerStopIsSightedFirst(active, i, j, a);
    OneCounterexample(stops, tokens);
  }

  /**
   Over the byte-level tokenizer, every answer is the one-shot cut of its text exactly
   when no stop lies strictly inside a leading stop and no leading stop ends with U+FFFD.
   */
  lemma AnswersAreOneShotIff(stops: seq<string>)
    ensures AnswersAreOneShot(stops) <==> NoInnerStop(NonEmpty(stops)) && NoTrimmedStop(NonEmpty(stops))
  {
    hide CompleteResponse, NonEmpty, NoInnerStop, NoTrimmedStop, TextFilter.OneShot, GrowsOn, Shows;
    if !NoTrimmedStop(NonEmpty(stops)) {
      TrimmedStopRefutes(stops);
    } else if !NoInnerStop(NonEmpty(stops)) {
      InnerStopRefutes(stops);
    } else {
      forall tokens: seq<Token>, reason: FinishReason
        ensures Shows(CompleteResponse(stops, FallbackDecode, tokens, reason),
                      TextFilter.OneShot(NonEmpty(stops), TextOf(FallbackDecode, tokens)), reason)
      {
        FallbackGrows(tokens);
        CompletedResponseIsOneShot(stops, FallbackDecode, tokens, reason);
      }
    }
  }

  /** The smallest case: the budget ends inside a character, and the held-back U+FFFD is itself a stop. */
  lemma HeldStopIsLetOut()
    ensures var stops := ["\U{FFFD}"]; var tokens := [195];
            && TextOf(FallbackDecode, tokens) == "\U{FFFD}"
            && Shows(CompleteResponse(stops, FallbackDecode, tokens, FinishReason.Length),
                     Shown("\U{FFFD}", false), FinishReason.Length)
            && TextFilter.OneShot(NonEmpty(stops), "\U{FFFD}") == Shown("", true)
  {
    assert FallbackTokenizer.Bytes([195]) == [194];
  }
}
