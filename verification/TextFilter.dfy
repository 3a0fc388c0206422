/**
 The text-level stop filter of the HTTP responses. Texts are sequences of Unicode
 scalar values, so every offset is a character boundary.
 */
module TextFilter {
  import opened Basics
  import opened Overlap

  datatype FilterUpdate = Continue(text: string) | Stop(text: string)

  datatype FilterError = ChangedEmittedText | StopInEmittedText | HeldCrossedEmittedText

  /** `str::find`: the first position at or after `from` where `stop` occurs. */
  function FindFrom(s: string, stop: string, from: nat): (r: Option<nat>)
    requires from <= |s|
    ensures r.Some? ==> from <= r.value && OccursAt(s, stop, r.value)
    ensures forall p: nat :: from <= p && OccursAt(s, stop, p) ==> r.Some? && r.value <= p
    decreases |s| - from
  {
    if OccursAt(s, stop, from) then Some(from)
    else if from == |s| then None
    else FindFrom(s, stop, from + 1)
  }

  function MinOption(a: Option<nat>, b: Option<nat>): Option<nat> {
    if a.None? then b else if b.None? then a else Some(Min(a.value, b.value))
  }

  /** The earliest start of any stop in `s`. */
  function EarliestStop(stops: seq<string>, s: string): Option<nat> {
    if stops == [] then None else MinOption(FindFrom(s, stops[0], 0), EarliestStop(stops[1..], s))
  }

  ghost predicate StopAt(stops: seq<string>, s: string, p: nat) {
    exists k :: 0 <= k < |stops| && OccursAt(s, stops[k], p)
  }

  lemma {:induction false} EarliestStopMeaning(stops: seq<string>, s: string)
    ensures EarliestStop(stops, s).Some? ==> StopAt(stops, s, EarliestStop(stops, s).value)
    ensures EarliestStop(stops, s).Some? ==> EarliestStop(stops, s).value <= |s|
    ensures forall p: nat :: StopAt(stops, s, p) ==> EarliestStop(stops, s).Some? && EarliestStop(stops, s).value <= p
  {
    if stops != [] {
      EarliestStopMeaning(stops[1..], s);
      var r := EarliestStop(stops, s);
      if r.Some? {
        if r == FindFrom(s, stops[0], 0) {
          assert OccursAt(s, stops[0], r.value);
        } else {
          var k :| 0 <= k < |stops[1..]| && OccursAt(s, stops[1..][k], r.value);
          assert stops[k + 1] == stops[1..][k];
        }
      }
      forall p: nat | StopAt(stops, s, p) ensures r.Some? && r.value <= p {
        var k :| 0 <= k < |stops| && OccursAt(s, stops[k], p);
        if k > 0 {
          assert stops[1..][k - 1] == stops[k];
          assert StopAt(stops[1..], s, p);
        }
      }
    }
  }

  lemma StopIsFound(stops: seq<string>, s: string, k: nat, p: nat)
    requires k < |stops| && OccursAt(s, stops[k], p)
    ensures EarliestStop(stops, s).Some? && EarliestStop(stops, s).value <= p
  {
    EarliestStopMeaning(stops, s);
    assert StopAt(stops, s, p);
  }

  lemma FoundStop(stops: seq<string>, s: string) returns (k: nat)
    requires EarliestStop(stops, s).Some?
    ensures k < |stops| && OccursAt(s, stops[k], EarliestStop(stops, s).value)
  {
    EarliestStopMeaning(stops, s);
    k :| k < |stops| && OccursAt(s, stops[k], EarliestStop(stops, s).value);
  }

  /** What `push` answers and how much text counts as emitted afterwards. */
  function PushSpec(stops: seq<string>, emitted: string, decoded: string): (Result<FilterUpdate, FilterError>, string) {
    if !(emitted <= decoded) then (Err(ChangedEmittedText), emitted)
    else
      var at := EarliestStop(stops, decoded);
      EarliestStopMeaning(stops, decoded);
      if at.Some? then
        if at.value < |emitted| then (Err(StopInEmittedText), emitted)
        else (Ok(Stop(decoded[|emitted|..at.value])), decoded[..at.value])
      else
        HeldLenIsLongest(stops, decoded);
        var safeEnd := SaturatingSub(|decoded|, HeldLen(stops, decoded));
        if safeEnd < |emitted| then (Err(HeldCrossedEmittedText), emitted)
        else (Ok(Continue(decoded[|emitted|..safeEnd])), decoded[..safeEnd])
  }

  lemma HeldIsHeld(stops: seq<string>, decoded: string)
    ensures HeldLen(stops, decoded) <= |decoded| && IsHeld(stops, decoded, HeldLen(stops, decoded))
  {
    HeldLenIsLongest(stops, decoded);
  }

  /**
   A push that succeeds lets out either everything before the first stop, or everything but
   the longest ending that may still become a stop. It fails only where that would take back
   what was let out before.
   */
  lemma PushMeaning(stops: seq<string>, emitted: string, decoded: string)
    ensures var (r, now) := PushSpec(stops, emitted, decoded);
            && (if r.Err? then now == emitted else now == emitted + r.value.text <= decoded)
            && (r == Err(ChangedEmittedText) <==> !(emitted <= decoded))
            && (r.Ok? && r.value.Stop? ==> IsFirstStop(stops, decoded, |now|))
            && (r.Ok? && r.value.Continue? ==>
                  EarliestStop(stops, decoded).None? && IsHeld(stops, decoded, |decoded| - |now|))
            && (r == Err(StopInEmittedText) ==> exists q: nat :: q < |emitted| && IsFirstStop(stops, decoded, q))
            && (r == Err(HeldCrossedEmittedText) ==>
                  EarliestStop(stops, decoded).None?
                  && exists h: nat :: |decoded| - h < |emitted| && IsHeld(stops, decoded, h))
  {
    EarliestStopMeaning(stops, decoded);
    hide EarliestStop, IsHeld, HeldLen, IsFirstStop, StopAt;
    HeldIsHeld(stops, decoded);
    if EarliestStop(stops, decoded).Some? {
      FirstStopIff(stops, decoded, EarliestStop(stops, decoded).value);
    }
  }

  function FinishSpec(emitted: string, decoded: string): Result<string, FilterError> {
    if emitted <= decoded then Ok(decoded[|emitted|..]) else Err(ChangedEmittedText)
  }

  /** The end lets out the whole rest, and fails only if the text changed. */
  lemma FinishMeaning(emitted: string, decoded: string)
    ensures var r := FinishSpec(emitted, decoded);
            (r.Ok? ==> emitted + r.value == decoded)
            && (r.Err? <==> !(emitted <= decoded)) && (r.Err? ==> r.error == ChangedEmittedText)
  {
  }

  function NonEmpty(stops: seq<string>): (r: seq<string>)
    ensures forall k :: 0 <= k < |r| ==> r[k] != ""
    ensures forall s :: s in r <==> s in stops && s != ""
  {
    if stops == [] then []
    else (if stops[0] == "" then [] else [stops[0]]) + NonEmpty(stops[1..])
  }

  class TextOutputFilter {
    const stops: seq<string>
    var emitted: string

    constructor (stops: seq<string>)
      ensures this.stops == NonEmpty(stops) && emitted == ""
    {
      this.stops := NonEmpty(stops);
      emitted := "";
    }

    method Push(decoded: string) returns (r: Result<FilterUpdate, FilterError>)
      modifies this
      ensures (r, emitted) == PushSpec(stops, old(emitted), decoded)
    {
      if !(emitted <= decoded) {
        return Err(ChangedEmittedText);
      }
      var earliestStop := EarliestStop(stops, decoded);
      EarliestStopMeaning(stops, decoded);
      if earliestStop.Some? {
        var stopAt := earliestStop.value;
        if stopAt < |emitted| {
          return Err(StopInEmittedText);
        }
        var text := decoded[|emitted|..stopAt];
        emitted := emitted + text;
        assert emitted == decoded[..stopAt];
        return Ok(Stop(text));
      }
      var heldLen := HeldLen(stops, decoded);
      HeldLenIsLongest(stops, decoded);
      var safeEnd := SaturatingSub(|decoded|, heldLen);
      if safeEnd < |emitted| {
        return Err(HeldCrossedEmittedText);
      }
      var text := decoded[|emitted|..safeEnd];
      emitted := emitted + text;
      assert emitted == decoded[..safeEnd];
      return Ok(Continue(text));
    }

    method Finish(decoded: string) returns (r: Result<string, FilterError>)
      modifies this
      ensures r == FinishSpec(old(emitted), decoded)
      ensures emitted == if r.Ok? then decoded else old(emitted)
    {
      if !(emitted <= decoded) {
        return Err(ChangedEmittedText);
      }
      var text := decoded[|emitted|..];
      emitted := emitted + text;
      return Ok(text);
    }
  }

  // ----- Whole responses -----

  /** Everything one response lets out, and whether a stop ended it. */
  datatype Shown = Shown(text: string, stopped: bool)

  /** Push every text in turn until a stop matches; otherwise finish with `last`. */
  function Feed(stops: seq<string>, emitted: string, texts: seq<string>, last: string): Result<Shown, FilterError>
    decreases |texts|
  {
    if texts == [] then
      var r := FinishSpec(emitted, last);
      if r.Err? then Err(r.error) else Ok(Shown(r.value, false))
    else
      var (r, emitted') := PushSpec(stops, emitted, texts[0]);
      if r.Err? then Err(r.error)
      else if r.value.Stop? then Ok(Shown(r.value.text, true))
      else
        var rest := Feed(stops, emitted', texts[1..], last);
        if rest.Err? then rest else Ok(Shown(r.value.text + rest.value.text, rest.value.stopped))
  }

  /** Each text extends the one before it, starting from `base` and ending in `last`. */
  predicate Growing(base: string, texts: seq<string>, last: string)
    decreases |texts|
  {
    if texts == [] then base <= last else base <= texts[0] && Growing(texts[0], texts[1..], last)
  }

  /** The first pushed text that contains a stop, cut there; `last` in full when there is none. */
  function CutAtFirstSighting(stops: seq<string>, texts: seq<string>, last: string): Shown {
    if texts == [] then Shown(last, false)
    else
      var at := EarliestStop(stops, texts[0]);
      EarliestStopMeaning(stops, texts[0]);
      if at.Some? then Shown(texts[0][..at.value], true) else CutAtFirstSighting(stops, texts[1..], last)
  }

  /** Looking at the complete text once: cut at the earliest start of any stop. */
  function OneShot(stops: seq<string>, text: string): Shown {
    var at := EarliestStop(stops, text);
    EarliestStopMeaning(stops, text);
    if at.Some? then Shown(text[..at.value], true) else Shown(text, false)
  }

  /** What a filter that saw `base` and no stop in it has let out. */
  function SafeText(stops: seq<string>, base: string): (r: string)
    ensures r <= base
  {
    HeldLenIsLongest(stops, base);
    base[..|base| - HeldLen(stops, base)]
  }

  /** A stop that first shows up after growth never begins in text already let out. */
  lemma NewStopIsBeyondSafeText(stops: seq<string>, base: string, text: string)
    requires base <= text && EarliestStop(stops, base).None? && EarliestStop(stops, text).Some?
    ensures |SafeText(stops, base)| <= EarliestStop(stops, text).value
  {
    var p := EarliestStop(stops, text).value;
    var k := FoundStop(stops, text);
    HeldLenIsLongest(stops, base);
    if p + |stops[k]| <= |base| {
      OccurrenceSurvivesGrowth(base, text, stops[k], p);
      StopIsFound(stops, base, k, p);
      assert false;
    } else {
      CrossingWholeStopIsHeld(stops, base, text, k, p);
    }
  }

  /** One push on grown text: never an error, and exactly the newly safe text. */
  lemma PushIsExact(stops: seq<string>, base: string, text: string)
    requires EarliestStop(stops, base).None? && base <= text
    ensures var safe := SafeText(stops, base);
            var at := EarliestStop(stops, text);
            if at.Some? then
              |safe| <= at.value <= |text|
              && PushSpec(stops, safe, text).0 == Ok(Stop(text[|safe|..at.value]))
            else
              |safe| <= |SafeText(stops, text)| && safe <= text
              && PushSpec(stops, safe, text)
                 == (Ok(Continue(text[|safe|..|SafeText(stops, text)|])), SafeText(stops, text))
  {
    SafeEndNeverRetracts(stops, base, text);
    EarliestStopMeaning(stops, text);
    hide EarliestStop, HeldLen, StopAt;
    if EarliestStop(stops, text).Some? {
      NewStopIsBeyondSafeText(stops, base, text);
    }
  }

  /** On growing texts no error arm is reachable and the exact output is known, stop by stop. */
  lemma {:induction false} FeedIsExact(stops: seq<string>, base: string, texts: seq<string>, last: string)
    requires EarliestStop(stops, base).None? && Growing(base, texts, last)
    ensures var cut := CutAtFirstSighting(stops, texts, last);
            SafeText(stops, base) <= cut.text
            && Feed(stops, SafeText(stops, base), texts, last)
               == Ok(Shown(cut.text[|SafeText(stops, base)|..], cut.stopped))
    decreases |texts|
  {
    if texts != [] {
      var text, safe := texts[0], SafeText(stops, base);
      PushIsExact(stops, base, text);
      if EarliestStop(stops, text).Some? {
        var at := EarliestStop(stops, text).value;
        assert text[..at][|safe|..] == text[|safe|..at];
      } else {
        FeedIsExact(stops, text, texts[1..], last);
        SplitTail(CutAtFirstSighting(stops, texts, last).text, safe, SafeText(stops, text), text);
      }
    }
  }

  lemma SplitTail(out: string, safe: string, safe': string, text: string)
    requires safe <= text && safe' <= text && |safe| <= |safe'| && safe' <= out
    ensures safe <= out && text[|safe|..|safe'|] + out[|safe'|..] == out[|safe|..]
  {
    assert safe' == text[..|safe'|] == out[..|safe'|];
    assert safe == text[..|safe|] == safe'[..|safe|] == out[..|safe|];
    assert text[|safe|..|safe'|] == safe'[|safe|..] == out[|safe|..|safe'|];
  }

  lemma NoStopInEmpty(stops: seq<string>)
    requires forall k :: 0 <= k < |stops| ==> stops[k] != ""
    ensures EarliestStop(stops, "").None? && SafeText(stops, "") == ""
  {
    if EarliestStop(stops, "").Some? {
      var k := FoundStop(stops, "");
    }
  }

  /** A whole response over growing texts never fails and shows exactly the first-sighting cut. */
  lemma ResponseIsExact(stops: seq<string>, texts: seq<string>, last: string)
    requires forall k :: 0 <= k < |stops| ==> stops[k] != ""
    requires Growing("", texts, last)
    ensures Feed(stops, "", texts, last) == Ok(CutAtFirstSighting(stops, texts, last))
  {
    NoStopInEmpty(stops);
    FeedIsExact(stops, "", texts, last);
    var cut := CutAtFirstSighting(stops, texts, last);
    assert cut.text[0..] == cut.text;
  }

  /** When a stop ended the response, the shown text contains no stop at all. */
  lemma {:induction false} StoppedTextHasNoStop(stops: seq<string>, texts: seq<string>, last: string)
    requires CutAtFirstSighting(stops, texts, last).stopped
    requires forall k :: 0 <= k < |stops| ==> stops[k] != ""
    ensures EarliestStop(stops, CutAtFirstSighting(stops, texts, last).text).None?
  {
    var at := EarliestStop(stops, texts[0]);
    if at.None? {
      StoppedTextHasNoStop(stops, texts[1..], last);
    } else {
      EarliestStopMeaning(stops, texts[0]);
      var out := texts[0][..at.value];
      var inner := EarliestStop(stops, out);
      if inner.Some? {
        var k := FoundStop(stops, out);
        OccurrenceSurvivesGrowth(out, texts[0], stops[k], inner.value);
        StopIsFound(stops, texts[0], k, inner.value);
      }
    }
  }

  // ----- When the cutting of the text into pushes matters -----

  /** No other stop is a proper prefix of `stops[i]`, so `stops[i]` can be the first to complete at its start. */
  predicate Leading(stops: seq<string>, i: nat)
    requires i < |stops|
  {
    forall k :: 0 <= k < |stops| ==> !(stops[k] < stops[i])
  }

  /** No stop lies strictly inside a leading stop: later start and earlier end. */
  predicate NoInnerStop(stops: seq<string>) {
    forall i, j :: 0 <= i < |stops| && 0 <= j < |stops| && Leading(stops, i) ==> !StrictlyInside(stops[j], stops[i])
  }

  predicate StrictlyInside(inner: string, outer: string) {
    exists a :: 0 < a < |outer| && a + |inner| < |outer| && OccursAt(outer, inner, a)
  }

  /** However the complete text is cut into growing pushes, the response shows the one-shot cut. */
  ghost predicate ChunkingIrrelevant(stops: seq<string>) {
    forall texts: seq<string> :: texts != [] && Growing("", texts, texts[|texts| - 1]) ==>
      Feed(stops, "", texts, texts[|texts| - 1]) == Ok(OneShot(stops, texts[|texts| - 1]))
  }

  /** A stop that occurs at `p` is, or begins with, a leading stop that occurs at `p`. */
  lemma {:induction false} LeadingStopAt(stops: seq<string>, s: string, k: nat, p: nat) returns (i: nat)
    requires k < |stops| && OccursAt(s, stops[k], p)
    ensures i < |stops| && Leading(stops, i) && OccursAt(s, stops[i], p)
    decreases |stops[k]|
  {
    if Leading(stops, k) {
      i := k;
    } else {
      var j :| 0 <= j < |stops| && stops[j] < stops[k];
      assert s[p..p + |stops[j]|] == s[p..p + |stops[k]|][..|stops[j]|] == stops[j];
      i := LeadingStopAt(stops, s, j, p);
    }
  }

  lemma FrontOccurrenceIsPrefix(first: string, outer: string, t: string)
    requires first < outer && OccursAt(first, t, 0)
    ensures t < outer
  {
    assert t == first[..|t|] == outer[..|t|];
  }

  lemma OccurrenceSurvivesGrowth(text: string, whole: string, t: string, p: nat)
    requires text <= whole && p + |t| <= |text|
    ensures OccursAt(text, t, p) <==> OccursAt(whole, t, p)
  {
    assert text[p..p + |t|] == whole[p..p + |t|];
  }

  lemma OverlappingOccurrencesNest(s: string, inner: string, outer: string, p: nat, q: nat)
    requires OccursAt(s, outer, p) && OccursAt(s, inner, q)
    requires p < q && q + |inner| < p + |outer|
    ensures StrictlyInside(inner, outer)
  {
    var a := q - p;
    forall x | 0 <= x < |inner| ensures outer[a..a + |inner|][x] == inner[x] {
      assert outer[a + x] == s[p..p + |outer|][a + x] == s[q + x] == s[q..q + |inner|][x];
    }
    assert outer[a..a + |inner|] == inner;
    assert OccursAt(outer, inner, a);
  }

  /** Without inner stops, a stop that begins before a complete one is complete as well. */
  lemma EarlierStopIsComplete(stops: seq<string>, text: string, whole: string, j: nat, q: nat, i: nat, p: nat)
    requires NoInnerStop(stops) && text <= whole && i < |stops| && j < |stops|
    requires OccursAt(text, stops[j], q) && OccursAt(whole, stops[i], p) && p < q && Leading(stops, i)
    ensures StopAt(stops, text, p)
  {
    OccurrenceSurvivesGrowth(text, whole, stops[j], q);
    if p + |stops[i]| <= |text| {
      OccurrenceSurvivesGrowth(text, whole, stops[i], p);
    } else {
      OverlappingOccurrencesNest(whole, stops[j], stops[i], p, q);
    }
  }

  ghost predicate IsFirstStop(stops: seq<string>, s: string, q: nat) {
    StopAt(stops, s, q) && forall p: nat :: StopAt(stops, s, p) ==> q <= p
  }

  lemma FirstStopIsStable(stops: seq<string>, text: string, whole: string, q: nat)
    requires NoInnerStop(stops) && text <= whole && IsFirstStop(stops, text, q)
    ensures IsFirstStop(stops, whole, q)
  {
    var j: nat :| j < |stops| && OccursAt(text, stops[j], q);
    OccurrenceSurvivesGrowth(text, whole, stops[j], q);
    forall p: nat | StopAt(stops, whole, p) ensures q <= p {
      if p < q {
        var k: nat :| k < |stops| && OccursAt(whole, stops[k], p);
        var i := LeadingStopAt(stops, whole, k, p);
        EarlierStopIsComplete(stops, text, whole, j, q, i, p);
      }
    }
  }

  /** Without inner stops the earliest start is already final when the first stop completes. */
  lemma EarliestStopIsStable(stops: seq<string>, text: string, whole: string)
    requires NoInnerStop(stops) && text <= whole && EarliestStop(stops, text).Some?
    ensures EarliestStop(stops, whole) == EarliestStop(stops, text)
  {
    var q := EarliestStop(stops, text).value;
    FirstStopIff(stops, text, q);
    FirstStopIsStable(stops, text, whole, q);
    FirstStopIff(stops, whole, q);
  }

  lemma FirstStopIff(stops: seq<string>, s: string, q: nat)
    ensures IsFirstStop(stops, s, q) <==> EarliestStop(stops, s) == Some(q)
  {
    EarliestStopMeaning(stops, s);
  }

  lemma {:induction false} GrowingReachesLast(base: string, texts: seq<string>, last: string)
    requires Growing(base, texts, last)
    ensures base <= last
    decreases |texts|
  {
    if texts != [] { GrowingReachesLast(texts[0], texts[1..], last); }
  }

  lemma {:induction false} FirstSightingIsOneShot(stops: seq<string>, base: string, texts: seq<string>)
    requires NoInnerStop(stops) && texts != [] && Growing(base, texts, texts[|texts| - 1])
    ensures CutAtFirstSighting(stops, texts, texts[|texts| - 1]) == OneShot(stops, texts[|texts| - 1])
    decreases |texts|
  {
    var last := texts[|texts| - 1];
    if EarliestStop(stops, texts[0]).Some? {
      GrowingReachesLast(texts[0], texts[1..], last);
      EarliestStopMeaning(stops, texts[0]);
      EarliestStopIsStable(stops, texts[0], last);
      assert texts[0][..EarliestStop(stops, last).value] == last[..EarliestStop(stops, last).value];
    } else if |texts| > 1 {
      FirstSightingIsOneShot(stops, texts[0], texts[1..]);
    } else {
      assert texts[1..] == [];
    }
  }

  /** With a stop strictly inside a leading stop, some cutting shows a different text. */
  lemma InnerStopBreaksChunking(stops: seq<string>, i: nat, j: nat) returns (texts: seq<string>)
    requires forall k :: 0 <= k < |stops| ==> stops[k] != ""
    requires i < |stops| && j < |stops| && Leading(stops, i) && StrictlyInside(stops[j], stops[i])
    ensures texts != [] && Growing("", texts, texts[|texts| - 1])
    ensures Feed(stops, "", texts, texts[|texts| - 1]) != Ok(OneShot(stops, texts[|texts| - 1]))
  {
    var outer, inner := stops[i], stops[j];
    var a :| 0 < a < |outer| && a + |inner| < |outer| && OccursAt(outer, inner, a);
    var first := outer[..a + |inner|];
    texts := [first, outer];
    assert first[a..a + |inner|] == outer[a..a + |inner|];
    assert OccursAt(first, inner, a);
    StopIsFound(stops, first, j, a);
    var q := EarliestStop(stops, first).value;
    if q == 0 {
      var k := FoundStop(stops, first);
      FrontOccurrenceIsPrefix(first, outer, stops[k]);
    }
    assert outer[0..0 + |outer|] == outer;
    assert OccursAt(outer, outer, 0);
    StopIsFound(stops, outer, i, 0);
    EarliestStopMeaning(stops, first);
    assert texts[1..] == [outer] && [outer][1..] == [];
    ResponseIsExact(stops, texts, outer);
    assert |first[..q]| == q;
  }

  /** The cutting into pushes is irrelevant exactly when no stop lies strictly inside a leading stop. */
  lemma ChunkingIrrelevantIff(stops: seq<string>)
    requires forall k :: 0 <= k < |stops| ==> stops[k] != ""
    ensures ChunkingIrrelevant(stops) <==> NoInnerStop(stops)
  {
    if NoInnerStop(stops) {
      forall texts: seq<string> | texts != [] && Growing("", texts, texts[|texts| - 1])
        ensures Feed(stops, "", texts, texts[|texts| - 1]) == Ok(OneShot(stops, texts[|texts| - 1]))
      {
        ResponseIsExact(stops, texts, texts[|texts| - 1]);
        FirstSightingIsOneShot(stops, "", texts);
      }
    } else {
      var i, j :| 0 <= i < |stops| && 0 <= j < |stops| && Leading(stops, i) && StrictlyInside(stops[j], stops[i]);
      var texts := InnerStopBreaksChunking(stops, i, j);
    }
  }
}
