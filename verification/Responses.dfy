/**
 The two drivers that turn a channel of generated tokens into an HTTP response: one
 streams events, the other collects a single answer. Both are proved against one
 specification, so they agree.
 */
module Responses {
  import opened Basics
  import opened Overlap
  import opened Sequences
  import opened Clients
  import opened TextFilter
  import FallbackTokenizer

  type Decoder = seq<Token> -> Option<string>

  datatype Failure = NotDecodable | Unfiltered(error: FilterError) | GenerationFailed(kind: ErrorKind) | EndedEarly

  datatype End = Completed(reason: FinishReason) | Broken(failure: Failure)

  /** What a response says in all: its text, how many tokens were pushed, and how it ends. */
  datatype Outcome = Outcome(text: string, pushed: nat, end: End, stopped: bool)

  function After(text: string, pushed: nat, o: Outcome): Outcome {
    o.(text := text + o.text, pushed := pushed + o.pushed)
  }

  function Fails(failure: Failure): Outcome { Outcome("", 0, Broken(failure), false) }

  /** The response to the rest of a channel, when `tokens` were received and `emitted` was let out. */
  function Respond(stops: seq<string>, decode: Decoder, emitted: string, tokens: seq<Token>,
                   items: seq<StreamItem>): Outcome
    decreases |items|
  {
    if items == [] then Fails(EndedEarly)
    else
      match items[0]
      case TokenItem(token) =>
        var decoded := decode(tokens + [token]);
        if decoded.None? then Fails(NotDecodable)
        else
          var (update, emitted') := PushSpec(stops, emitted, FallbackTokenizer.Trim(decoded.value));
          if update.Err? then Fails(Unfiltered(update.error))
          else if update.value.Stop? then Outcome(update.value.text, 1, Completed(FinishReason.Stop), true)
          else After(update.value.text, 1, Respond(stops, decode, emitted', tokens + [token], items[1..]))
      case FinishedItem(reason) =>
        var decoded := decode(tokens);
        if decoded.None? then Fails(NotDecodable)
        else
          var rest := FinishSpec(emitted, decoded.value);
          if rest.Err? then Fails(Unfiltered(rest.error)) else Outcome(rest.value, 0, Completed(reason), false)
      case ErrorItem(kind) => Fails(GenerationFailed(kind))
  }

  // ----- What a response is -----

  /** `tokens` decode to a text, which is then trimmed. */
  predicate ReadsAs(decode: Decoder, tokens: seq<Token>, text: string) {
    decode(tokens).Some? && FallbackTokenizer.Trim(decode(tokens).value) == text
  }

  /** From `tokens` on, `seen` can be received one by one without a stop coming up. */
  ghost predicate StopFree(stops: seq<string>, decode: Decoder, tokens: seq<Token>, seen: seq<Token>) {
    forall k :: 0 < k <= |seen| ==>
      exists text :: ReadsAs(decode, tokens + seen[..k], text) && EarliestStop(stops, text).None?
  }

  /** The text of `tokens` up to its first stop. */
  ghost predicate StopsAt(stops: seq<string>, decode: Decoder, tokens: seq<Token>, shown: string) {
    exists text :: ReadsAs(decode, tokens, text) && shown <= text && IsFirstStop(stops, text, |shown|)
  }

  /** The text of `tokens` up to the longest ending that may still become a stop. */
  ghost predicate HoldsBack(stops: seq<string>, decode: Decoder, tokens: seq<Token>, shown: string) {
    exists text :: ReadsAs(decode, tokens, text) && shown <= text && IsHeld(stops, text, |text| - |shown|)
  }

  /** What can go wrong with a channel of which `tokens` were taken out and `rest` is left. */
  ghost predicate FailsFor(stops: seq<string>, decode: Decoder, tokens: seq<Token>, rest: seq<StreamItem>,
                           shown: string, failure: Failure) {
    match failure
    case EndedEarly => rest == []
    case GenerationFailed(kind) => rest != [] && rest[0] == ErrorItem(kind)
    case NotDecodable =>
      rest != [] && !rest[0].ErrorItem?
      && decode(if rest[0].TokenItem? then tokens + [rest[0].token] else tokens).None?
    case Unfiltered(error) =>
      rest != []
      && match rest[0]
         case TokenItem(token) =>
           exists text :: ReadsAs(decode, tokens + [token], text) && PushSpec(stops, shown, text).0 == Err(error)
         case FinishedItem(_) =>
           decode(tokens).Some? && !(shown <= decode(tokens).value) && error == ChangedEmittedText
         case ErrorItem(_) => false
  }

  /**
   A response took `seen` out of the channel and left `rest`. If a stop ended it, the last token
   completed the stop and everything before that stop is shown. If the generation did, the whole
   text is shown. If it broke, the reason is the first thing wrong in the channel, and all but a
   possible beginning of a stop is shown.
   */
  ghost predicate Means(stops: seq<string>, decode: Decoder, emitted: string, tokens: seq<Token>, seen: seq<Token>,
                        rest: seq<StreamItem>, shown: string, o: Outcome) {
    && o.pushed == |seen|
    && match o.end
       case Completed(reason) =>
         if o.stopped then
           && reason.Stop? && seen != [] && StopsAt(stops, decode, tokens + seen, shown)
           && StopFree(stops, decode, tokens, seen[..|seen| - 1])
         else
           && rest != [] && rest[0] == FinishedItem(reason) && decode(tokens + seen) == Some(shown)
           && StopFree(stops, decode, tokens, seen)
       case Broken(failure) =>
         && !o.stopped && FailsFor(stops, decode, tokens + seen, rest, shown, failure)
         && StopFree(stops, decode, tokens, seen)
         && if seen == [] then shown == emitted else HoldsBack(stops, decode, tokens + seen, shown)
  }

  lemma OneMoreStopFree(stops: seq<string>, decode: Decoder, tokens: seq<Token>, token: Token, seen: seq<Token>,
                        text: string)
    requires ReadsAs(decode, tokens + [token], text) && EarliestStop(stops, text).None?
    requires StopFree(stops, decode, tokens + [token], seen)
    ensures StopFree(stops, decode, tokens, [token] + seen)
  {
    hide ReadsAs, EarliestStop;
    forall k | 0 < k <= |seen| + 1
      ensures exists text :: ReadsAs(decode, tokens + ([token] + seen)[..k], text) && EarliestStop(stops, text).None?
    {
      assert tokens + ([token] + seen)[..k] == tokens + [token] + seen[..k - 1];
      assert k == 1 ==> tokens + ([token] + seen)[..k] == tokens + [token];
    }
  }

  lemma OneMoreMeans(stops: seq<string>, decode: Decoder, emitted: string, emitted': string, tokens: seq<Token>,
                     token: Token, seen: seq<Token>, rest: seq<StreamItem>, shown: string, o: Outcome, text: string)
    requires ReadsAs(decode, tokens + [token], text) && EarliestStop(stops, text).None?
    requires emitted' <= text && IsHeld(stops, text, |text| - |emitted'|)
    requires Means(stops, decode, emitted', tokens + [token], seen, rest, shown, o)
    ensures Means(stops, decode, emitted, tokens, [token] + seen, rest, shown, o.(pushed := o.pushed + 1))
  {
    hide ReadsAs, EarliestStop, IsHeld, IsFirstStop, StopFree, StopsAt, FailsFor;
    assert tokens + [token] + seen == tokens + ([token] + seen);
    assert seen == [] ==> tokens + ([token] + seen) == tokens + [token];
    assert HoldsBack(stops, decode, tokens + [token], emitted');
    assert seen != [] ==> ([token] + seen)[..|seen|] == [token] + seen[..|seen| - 1];
    if o.stopped {
      OneMoreStopFree(stops, decode, tokens, token, seen[..|seen| - 1], text);
    } else {
      OneMoreStopFree(stops, decode, tokens, token, seen, text);
    }
  }

  /** The outcome of every channel, said without going through it item by item. */
  lemma {:induction false} RespondMeaning(stops: seq<string>, decode: Decoder, emitted: string, tokens: seq<Token>,
                                          items: seq<StreamItem>)
    returns (seen: seq<Token>, rest: seq<StreamItem>)
    ensures items == TokenItems(seen) + rest
    ensures var o := Respond(stops, decode, emitted, tokens, items);
            Means(stops, decode, emitted, tokens, seen, rest, emitted + o.text, o)
    decreases |items|
  {
    hide PushSpec, FinishSpec, EarliestStop, IsHeld, IsFirstStop, FallbackTokenizer.Trim, HoldsBack;
    seen, rest := [], items;
    assert tokens + [] == tokens && emitted + "" == emitted;
    if items != [] && items[0].FinishedItem? && decode(tokens).Some? {
      FinishMeaning(emitted, decode(tokens).value);
    } else if items != [] && items[0].TokenItem? && decode(tokens + [items[0].token]).Some? {
      var token := items[0].token;
      var text := FallbackTokenizer.Trim(decode(tokens + [token]).value);
      PushMeaning(stops, emitted, text);
      var (update, emitted') := PushSpec(stops, emitted, text);
      if update.Ok? {
        seen, rest := [token], items[1..];
        if update.value.Continue? {
          var o := Respond(stops, decode, emitted', tokens + [token], items[1..]);
          seen, rest := RespondMeaning(stops, decode, emitted', tokens + [token], items[1..]);
          OneMoreMeans(stops, decode, emitted, emitted', tokens, token, seen, rest, emitted' + o.text, o, text);
          assert emitted' + o.text == emitted + (update.value.text + o.text);
          seen := [token] + seen;
        }
      }
    }
  }

  // ----- The collecting driver -----

  datatype Collected = Collected(text: string, completionTokens: nat, reason: FinishReason)

  function Collecting(o: Outcome): Basics.Result<Collected, Failure> {
    match o.end
    case Completed(reason) => Ok(Collected(o.text, o.pushed, reason))
    case Broken(failure) => Err(failure)
  }

  lemma AfterAfter(a: string, b: string, m: nat, n: nat, o: Outcome)
    ensures After(a, m, After(b, n, o)) == After(a + b, m + n, o)
  {
    assert a + (b + o.text) == a + b + o.text;
  }

  lemma AfterNothing(o: Outcome)
    ensures After("", 0, o) == o
  {
  }

  method CollectGeneration(items: seq<StreamItem>, decode: Decoder, stops: seq<string>)
    returns (r: Basics.Result<Collected, Failure>, cancelled: bool)
    ensures var o := Respond(NonEmpty(stops), decode, "", [], items); r == Collecting(o) && cancelled == o.stopped
  {
    hide PushSpec, FinishSpec, NonEmpty;
    ghost var whole := Respond(NonEmpty(stops), decode, "", [], items);
    var tokens: seq<Token>, text := [], "";
    var output := new TextOutputFilter(stops);
    cancelled := false;
    AfterNothing(whole);
    for i := 0 to |items|
      invariant !cancelled && output.stops == NonEmpty(stops) && |tokens| == i && fresh(output)
      invariant whole == After(text, i, Respond(output.stops, decode, output.emitted, tokens, items[i..]))
    {
      match items[i]
      case TokenItem(token) =>
        ghost var before := Respond(output.stops, decode, output.emitted, tokens, items[i..]);
        tokens := tokens + [token];
        var decoded := decode(tokens);
        if decoded.None? {
          return Err(NotDecodable), false;
        }
        ghost var emitted := output.emitted;
        var update := output.Push(FallbackTokenizer.Trim(decoded.value));
        if update.Err? {
          return Err(Unfiltered(update.error)), false;
        }
        match update.value {
          case Continue(fragment) =>
            AfterAfter(text, fragment, i, 1, Respond(output.stops, decode, output.emitted, tokens, items[i + 1..]));
            text := text + fragment;
          case Stop(fragment) =>
            text := text + fragment;
            return Ok(Collected(text, |tokens|, FinishReason.Stop)), true;
        }
      case FinishedItem(reason) =>
        var decoded := decode(tokens);
        if decoded.None? {
          return Err(NotDecodable), false;
        }
        var remaining := output.Finish(decoded.value);
        if remaining.Err? {
          return Err(Unfiltered(remaining.error)), false;
        }
        return Ok(Collected(text + remaining.value, |tokens|, reason)), false;
      case ErrorItem(kind) =>
        return Err(GenerationFailed(kind)), false;
    }
    return Err(EndedEarly), false;
  }

  // ----- The streaming driver -----

  datatype StreamKind = Completion | Chat

  /** One server-sent event; a chat frame may lack its content. */
  datatype Event =
    | Frame(content: Option<string>, finish: Option<FinishReason>)
    | ErrorFrame(failure: Failure)
    | DoneFrame

  function ContentOf(e: Event): string { if e.Frame? && e.content.Some? then e.content.value else "" }

  /** The events of an unfinished stream: content frames only. */
  predicate AllOpen(events: seq<Event>) { forall i :: 0 <= i < |events| ==> events[i].Frame? && events[i].finish.None? }

  datatype Reading = Whole(text: string, reason: FinishReason) | Cut(text: string, failure: Failure) | Malformed

  /**
   How a client reads a stream: the contents joined, up to the one frame with a finish
   reason and the final marker, or up to an error.
   */
  function ReadFrom(text: string, events: seq<Event>): Reading
    decreases |events|
  {
    if events == [] then Malformed
    else
      match events[0]
      case Frame(content, None) => ReadFrom(text + ContentOf(events[0]), events[1..])
      case Frame(content, Some(reason)) =>
        if events[1..] == [DoneFrame] then Whole(text + ContentOf(events[0]), reason) else Malformed
      case ErrorFrame(failure) => if events[1..] == [] then Cut(text, failure) else Malformed
      case DoneFrame => Malformed
  }

  function Contents(events: seq<Event>): string {
    if events == [] then "" else Contents(events[..|events| - 1]) + ContentOf(events[|events| - 1])
  }

  lemma {:induction false} ReadOpen(text: string, events: seq<Event>, tail: seq<Event>)
    requires AllOpen(events)
    ensures ReadFrom(text, events + tail) == ReadFrom(text + Contents(events), tail)
    decreases |events|
  {
    if events == [] {
      assert events + tail == tail && text + "" == text;
    } else {
      var n := |events| - 1;
      assert events + tail == events[..n] + ([events[n]] + tail);
      ReadOpen(text, events[..n], [events[n]] + tail);
      assert ([events[n]] + tail)[1..] == tail;
      assert text + Contents(events[..n]) + ContentOf(events[n]) == text + Contents(events);
    }
  }

  /** The reading that an outcome calls for. */
  function ReadingOf(o: Outcome): Reading {
    match o.end
    case Completed(reason) => Whole(o.text, reason)
    case Broken(failure) => Cut(o.text, failure)
  }

  /** How many frames carry no finish reason. */
  function OpenFrames(events: seq<Event>): nat {
    if events == [] then 0
    else OpenFrames(events[..|events| - 1])
         + if events[|events| - 1].Frame? && events[|events| - 1].finish.None? then 1 else 0
  }

  lemma NotCounted(events: seq<Event>, e: Event)
    requires !e.Frame? || e.finish.Some?
    ensures OpenFrames(events + [e]) == OpenFrames(events)
  {
    assert (events + [e])[..|events|] == events;
  }

  lemma ReadClosing(text: string, last: Event)
    requires last.Frame? && last.finish.Some?
    ensures ReadFrom(text, [last, DoneFrame]) == Whole(text + ContentOf(last), last.finish.value)
  {
    assert [last, DoneFrame][1..] == [DoneFrame];
  }

  lemma ClosedByFrame(open: seq<Event>, last: Event)
    requires AllOpen(open) && last.Frame? && last.finish.Some?
    ensures ReadFrom("", open + [last, DoneFrame]) == Whole(Contents(open) + ContentOf(last), last.finish.value)
    ensures OpenFrames(open + [last, DoneFrame]) == OpenFrames(open)
  {
    hide ReadFrom, OpenFrames, Contents, AllOpen;
    ReadOpen("", open, [last, DoneFrame]);
    ReadClosing("" + Contents(open), last);
    assert "" + Contents(open) == Contents(open);
    assert open + [last, DoneFrame] == open + [last] + [DoneFrame];
    NotCounted(open, last);
    NotCounted(open + [last], DoneFrame);
  }

  lemma ClosedByError(open: seq<Event>, failure: Failure)
    requires AllOpen(open)
    ensures ReadFrom("", open + [ErrorFrame(failure)]) == Cut(Contents(open), failure)
    ensures OpenFrames(open + [ErrorFrame(failure)]) == OpenFrames(open)
  {
    ReadOpen("", open, [ErrorFrame(failure)]);
    assert "" + Contents(open) == Contents(open);
    NotCounted(open, ErrorFrame(failure));
  }

  lemma OneMoreOpen(open: seq<Event>, text: string)
    requires AllOpen(open)
    ensures var events := open + [Frame(Some(text), None)];
            AllOpen(events) && Contents(events) == Contents(open) + text && OpenFrames(events) == OpenFrames(open) + 1
  {
    var events := open + [Frame(Some(text), None)];
    assert events[..|events| - 1] == open;
  }

  lemma NothingOpen()
    ensures AllOpen([]) && Contents([]) == "" && OpenFrames([]) == 0
  {
  }

  /** One frame per token, then the finishing frame and the marker, or an error. */
  method OpenAiStream(items: seq<StreamItem>, decode: Decoder, kind: StreamKind, stops: seq<string>)
    returns (events: seq<Event>, cancelled: bool)
    ensures var o := Respond(NonEmpty(stops), decode, "", [], items);
            ReadFrom("", events) == ReadingOf(o) && OpenFrames(events) == o.pushed && cancelled == o.stopped
    ensures kind.Completion? ==> forall e :: e in events && e.Frame? ==> e.content.Some?
    ensures kind.Chat? ==> forall e :: e in events && e.Frame? ==>
                             if e.finish.None? then e.content.Some? else e.content != Some("")
  {
    hide PushSpec, FinishSpec, ReadFrom, Contents, OpenFrames, AllOpen, NonEmpty;
    ghost var whole := Respond(NonEmpty(stops), decode, "", [], items);
    var tokens: seq<Token> := [];
    var output := new TextOutputFilter(stops);
    NothingOpen();
    events, cancelled := [], false;
    AfterNothing(whole);
    for i := 0 to |items|
      invariant !cancelled && output.stops == NonEmpty(stops) && |tokens| == i && fresh(output)
      invariant AllOpen(events) && OpenFrames(events) == i
      invariant forall e :: e in events ==> e.Frame? && e.finish.None? && e.content.Some?
      invariant whole == After(Contents(events), i, Respond(output.stops, decode, output.emitted, tokens, items[i..]))
    {
      match items[i]
      case TokenItem(token) =>
        tokens := tokens + [token];
        var decoded := decode(tokens);
        if decoded.None? {
          ClosedByError(events, NotDecodable);
          return events + [ErrorFrame(NotDecodable)], false;
        }
        var update := output.Push(FallbackTokenizer.Trim(decoded.value));
        if update.Err? {
          ClosedByError(events, Unfiltered(update.error));
          return events + [ErrorFrame(Unfiltered(update.error))], false;
        }
        var text, matchedStop := update.value.text, update.value.Stop?;
        OneMoreOpen(events, text);
        AfterAfter(Contents(events), text, i, 1, Respond(output.stops, decode, output.emitted, tokens, items[i + 1..]));
        if matchedStop {
          cancelled := true;
        }
        events := events + [Frame(Some(text), None)];
        if matchedStop {
          var last := Frame(if kind.Completion? then Some("") else None, Some(FinishReason.Stop));
          ClosedByFrame(events, last);
          return events + [last, DoneFrame], true;
        }
      case FinishedItem(reason) =>
        var decoded := decode(tokens);
        if decoded.None? {
          ClosedByError(events, NotDecodable);
          return events + [ErrorFrame(NotDecodable)], false;
        }
        var remaining := output.Finish(decoded.value);
        if remaining.Err? {
          ClosedByError(events, Unfiltered(remaining.error));
          return events + [ErrorFrame(Unfiltered(remaining.error))], false;
        }
        var content := if kind.Chat? && remaining.value == "" then None else Some(remaining.value);
        var last := Frame(content, Some(reason));
        ClosedByFrame(events, last);
        return events + [last, DoneFrame], false;
      case ErrorItem(kind) =>
        ClosedByError(events, GenerationFailed(kind));
        return events + [ErrorFrame(GenerationFailed(kind))], false;
    }
    ClosedByError(events, EndedEarly);
    return events + [ErrorFrame(EndedEarly)], false;
  }

  /** On one channel, a client that reads the stream to its end holds what the collecting driver returns. */
  method BothDrivers(items: seq<StreamItem>, decode: Decoder, kind: StreamKind, stops: seq<string>)
    returns (events: seq<Event>, r: Basics.Result<Collected, Failure>, streamCancelled: bool, collectCancelled: bool)
    ensures r.Ok? ==> ReadFrom("", events) == Whole(r.value.text, r.value.reason)
                      && OpenFrames(events) == r.value.completionTokens
    ensures r.Err? ==> ReadFrom("", events).Cut? && ReadFrom("", events).failure == r.error
    ensures streamCancelled == collectCancelled && (streamCancelled ==> r.Ok? && r.value.reason.Stop?)
  {
    hide ReadFrom, OpenFrames;
    events, streamCancelled := OpenAiStream(items, decode, kind, stops);
    r, collectCancelled := CollectGeneration(items, decode, stops);
    StoppedIsCompleted(NonEmpty(stops), decode, "", [], items);
  }

  lemma {:induction false} StoppedIsCompleted(stops: seq<string>, decode: Decoder, emitted: string, tokens: seq<Token>,
                                              items: seq<StreamItem>)
    ensures var o := Respond(stops, decode, emitted, tokens, items);
            o.stopped ==> o.end == Completed(FinishReason.Stop)
    decreases |items|
  {
    hide PushSpec, FinishSpec;
    if items != [] && items[0].TokenItem? && decode(tokens + [items[0].token]).Some? {
      var text := FallbackTokenizer.Trim(decode(tokens + [items[0].token]).value);
      StoppedIsCompleted(stops, decode, PushSpec(stops, emitted, text).1, tokens + [items[0].token], items[1..]);
    }
  }

  /** What follows the stop in the channel does not matter. */
  lemma {:induction false} StopIsFinal(stops: seq<string>, decode: Decoder, emitted: string, tokens: seq<Token>,
                                       seen: seq<StreamItem>, tail: seq<StreamItem>, rest: seq<StreamItem>)
    requires Respond(stops, decode, emitted, tokens, seen + tail).stopped
    requires tail != [] ==> !tail[0].TokenItem?
    ensures Respond(stops, decode, emitted, tokens, seen + rest) == Respond(stops, decode, emitted, tokens, seen + tail)
    decreases |seen|
  {
    hide PushSpec, FinishSpec;
    var items := seen + tail;
    assert seen == [] ==> items == tail;
    if seen != [] {
      assert items[1..] == seen[1..] + tail && (seen + rest)[1..] == seen[1..] + rest;
      var decoded := decode(tokens + [seen[0].token]);
      var (update, emitted') := PushSpec(stops, emitted, FallbackTokenizer.Trim(decoded.value));
      if update.value.Continue? {
        StopIsFinal(stops, decode, emitted', tokens + [seen[0].token], seen[1..], tail, rest);
      }
    }
  }
}
