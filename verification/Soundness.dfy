/**
 The invariant together with the books of the run, and what each method of the scheduler
 does to both, field by field.
 */
module Soundness {
  import opened Basics
  import opened Transformer
  import opened KvCache
  import opened Sequences
  import opened Gpt2Backend
  import opened Reference
  import opened RequestQueues
  import opened Clients
  import opened Machine
  import opened Steps
  import opened Pacing
  import opened Invariants
  import opened Chronicle

  ghost predicate Sound(c: Setup, s: Snap, t: Timeline, w: World, hand: Option<GenerationRequest>, from: nat,
                        pace: nat) {
    Inv(c, s, t, hand, from, pace) && Books(c, s.ledger, t, w)
  }

  lemma QueueIsAccepted(c: Setup, s: Snap, t: Timeline, hand: Option<GenerationRequest>, from: nat, pace: nat)
    requires Inv(c, s, t, hand, from, pace)
    ensures forall i :: 0 <= i < |s.queue| ==>
              && s.queue[i].id in s.ledger.accepted && s.ledger.accepted[s.queue[i].id] == s.queue[i]
              && s.queue[i].id !in s.ledger.ended
              && HistoryOf(s.ledger.sent, s.queue[i].id) == []
    ensures forall i :: 0 <= i < |s.views| ==>
              s.views[i].id in s.ledger.accepted && (s.views[i].Done() <==> s.views[i].id in s.ledger.ended)
    ensures hand.Some? ==>
              && hand.value.id in s.ledger.accepted && s.ledger.accepted[hand.value.id] == hand.value
              && hand.value.id !in s.ledger.ended
    ensures t.clock !in s.ledger.accepted
  {
  }

  // ----- The queue -----

  lemma SoundWait(c: Setup, s: Snap, t: Timeline, w: World, w': World, hand: Option<GenerationRequest>, from: nat,
                  pace: nat)
    requires Sound(c, s, t, w, hand, from, pace) && Later(w, w')
    ensures Sound(c, s, t, w', hand, from, pace)
  {
    hide Inv, Books, Later;
    BooksWait(c, s.ledger, t, t, w, w');
  }

  lemma SoundPrune(c: Setup, s: Snap, t: Timeline, w: World, w': World, from: nat, pace: nat, gone: seq<bool>)
    requires Sound(c, s, t, w, None, from, pace) && Later(w, w')
    requires |gone| == |s.queue| && PrunedRightly(s.queue, gone, w.flags.closed, w'.flags.closed)
    ensures Sound(c, AfterPrune(s, gone), t, w', None, from, pace)
  {
    hide Inv, Books, PrunedRightly, Later;
    QueueIsAccepted(c, s, t, None, from, pace);
    BooksPrune(c, s.ledger, AfterPrune(s, gone).ledger, t, w, w', s.queue, gone);
    InvPrune(c, s, t, from, pace, gone);
  }

  lemma SoundArrive(c: Setup, s: Snap, t: Timeline, w: World, from: nat, pace: nat, req: GenerationRequest)
    requires Sound(c, s, t, w, None, from, pace) && req.id == t.clock
    ensures Sound(c, Arrived(s, req), t.(clock := t.clock + 1), w, None, from, pace)
  {
    hide Inv, Books;
    QueueIsAccepted(c, s, t, None, from, pace);
    InvArrive(c, s, t, from, pace, req);
    BooksArrive(c, s.ledger, t, t.(clock := t.clock + 1), w, req);
  }

  lemma SoundPop(c: Setup, s: Snap, t: Timeline, w: World, from: nat)
    requires Sound(c, s, t, w, None, from, from) && s.queue != []
    ensures var k := BestIndex(s.queue);
            Sound(c, Popped(s, k), t.(served := t.served + [s.queue[k]]), w, Some(s.queue[k]), from, from)
  {
    hide Inv, Books, BestIndex;
    InvPop(c, s, t, from);
    BooksWait(c, s.ledger, t, t.(served := t.served + [s.queue[BestIndex(s.queue)]]), w, w);
  }

  // ----- Admission -----

  lemma SoundRefuse(c: Setup, s: Snap, t: Timeline, w: World, w': World, req: GenerationRequest, from: nat,
                    cause: Cause, told: bool)
    requires Sound(c, s, t, w, Some(req), from, from) && Later(w, w') && !cause.Completed?
    requires CauseFits(c, EndLedger(s.ledger, req.id, cause, Closing(cause, told)), w', req.id, cause)
    ensures Sound(c, s.(ledger := EndLedger(s.ledger, req.id, cause, Closing(cause, told))), t, w', None, from, from)
  {
    hide Inv, Books, CauseFits, Later;
    QueueIsAccepted(c, s, t, Some(req), from, from);
    BooksEnd(c, s.ledger, t, w, w', req.id, cause, Closing(cause, told));
    InvRefuse(c, s, t, req, from, cause, told);
    assert Refused(s, req, cause, told) == s.(ledger := EndLedger(s.ledger, req.id, cause, Closing(cause, told)));
  }

  lemma SoundAdmit(c: Setup, s: Snap, t: Timeline, w: World, req: GenerationRequest)
    requires Sound(c, s, t, w, Some(req), |s.views|, |s.views|) && Admissible(c.m, c.limit, c.maxSeqLen, req)
    requires |s.views| < c.places <= s.slab.maxSeqs && c.maxSeqLen <= s.slab.maxSeqLen
    ensures HasRoom(s.slab, |req.promptTokens|, req.config.maxNewTokens) && SlabOk(s.slab) && s.slab.free != []
    ensures Sound(c, Admitted(s, req), t, w, None, |s.views| + 1, |s.views| + 1)
  {
    hide Inv, Books, SlabOk;
    SlotAvailable(c, s, t, req);
    InvAdmit(c, s, t, req);
  }

  /** With a place left there is a free slot, large enough for any admissible request. */
  lemma SlotAvailable(c: Setup, s: Snap, t: Timeline, req: GenerationRequest)
    requires Inv(c, s, t, Some(req), |s.views|, |s.views|) && |s.views| < c.places <= s.slab.maxSeqs
    requires Admissible(c.m, c.limit, c.maxSeqLen, req) && c.maxSeqLen <= s.slab.maxSeqLen
    ensures HasRoom(s.slab, |req.promptTokens|, req.config.maxNewTokens) && SlabOk(s.slab)
  {
    hide ViewsGood, PlacesGood, LedgerGood, QueueGood, NoneLost, Paced;
    AllocatedCount(c, s);
  }

  /** A newly admitted prompt fits the model and its slot. */
  lemma NewestFits(c: Setup, s: Snap, t: Timeline, w: World, n: nat)
    requires n < |s.views| && Sound(c, s, t, w, None, n + 1, n + 1) && s.views[n].state.Prefilling?
    ensures var v := s.views[n];
            && Fits(c.m, s.slab) && IsCurrent(s.slab, v.kvHandle)
            && |v.prompt| <= c.m.maxPositions && |v.prompt| <= v.kvHandle.capacityTokens
  {
    hide PlacesGood, LedgerGood, QueueGood, NoneLost, Paced, Books;
    OneView(c.m, c.limit, s.slab, s.ledger, s.views, n + 1, n);
  }

  lemma SoundPrefill(c: Setup, s: Snap, t: Timeline, w: World, n: nat, slab': Slab)
    requires n + 1 == |s.views| && s.views[n].state.Prefilling? && Sound(c, s, t, w, None, n + 1, n + 1)
    requires SlabOk(slab') && OnlyRowsDiffer(s.slab, slab', {s.views[n].kvHandle.slot})
    requires PrefillResult(c.m, s.slab, slab', s.views[n].kvHandle, CachedPrompt(s.views[n].prompt))
    ensures Sound(c, Prefilled(s, slab'), t, w, None, n + 1, n + 1)
  {
    hide Inv, Books, SlabOk, OnlyRowsDiffer, PrefillResult;
    InvPrefill(c, s, t, n, slab');
  }

  // ----- Service -----

  /** A boundary at index `k` moves past it. */
  function Past(from: nat, k: nat): nat { if from == k then k + 1 else from }

  /** Sequence `k` is cut short and becomes `v`; only a boundary at `k` may move past it. */
  lemma SoundCut(c: Setup, s: Snap, t: Timeline, w: World, w': World, from: nat, from': nat, pace: nat, pace': nat,
                 k: nat, v: SeqView, cause: Cause, told: bool)
    requires Sound(c, s, t, w, None, from, pace) && Later(w, w') && k < |s.views| && !s.views[k].Done()
    requires Passes(from, from', k) && Passes(pace, pace', k) && v.Done() && SamePlace(s.views[k], v)
    requires !cause.Completed? && CauseFits(c, EndLedger(s.ledger, v.id, cause, Closing(cause, told)), w', v.id, cause)
    ensures Sound(c, Snap(s.slab, s.queue, s.views[k := v], EndLedger(s.ledger, v.id, cause, Closing(cause, told))),
                  t, w', None, from', pace')
  {
    hide Inv, Books, CauseFits, Later;
    QueueIsAccepted(c, s, t, None, from, pace);
    BooksEnd(c, s.ledger, t, w, w', v.id, cause, Closing(cause, told));
    InvCut(c, s, t, from, from', pace, pace', k, v, cause, told);
    assert EndedView(s, k, v, cause, Closing(cause, told))
           == Snap(s.slab, s.queue, s.views[k := v], EndLedger(s.ledger, v.id, cause, Closing(cause, told)));
  }

  /** A sequence carries the capacity of the channel that its request came with. */
  lemma CapacityIsKnown(c: Setup, s: Snap, t: Timeline, w: World, from: nat, pace: nat, k: nat)
    requires Sound(c, s, t, w, None, from, pace) && k < |s.views| && !s.views[k].Done()
    ensures var v := s.views[k];
            v.id in s.ledger.accepted && s.ledger.accepted[v.id].channelCapacity == v.channelCapacity
  {
    hide SlabGood, PlacesGood, LedgerGood, QueueGood, NoneLost, Paced, Books, Fitting, RowsGood;
    OneView(c.m, c.limit, s.slab, s.ledger, s.views, from, k);
  }

  lemma SoundReap(c: Setup, s: Snap, t: Timeline, w: World, k: nat)
    requires Sound(c, s, t, w, None, |s.views|, |s.views|) && k < |s.views| && s.views[k].Done()
    ensures Sound(c, Reaped(s, k), t, w, None, |s.views| - 1, |s.views| - 1)
  {
    hide Inv, Books;
    InvReap(c, s, t, k);
  }

  lemma SoundSpoil(c: Setup, s: Snap, t: Timeline, w: World, from: nat, pace: nat, slab': Slab, slots: set<nat>)
    requires Sound(c, s, t, w, None, from, pace) && SlabOk(slab') && OnlyRowsDiffer(s.slab, slab', slots)
    requires forall i :: 0 <= i < |s.views| && s.views[i].kvHandle.slot in slots ==> s.views[i].Done()
    ensures Sound(c, s.(slab := slab'), t, w, None, from, pace)
  {
    hide Inv, Books, SlabOk, OnlyRowsDiffer;
    InvSpoil(c, s, t, from, pace, slab', slots);
  }

  lemma OnlyOneSpoiled(c: Setup, s: Snap, t: Timeline, w: World, k: nat)
    requires k < |s.views| && Sound(c, s, t, w, None, |s.views|, |s.views|)
    ensures forall i :: 0 <= i < |s.views| && s.views[i].kvHandle.slot in {s.views[k].kvHandle.slot} ==> i == k
  {
    hide PlacesGood, LedgerGood, QueueGood, NoneLost, Paced, ViewsGood, Books;
  }

  lemma SoundAllDone(c: Setup, s: Snap, t: Timeline, w: World, from: nat, pace: nat, slab': Slab, slots: set<nat>)
    requires Sound(c, s, t, w, None, from, pace) && AllDone(s.views) && SlabOk(slab')
             && OnlyRowsDiffer(s.slab, slab', slots)
    ensures Sound(c, s.(slab := slab'), t, w, None, |s.views|, |s.views|)
  {
    hide Inv, Books, SlabOk, OnlyRowsDiffer;
    InvAllDone(c, s, t, from, pace, |s.views|, |s.views|);
    InvSpoil(c, s, t, |s.views|, |s.views|, slab', slots);
  }

  // ----- Decoding -----

  lemma BatchServable(c: Setup, s: Snap, t: Timeline, w: World)
    requires Sound(c, s, t, w, None, |s.views|, |s.views|) && AllRunning(s.views)
    ensures Servable(c.m, s.slab, BatchOf(s.views)) && HasHeadroom(c.m, s.slab, BatchOf(s.views))
  {
    hide PlacesGood, LedgerGood, QueueGood, NoneLost, Paced, ViewsGood, Books;
    BatchIsServable(c.m, c.limit, s);
  }

  lemma SoundRecord(c: Setup, s: Snap, t: Timeline, w: World)
    requires Sound(c, s, t, w, None, |s.views|, |s.views|) && AllRunning(s.views)
    requires |s.views| <= c.places && t.Started() && (|s.views| == c.places || NewSince(t.Last(), s.queue))
    ensures Sound(c, s, Recorded(t, RecordNow(s, t, w)), w, None, |s.views|, 0)
  {
    hide Inv, Books;
    InvRecord(c, s, t, w.closings != []);
    BooksRecord(c, s, t, w);
  }

  lemma SoundDecode(c: Setup, s: Snap, t: Timeline, w: World, slab': Slab, logits: seq<Row>)
    requires Sound(c, s, t, w, None, |s.views|, 0) && AllRunning(s.views) && SlabOk(slab')
    requires ForwardResult(c.m, s.slab, slab', BatchOf(s.views), Ok(logits))
    ensures Sound(c, s.(slab := slab'), t, w, None, 0, 0) && LogitsAreFull(c.m, s.views, logits)
  {
    hide Inv, Books, SlabOk, ForwardResult, LogitsAreFull;
    InvDecode(c, s, t, slab', logits);
  }

  lemma ConsumptionFacts(c: Setup, s: Snap, t: Timeline, w: World, k: nat)
    requires Sound(c, s, t, w, None, k, k) && k < |s.views| && s.views[k].state.Running?
    ensures var v := s.views[k]; var u := Sampled(c.m, v);
            && u.emitted == v.emitted <= SafeEnd(u) <= |u.generated| && SamePlace(v, Consumed(c.m, v))
            && Consumed(c.m, v).state == u.state && |Consumed(c.m, v).generated| == |v.generated| + 1
            && Consumed(c.m, v).channelCapacity == v.channelCapacity
            && (u.finishReason.None? ==> u.state.Running?) && (u.finishReason.Some? ==> u.Done())
  {
    hide PlacesGood, LedgerGood, QueueGood, NoneLost, Paced, SlabGood, Books;
    OneView(c.m, c.limit, s.slab, s.ledger, s.views, k, k);
    EmissionNeverRetracts(c.m, s.ledger, s.views[k]);
    SampledStaysOnTrack(c.m, s.views[k]);
    if Sampled(c.m, s.views[k]).finishReason.None? {
      UnfinishedStaysInStep(c.m, s.views[k]);
    } else {
      ConsumptionCompletes(c.m, s.ledger, s.views[k]);
    }
  }

  /** The state after sequence `k` consumed its row and the update was delivered. */
  function Delivered(c: Setup, s: Snap, k: nat): Snap
    requires k < |s.views|
  {
    var v := s.views[k];
    var l := s.ledger.(sent := Say(s.ledger.sent, v.id, NewlySafe(c.m, v)));
    Snap(s.slab, s.queue, s.views[k := Consumed(c.m, v)],
         if Sampled(c.m, v).finishReason.Some? then l.(ended := l.ended[v.id := Completed]) else l)
  }

  lemma SoundDelivery(c: Setup, s: Snap, t: Timeline, w: World, w': World, k: nat)
    requires Sound(c, s, t, w, None, k, k) && Later(w, w') && k < |s.views| && s.views[k].state.Running?
    ensures Sound(c, Delivered(c, s, k), t, w', None, k + 1, k + 1)
  {
    hide Inv, Books, Sampled, Consumed, NewlySafe, Later;
    var v := s.views[k];
    QueueIsAccepted(c, s, t, None, k, k);
    if Sampled(c.m, v).finishReason.Some? {
      BooksEnd(c, s.ledger, t, w, w', v.id, Completed, NewlySafe(c.m, v));
      ConsumptionFacts(c, s, t, w, k);
      InvComplete(c, s, t, k);
      assert EndedView(s, k, Consumed(c.m, v), Completed, NewlySafe(c.m, v)) == Delivered(c, s, k);
    } else {
      BooksSpeak(c, s.ledger, t, w, w', v.id, NewlySafe(c.m, v));
      InvSpeak(c, s, t, k);
      assert Spoken(c.m, s, k) == Delivered(c, s, k);
    }
  }

  /** A refused update means a closed channel, or one too small for the whole answer. */
  lemma RefusalFits(c: Setup, s: Snap, t: Timeline, w: World, w': World, k: nat)
    requires Sound(c, s, t, w, None, k, k) && k < |s.views| && s.views[k].state.Running?
    requires var v := s.views[k];
             v.id in w'.flags.closed
             || |HistoryOf(s.ledger.sent, v.id)| + |NewlySafe(c.m, v)| > v.channelCapacity
    ensures CauseFits(c, s.ledger, w', s.views[k].id, Undelivered)
  {
    hide PlacesGood, LedgerGood, QueueGood, NoneLost, Paced, SlabGood, Books, NewlySafe;
    OneView(c.m, c.limit, s.slab, s.ledger, s.views, k, k);
    UpdateFits(c.m, s.ledger, s.views[k]);
  }

  /** An update that was refused cancels its sequence. */
  lemma SoundEvict(c: Setup, s: Snap, t: Timeline, w: World, k: nat)
    requires Sound(c, s, t, w, None, k, k) && k < |s.views| && s.views[k].state.Running?
    requires CauseFits(c, s.ledger, w, s.views[k].id, Undelivered)
    ensures var v := CancelView(Consumed(c.m, s.views[k]));
            && v.Done() && v.id == s.views[k].id
            && Sound(c, Snap(s.slab, s.queue, s.views[k := v], EndLedger(s.ledger, v.id, Undelivered, [])),
                     t, w, None, k + 1, k + 1)
  {
    hide Inv, Books, Consumed, Sampled;
    ConsumptionFacts(c, s, t, w, k);
    SoundCut(c, s, t, w, w, k, k + 1, k, k + 1, k, CancelView(Consumed(c.m, s.views[k])), Undelivered, false);
  }

  // ----- Shutdown -----

  /** The scheduler begins to shut down and notes what is pending and running. */
  lemma SoundClose(c: Setup, s: Snap, t: Timeline, w: World)
    requires Sound(c, s, t, w, None, |s.views|, |s.views|) && AllRunning(s.views) && |s.views| <= c.places
    ensures var r := RecordNow(s, t, w);
            && Sound(c, s, t, w.(closings := w.closings + [r]), None, |s.views|, |s.views|)
            && t.Started() && Continues(t.Last(), r, t.served, c.limit, c.places)
            && r.queue == s.queue
            && forall i :: 0 <= i < |s.views| ==> NotedIn(r, s.views[i])
  {
    hide Inv, Books, Continues;
    BooksClose(c, s, t, w);
    InvContinues(c, s, t, w.closings != []);
    RunningIsNoted(c, s, t, w);
  }

  /** The record holds the sequence with as many tokens as it has. */
  predicate NotedIn(r: Record, v: SeqView) { v.id in r.running && r.running[v.id] == |v.generated| }

  lemma RunningIsNoted(c: Setup, s: Snap, t: Timeline, w: World)
    requires Sound(c, s, t, w, None, |s.views|, |s.views|)
    ensures forall i :: 0 <= i < |s.views| ==> NotedIn(RecordNow(s, t, w), s.views[i])
  {
    hide SlabGood, LedgerGood, ViewsGood, Paced, NoneLost, QueueGood, Books;
    LengthsExact(s.views);
  }

  /** A drained request was pending at the shutdown and had been told nothing. */
  lemma SoundDrain(c: Setup, s: Snap, t: Timeline, w: World, w': World, r: Record, told: bool)
    requires Sound(c, s, t, w, None, |s.views|, |s.views|) && s.queue != [] && Later(w, w')
    requires r in w'.closings && s.queue[0] in r.queue && (told || OutOfReach(s.ledger, w', s.queue[0].id))
    ensures var id := s.queue[0].id;
            Sound(c, Snap(s.slab, s.queue[1..], s.views,
                          EndLedger(s.ledger, id, Interrupted, Closing(Interrupted, told))),
                  t, w', None, |s.views|, |s.views|)
  {
    hide Inv, Books, Later;
    var id, l' := s.queue[0].id, EndLedger(s.ledger, s.queue[0].id, Interrupted, Closing(Interrupted, told));
    QueueIsAccepted(c, s, t, None, |s.views|, |s.views|);
    SaidOnce(s.ledger.sent, id, Closing(Interrupted, told));
    assert LeftAt(c.m, l', r, id, told) by {
      var i :| 0 <= i < |r.queue| && r.queue[i] == s.queue[0];
      assert Queued(r.queue, id);
    }
    ErrorInforms(s.ledger, w', id, Interrupted, ShuttingDown, told);
    BooksEnd(c, s.ledger, t, w, w', id, Interrupted, Closing(Interrupted, told));
    InvDrain(c, s, t, told);
    assert RemoveAt(s.queue, 0) == s.queue[1..];
    assert Dropped(s, 0, Interrupted, told) == Snap(s.slab, s.queue[1..], s.views, l');
  }

  /** A sequence that the shutdown found running has shown all that is safe of its tokens. */
  lemma InterruptionFits(c: Setup, s: Snap, t: Timeline, w: World, r: Record, told: bool)
    requires Sound(c, s, t, w, None, |s.views|, |s.views|) && s.views != [] && !s.views[0].Done()
    requires NotedIn(r, s.views[0])
    ensures var id := s.views[0].id;
            LeftAt(c.m, EndLedger(s.ledger, id, Interrupted, Closing(Interrupted, told)), r, id, told)
  {
    hide SlabGood, PlacesGood, LedgerGood, QueueGood, NoneLost, Paced, Books, Fitting, RowsGood, Generate;
    var v := s.views[0];
    OneView(c.m, c.limit, s.slab, s.ledger, s.views, |s.views|, 0);
    SaidOnce(s.ledger.sent, v.id, Closing(Interrupted, told));
    assert v.emitted == SafeLen(v.config, v.generated);
  }

  /** A running sequence is told about the shutdown and its slot is freed. */
  lemma SoundInterrupt(c: Setup, s: Snap, t: Timeline, w: World, w': World, r: Record, told: bool)
    requires Sound(c, s, t, w, None, |s.views|, |s.views|) && s.views != [] && !s.views[0].Done()
    requires Later(w, w') && r in w'.closings && NotedIn(r, s.views[0])
    requires told || OutOfReach(s.ledger, w', s.views[0].id)
    ensures Sound(c, Snap(SlabFree(s.slab, s.views[0].kvHandle), s.queue, RemoveAt(s.views, 0),
                          EndLedger(s.ledger, s.views[0].id, Interrupted, Closing(Interrupted, told))),
                  t, w', None, |s.views| - 1, |s.views| - 1)
  {
    hide Inv, Books, SlabFree, EndLedger, Later, LeftAt;
    var v, n := FailView(s.views[0]), |s.views|;
    InterruptionFits(c, s, t, w, r, told);
    QueueIsAccepted(c, s, t, None, n, n);
    ErrorInforms(s.ledger, w', v.id, Interrupted, ShuttingDown, told);
    SoundCut(c, s, t, w, w', n, n, n, n, 0, v, Interrupted, told);
    var cut := Snap(s.slab, s.queue, s.views[0 := v],
                    EndLedger(s.ledger, v.id, Interrupted, Closing(Interrupted, told)));
    SoundReap(c, cut, t, w', 0);
    assert RemoveAt(cut.views, 0) == RemoveAt(s.views, 0);
  }

  // ----- The end of a run -----

  /**
   Every accepted request ended, once, for a cause that is the real one and with a legal
   history; no slot is allocated; and the counter of cancelled requests counts exactly those
   with a disconnected consumer or an update that did not fit.
   */
  ghost predicate Settled(c: Setup, s: Snap, w: World) {
    && s.slab.occupied == map[]
    && s.ledger.accepted.Keys == s.ledger.ended.Keys
    && (forall id :: id in s.ledger.ended ==>
          && id in s.ledger.accepted
          && LegalHistory(c.m, s.ledger.accepted[id], s.ledger.ended[id], HistoryOf(s.ledger.sent, id))
          && CauseFits(c, s.ledger, w, id, s.ledger.ended[id]))
    && s.ledger.cancelled
       == |set id | id in s.ledger.ended && (s.ledger.ended[id].Disconnected? || s.ledger.ended[id].Undelivered?)|
  }

  lemma WhoIsCounted(ended: map<Id, Cause>)
    ensures CountedIds(ended) == set id | id in ended && (ended[id].Disconnected? || ended[id].Undelivered?)
  {
  }

  lemma EmptyIsSettled(c: Setup, s: Snap, t: Timeline, w: World)
    requires Sound(c, s, t, w, None, 0, 0) && s.queue == [] && s.views == []
    ensures Settled(c, s, w) && Chain(t, c.limit, c.places) && Chronicled(t.log, w, s.ledger)
  {
    hide LegalHistory, CauseFits, CountedIds, Chronicled, Chain, SlabOk, ViewsGood;
    WhoIsCounted(s.ledger.ended);
    assert forall id :: id in s.ledger.accepted ==> !Queued(s.queue, id) && !Serving(s.views, id);
    assert forall slot :: slot !in s.slab.occupied;
    assert s.slab.occupied == map[];
  }

  /** The error that tells a client of this end, if the source sends one. */
  function ErrorFor(cause: Cause): Option<ErrorKind> {
    match cause
    case Invalid => Some(Rejected)
    case PrefillFault => Some(PrefillFailed)
    case DecodeFault => Some(DecodeFailed)
    case Interrupted => Some(ShuttingDown)
    case _ => None
  }

  /** Its whole answer leaves a place in such a channel. */
  lemma RoomToTell(m: Gpt2, req: GenerationRequest, cause: Cause, h: seq<StreamItem>, kind: ErrorKind)
    requires LegalHistory(m, req, cause, h) && ErrorOf(cause) == [ErrorItem(kind)]
    requires 0 < req.config.maxNewTokens < RESPONSE_CHANNEL_CAPACITY
    requires ChannelCapacity(req.config.maxNewTokens) == Some(req.channelCapacity)
    requires Told(h, kind, false, req.channelCapacity)
    ensures h != [] && h[|h| - 1] == ErrorItem(kind)
  {
    hide Answer, GenerationLength, Generate;
    var tokens := Answer(m, req.promptTokens, req.config).tokens;
    AnswerMeaning(m, req.promptTokens, req.config);
    assert |tokens| <= req.config.maxNewTokens;
    var n: nat, told :| BrokenAt(tokens, cause, h, n, told);
  }

  /** With a channel made for requests of fewer than 32 tokens, everyone who stays is told of an error. */
  lemma AmpleChannelsAreTold(c: Setup, s: Snap, w: World, id: Id)
    requires Settled(c, s, w) && id in s.ledger.ended && ErrorFor(s.ledger.ended[id]).Some? && id !in w.flags.closed
    requires id in s.ledger.accepted && var req := s.ledger.accepted[id];
             && 0 < req.config.maxNewTokens < RESPONSE_CHANNEL_CAPACITY
             && ChannelCapacity(req.config.maxNewTokens) == Some(req.channelCapacity)
    ensures var h, cause := HistoryOf(s.ledger.sent, id), s.ledger.ended[id];
            h != [] && h[|h| - 1] == ErrorItem(ErrorFor(cause).value)
  {
    hide LeftAt, Admissible, LegalHistory, ChannelCapacity;
    var req, cause := s.ledger.accepted[id], s.ledger.ended[id];
    assert Informed(s.ledger, w, id, ErrorFor(cause).value);
    RoomToTell(c.m, req, cause, HistoryOf(s.ledger.sent, id), ErrorFor(cause).value);
  }

  /** With a channel made for requests of fewer than 32 tokens, only a closed one ever refuses an update. */
  lemma AmpleChannelsOnlyClose(c: Setup, s: Snap, w: World, id: Id)
    requires Settled(c, s, w) && id in s.ledger.ended && s.ledger.ended[id].Undelivered?
    requires id in s.ledger.accepted && var req := s.ledger.accepted[id];
             && 0 < req.config.maxNewTokens < RESPONSE_CHANNEL_CAPACITY
             && ChannelCapacity(req.config.maxNewTokens) == Some(req.channelCapacity)
    ensures id in w.flags.closed
  {
    hide LegalHistory;
  }
}
