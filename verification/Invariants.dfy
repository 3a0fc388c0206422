/** The invariant of the running system, state and timeline together, and its steps. */
module Invariants {
  import opened Basics
  import opened Transformer
  import opened KvCache
  import opened Sequences
  import opened Gpt2Backend
  import opened Reference
  import opened RequestQueues
  import opened Machine
  import opened Steps
  import opened Pacing

  /** What stays fixed while the scheduler runs. */
  datatype Setup = Setup(m: Gpt2, limit: nat, maxSeqLen: nat, places: nat)

  /** Accepted requests are numbered without a gap. */
  ghost predicate Numbered(l: Ledger, t: Timeline) { forall id: Id :: id in l.accepted <==> id < t.clock }

  /**
   `hand` is a request that was popped but is not a sequence yet; sequences from `from`
   on have an unconsumed row, and from `pace` on an unconsumed token of the current step.
   */
  ghost predicate Inv(c: Setup, s: Snap, t: Timeline, hand: Option<GenerationRequest>, from: nat, pace: nat) {
    && Good(c.m, c.limit, s, hand, from)
    && Paced(t, c.limit, c.places, s.queue, s.views, hand, pace)
    && Numbered(s.ledger, t)
  }

  function InitialTimeline(): Timeline { Timeline(0, [], [Record(map[], [], 0, 0, map[], false)]) }

  lemma InvInitial(c: Setup, maxSeqs: nat, maxSeqLen: nat)
    ensures var slab := InitialSlab(maxSeqs, maxSeqLen, |c.m.blocks|, c.m.heads, c.m.headDim);
            Inv(c, Snap(slab, [], [], Ledger(map[], map[], 0, map[])), InitialTimeline(), None, 0, 0)
  {
    InitialSlabOk(maxSeqs, maxSeqLen, |c.m.blocks|, c.m.heads, c.m.headDim);
    assert CountedIds(map[]) == {};
  }

  lemma InvArrive(c: Setup, s: Snap, t: Timeline, from: nat, pace: nat, req: GenerationRequest)
    requires Inv(c, s, t, None, from, pace) && req.id == t.clock
    ensures Inv(c, Arrived(s, req), t.(clock := t.clock + 1), None, from, pace)
  {
    hide SlabGood, ViewsGood, PlacesGood, LedgerGood, QueueGood, NoneLost;
    ArrivalKeepsGood(c.m, c.limit, s, None, from, req);
    ArrivalKeepsPace(t, s.queue, req);
    ClockKeepsPace(c, s, t, pace);
  }

  lemma ClockKeepsPace(c: Setup, s: Snap, t: Timeline, pace: nat)
    requires t.Started() && AllInPace(t, s.views, pace) && Chain(t, c.limit, c.places)
    ensures AllInPace(t.(clock := t.clock + 1), s.views, pace) && Chain(t.(clock := t.clock + 1), c.limit, c.places)
  {
    var t' := t.(clock := t.clock + 1);
    forall i | 0 <= i < |s.views| && !s.views[i].Done() ensures InPace(t', s.views[i], i >= pace) {
      assert InPace(t, s.views[i], i >= pace);
    }
  }

  /** The state after every pending request seen closed has left. */
  function AfterPrune(s: Snap, gone: seq<bool>): Snap
    requires |gone| == |s.queue|
  {
    s.(queue := Live(s.queue, gone),
       ledger := s.ledger.(ended := EndedByPrune(s.ledger.ended, s.queue, gone),
                           cancelled := s.ledger.cancelled + DroppedCount(gone)))
  }

  lemma InvPrune(c: Setup, s: Snap, t: Timeline, from: nat, pace: nat, gone: seq<bool>)
    requires Inv(c, s, t, None, from, pace) && |gone| == |s.queue|
    ensures Inv(c, AfterPrune(s, gone), t, None, from, pace)
  {
    hide Good;
    PruneKeepsGood(c.m, c.limit, s, from, gone);
    assert s.queue[..|gone|] == s.queue;
    assert AfterPrune(s, gone) == Pruned(s, gone, s.queue[|gone|..]);
    LiveIsSubqueue(s.queue, gone);
    SubqueueKeepsPace(t, s.queue, Live(s.queue, gone));
  }

  lemma InvPop(c: Setup, s: Snap, t: Timeline, from: nat)
    requires Inv(c, s, t, None, from, from) && s.queue != []
    ensures var k := BestIndex(s.queue);
            Inv(c, Popped(s, k), t.(served := t.served + [s.queue[k]]), Some(s.queue[k]), from, from)
  {
    hide Good;
    var k := BestIndex(s.queue);
    PopKeepsGood(c.m, c.limit, s, from, k);
    PopKeepsPace(t, s.queue);
    PopKeepsAllInPace(t, c.limit, c.places, s.views, from, s.queue[k]);
  }

  lemma InvRefuse(c: Setup, s: Snap, t: Timeline, req: GenerationRequest, from: nat, cause: Cause, told: bool)
    requires Inv(c, s, t, Some(req), from, from) && !cause.Completed?
    ensures Inv(c, Refused(s, req, cause, told), t, None, from, from)
  {
    hide Good;
    RefusalKeepsGood(c.m, c.limit, s, req, from, cause, told);
  }

  lemma InvAdmit(c: Setup, s: Snap, t: Timeline, req: GenerationRequest)
    requires Inv(c, s, t, Some(req), |s.views|, |s.views|) && s.slab.free != []
             && Admissible(c.m, c.limit, c.maxSeqLen, req)
    ensures Inv(c, Admitted(s, req), t, None, |s.views| + 1, |s.views| + 1)
  {
    hide ViewsGood, PlacesGood, LedgerGood, QueueGood, NoneLost, Owned;
    FirstFree(s.slab);
    AdmissionKeepsGood(c.m, c.limit, c.maxSeqLen, s, req);
    AdmissionKeepsPace(t, s.views, FreshView(req, NewHandle(s.slab, |req.promptTokens|, req.config.maxNewTokens)), req);
  }

  /** The state after the newest sequence was prefilled. */
  function Prefilled(s: Snap, slab': Slab): Snap
    requires s.views != []
  {
    var n := |s.views| - 1;
    s.(slab := slab', views := s.views[n := MarkRunningView(s.views[n])])
  }

  lemma InvPrefill(c: Setup, s: Snap, t: Timeline, n: nat, slab': Slab)
    requires n + 1 == |s.views| && s.views[n].state.Prefilling? && Inv(c, s, t, None, n + 1, n + 1)
    requires SlabOk(slab') && OnlyRowsDiffer(s.slab, slab', {s.views[n].kvHandle.slot})
    requires PrefillResult(c.m, s.slab, slab', s.views[n].kvHandle, CachedPrompt(s.views[n].prompt))
    ensures Inv(c, Prefilled(s, slab'), t, None, n + 1, n + 1)
  {
    hide Good;
    PrefillKeepsGood(c.m, c.limit, s, n, slab');
    StateChangeKeepsPace(t, s.views, n + 1, n + 1, n, MarkRunningView(s.views[n]));
  }

  /** What one sequence may do next: keep its index on either side of a moving boundary. */
  predicate Passes(from: nat, from': nat, k: nat) { from == from' || (from == k && from' == k + 1) }

  lemma InvCut(c: Setup, s: Snap, t: Timeline, from: nat, from': nat, pace: nat, pace': nat, k: nat, w: SeqView,
               cause: Cause, told: bool)
    requires Inv(c, s, t, None, from, pace) && k < |s.views| && !s.views[k].Done()
    requires Passes(from, from', k) && Passes(pace, pace', k)
    requires w.Done() && SamePlace(s.views[k], w) && !cause.Completed?
    ensures Inv(c, EndedView(s, k, w, cause, Closing(cause, told)), t, None, from', pace')
  {
    hide Good;
    CutKeepsGood(c.m, c.limit, s, from, from', k, w, cause, told);
    StateChangeKeepsPace(t, s.views, pace, pace', k, w);
  }

  lemma InvReap(c: Setup, s: Snap, t: Timeline, k: nat)
    requires Inv(c, s, t, None, |s.views|, |s.views|) && k < |s.views| && s.views[k].Done()
    ensures Inv(c, Reaped(s, k), t, None, |s.views| - 1, |s.views| - 1)
  {
    hide Good;
    ReapKeepsGood(c.m, c.limit, s, |s.views|, k);
    ReapKeepsPace(t, s.views, |s.views|, k);
  }

  /** A failed kernel may have touched the rows of done sequences only. */
  lemma InvSpoil(c: Setup, s: Snap, t: Timeline, from: nat, pace: nat, slab': Slab, slots: set<nat>)
    requires Inv(c, s, t, None, from, pace) && SlabOk(slab') && OnlyRowsDiffer(s.slab, slab', slots)
    requires forall i :: 0 <= i < |s.views| && s.views[i].kvHandle.slot in slots ==> s.views[i].Done()
    ensures Inv(c, s.(slab := slab'), t, None, from, pace)
  {
    hide Good, Paced;
    SpoiledRowsKeepGood(c.m, c.limit, s, from, slab', slots);
  }

  ghost predicate AllDone(views: seq<SeqView>) { forall i :: 0 <= i < |views| ==> views[i].Done() }

  lemma InvAllDone(c: Setup, s: Snap, t: Timeline, from: nat, pace: nat, from': nat, pace': nat)
    requires Inv(c, s, t, None, from, pace) && AllDone(s.views)
    ensures Inv(c, s, t, None, from', pace')
  {
  }

  lemma InvSmallEnough(c: Setup, s: Snap)
    requires ViewsGood(c.m, c.limit, s.slab, s.ledger, s.views, |s.views|) && AllRunning(s.views)
    ensures WithinLimit(s.views, c.limit)
  {
    forall i | 0 <= i < |s.views| ensures |s.views[i].generated| < c.limit {
      OneView(c.m, c.limit, s.slab, s.ledger, s.views, |s.views|, i);
      BelowBudget(s.views[i]);
    }
  }

  /** A round goes on the record. */
  lemma InvRecord(c: Setup, s: Snap, t: Timeline, closed: bool)
    requires Inv(c, s, t, None, |s.views|, |s.views|) && AllRunning(s.views)
    requires |s.views| <= c.places && t.Started() && (|s.views| == c.places || NewSince(t.Last(), s.queue))
    ensures Inv(c, s, Recorded(t, NewRecord(t, s.queue, s.views, s.ledger.ended, closed)), None, |s.views|, 0)
  {
    hide SlabGood, LedgerGood, QueueGood, NoneLost;
    InvSmallEnough(c, s);
    RecordKeepsPace(t, c.limit, c.places, s.queue, s.views, s.ledger.ended, closed);
  }

  /** The record taken at a shutdown continues the log. */
  lemma InvContinues(c: Setup, s: Snap, t: Timeline, closed: bool)
    requires Inv(c, s, t, None, |s.views|, |s.views|) && AllRunning(s.views) && |s.views| <= c.places
    ensures t.Started()
    ensures Continues(t.Last(), NewRecord(t, s.queue, s.views, s.ledger.ended, closed), t.served, c.limit, c.places)
  {
    hide SlabGood, LedgerGood, QueueGood, NoneLost;
    InvSmallEnough(c, s);
    NewRecordContinues(t, c.limit, c.places, s.queue, s.views, s.ledger.ended, closed);
  }

  lemma InvDecode(c: Setup, s: Snap, t: Timeline, slab': Slab, logits: seq<Row>)
    requires Inv(c, s, t, None, |s.views|, 0) && AllRunning(s.views) && SlabOk(slab')
    requires ForwardResult(c.m, s.slab, slab', BatchOf(s.views), Ok(logits))
    ensures Inv(c, s.(slab := slab'), t, None, 0, 0) && LogitsAreFull(c.m, s.views, logits)
  {
    hide Good;
    DecodeKeepsGood(c.m, c.limit, s, slab', logits);
  }

  lemma InvSpeak(c: Setup, s: Snap, t: Timeline, k: nat)
    requires Inv(c, s, t, None, k, k) && k < |s.views| && s.views[k].state.Running?
    requires Sampled(c.m, s.views[k]).finishReason.None?
    ensures Inv(c, Spoken(c.m, s, k), t, None, k + 1, k + 1)
  {
    hide SlabGood, PlacesGood, LedgerGood, QueueGood, NoneLost;
    SpeakingKeepsGood(c.m, c.limit, s, k);
    OneView(c.m, c.limit, s.slab, s.ledger, s.views, k, k);
    EmissionNeverRetracts(c.m, s.ledger, s.views[k]);
    SampledStaysOnTrack(c.m, s.views[k]);
    TokenKeepsPace(t, s.views, k, Consumed(c.m, s.views[k]));
  }

  lemma InvComplete(c: Setup, s: Snap, t: Timeline, k: nat)
    requires Inv(c, s, t, None, k, k) && k < |s.views| && s.views[k].state.Running?
    requires Sampled(c.m, s.views[k]).finishReason.Some?
    ensures var v := s.views[k];
            Inv(c, EndedView(s, k, Consumed(c.m, v), Completed, NewlySafe(c.m, v)), t, None, k + 1, k + 1)
  {
    hide SlabGood, PlacesGood, LedgerGood, QueueGood, NoneLost, ViewsGood, Fitting, RowsGood, SpeechGood, Sampled;
    CompletionKeepsGood(c.m, c.limit, s, k);
    OneView(c.m, c.limit, s.slab, s.ledger, s.views, k, k);
    ConsumptionCompletes(c.m, s.ledger, s.views[k]);
    StateChangeKeepsPace(t, s.views, k, k + 1, k, Consumed(c.m, s.views[k]));
  }

  lemma InvDrain(c: Setup, s: Snap, t: Timeline, told: bool)
    requires Inv(c, s, t, None, |s.views|, |s.views|) && s.queue != []
    ensures Inv(c, Dropped(s, 0, Interrupted, told), t, None, |s.views|, |s.views|)
  {
    hide Good;
    DropKeepsGood(c.m, c.limit, s, None, |s.views|, 0, Interrupted, told);
    RemovalIsSubqueue(s.queue, 0);
    SubqueueKeepsPace(t, s.queue, RemoveAt(s.queue, 0));
  }

  // ----- Consequences -----

  ghost function SlotsOf(views: seq<SeqView>): set<nat> { set i | 0 <= i < |views| :: views[i].kvHandle.slot }

  lemma {:induction false} SlotsDistinct(views: seq<SeqView>)
    requires forall i, j :: 0 <= i < j < |views| ==> views[i].kvHandle.slot != views[j].kvHandle.slot
    ensures |SlotsOf(views)| == |views|
  {
    if views != [] {
      var n := |views| - 1;
      SlotsDistinct(views[..n]);
      assert SlotsOf(views) == SlotsOf(views[..n]) + {views[n].kvHandle.slot};
    }
  }

  /** As many slots are allocated as there are sequences; a free one remains while there are fewer than all. */
  lemma AllocatedCount(c: Setup, s: Snap)
    requires SlabGood(c.m, s.slab, s.views)
    ensures |s.slab.occupied| == |s.views| <= s.slab.maxSeqs
    ensures s.slab.free != [] <==> |s.views| < s.slab.maxSeqs
  {
    SlotsDistinct(s.views);
    assert SlotsOf(s.views) == s.slab.occupied.Keys;
    assert |s.slab.occupied.Keys| == |s.slab.occupied|;
    FreeSlotIff(s.slab);
  }
}
