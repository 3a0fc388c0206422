/** Every step of the scheduler or of its clients keeps the invariant. */
module Steps {
  import opened Basics
  import opened Transformer
  import opened KvCache
  import opened Sequences
  import opened Gpt2Backend
  import opened Reference
  import opened RequestQueues
  import opened Clients
  import opened Machine

  // ----- Pending requests -----

  function Arrived(s: Snap, req: GenerationRequest): Snap {
    s.(queue := s.queue + [req], ledger := s.ledger.(accepted := s.ledger.accepted[req.id := req]))
  }

  lemma ArrivalKeepsViews(m: Gpt2, limit: nat, s: Snap, from: nat, req: GenerationRequest)
    requires ViewsGood(m, limit, s.slab, s.ledger, s.views, from) && req.id !in s.ledger.accepted
    ensures ViewsGood(m, limit, s.slab, Arrived(s, req).ledger, s.views, from)
  {
    forall i | 0 <= i < |s.views| && !s.views[i].Done()
      ensures ViewGood(m, limit, s.slab, Arrived(s, req).ledger, s.views[i], i >= from)
    {
      OneView(m, limit, s.slab, s.ledger, s.views, from, i);
    }
  }

  lemma ArrivalKeepsPlaces(s: Snap, hand: Option<GenerationRequest>, req: GenerationRequest)
    requires QueueGood(s.ledger, s.queue, hand) && PlacesGood(s.ledger, s.queue, s.views, hand)
    requires req.id !in s.ledger.accepted
    requires req.id !in s.ledger.ended && HistoryOf(s.ledger.sent, req.id) == []
    ensures var s' := Arrived(s, req);
            QueueGood(s'.ledger, s'.queue, hand) && PlacesGood(s'.ledger, s'.queue, s.views, hand)
  {
  }

  lemma ArrivalLosesNone(s: Snap, hand: Option<GenerationRequest>, req: GenerationRequest)
    requires NoneLost(s.ledger, s.queue, s.views, hand)
    ensures NoneLost(Arrived(s, req).ledger, Arrived(s, req).queue, s.views, hand)
  {
    var queue := s.queue + [req];
    forall id | id == req.id || Queued(s.queue, id) ensures Queued(queue, id) {
      if id == req.id {
        assert queue[|s.queue|].id == id;
      } else {
        var i :| 0 <= i < |s.queue| && s.queue[i].id == id;
        assert queue[i].id == id;
      }
    }
  }

  /** A new request is accepted. */
  lemma ArrivalKeepsGood(m: Gpt2, limit: nat, s: Snap, hand: Option<GenerationRequest>, from: nat,
                         req: GenerationRequest)
    requires Good(m, limit, s, hand, from) && req.id !in s.ledger.accepted
    ensures Good(m, limit, Arrived(s, req), hand, from)
  {
    hide SlabGood, PlacesGood, NoneLost, ViewsGood;
    ArrivalKeepsViews(m, limit, s, from, req);
    ArrivalKeepsPlaces(s, hand, req);
    ArrivalLosesNone(s, hand, req);
  }

  function Dropped(s: Snap, k: nat, cause: Cause, told: bool): Snap
    requires k < |s.queue|
  {
    s.(queue := RemoveAt(s.queue, k), ledger := EndLedger(s.ledger, s.queue[k].id, cause, Closing(cause, told)))
  }

  lemma StillQueued(queue: seq<GenerationRequest>, k: nat)
    requires k < |queue|
    ensures forall id :: Queued(queue, id) && id != queue[k].id ==> Queued(RemoveAt(queue, k), id)
  {
    forall id | Queued(queue, id) && id != queue[k].id ensures Queued(RemoveAt(queue, k), id) {
      var i :| 0 <= i < |queue| && queue[i].id == id;
      assert RemoveAt(queue, k)[if i < k then i else i - 1].id == id;
    }
  }

  lemma EndKeepsQueue(s: Snap, hand: Option<GenerationRequest>, id: Id, cause: Cause, items: seq<StreamItem>)
    requires QueueGood(s.ledger, s.queue, hand)
    requires !Queued(s.queue, id) && (hand.Some? ==> hand.value.id != id)
    ensures QueueGood(EndLedger(s.ledger, id, cause, items), s.queue, hand)
  {
    SaidOnce(s.ledger.sent, id, items);
    assert forall i :: 0 <= i < |s.queue| ==> s.queue[i].id != id;
  }

  lemma EndKeepsViews(m: Gpt2, limit: nat, s: Snap, from: nat, id: Id, cause: Cause, items: seq<StreamItem>)
    requires ViewsGood(m, limit, s.slab, s.ledger, s.views, from)
    ensures forall i :: 0 <= i < |s.views| && !s.views[i].Done() && s.views[i].id != id ==>
              ViewGood(m, limit, s.slab, EndLedger(s.ledger, id, cause, items), s.views[i], i >= from)
  {
    forall i | 0 <= i < |s.views| && !s.views[i].Done() && s.views[i].id != id
      ensures ViewGood(m, limit, s.slab, EndLedger(s.ledger, id, cause, items), s.views[i], i >= from)
    {
      OthersKeepSpeaking(m, s.ledger, s.views[i], id, cause, items);
    }
  }

  /** The end of a request that has no sequence. */
  lemma EndKeepsAllViews(m: Gpt2, limit: nat, s: Snap, from: nat, id: Id, cause: Cause, items: seq<StreamItem>)
    requires ViewsGood(m, limit, s.slab, s.ledger, s.views, from) && !Serving(s.views, id)
    ensures ViewsGood(m, limit, s.slab, EndLedger(s.ledger, id, cause, items), s.views, from)
  {
    EndKeepsViews(m, limit, s, from, id, cause, items);
  }

  lemma DropKeepsQueue(s: Snap, hand: Option<GenerationRequest>, k: nat, cause: Cause, told: bool)
    requires QueueGood(s.ledger, s.queue, hand) && k < |s.queue|
    ensures QueueGood(Dropped(s, k, cause, told).ledger, RemoveAt(s.queue, k), hand)
  {
    var id := s.queue[k].id;
    assert !Queued(RemoveAt(s.queue, k), id);
    EndKeepsQueue(s.(queue := RemoveAt(s.queue, k)), hand, id, cause, Closing(cause, told));
  }

  lemma DropKeepsPlaces(s: Snap, hand: Option<GenerationRequest>, k: nat, cause: Cause, told: bool)
    requires PlacesGood(s.ledger, s.queue, s.views, hand)
    requires NoneLost(s.ledger, s.queue, s.views, hand) && k < |s.queue|
    ensures PlacesGood(Dropped(s, k, cause, told).ledger, RemoveAt(s.queue, k), s.views, hand)
    ensures NoneLost(Dropped(s, k, cause, told).ledger, RemoveAt(s.queue, k), s.views, hand)
  {
    StillQueued(s.queue, k);
  }

  /** A pending request ends: its receiver is gone, or the scheduler shuts down. */
  lemma DropKeepsGood(m: Gpt2, limit: nat, s: Snap, hand: Option<GenerationRequest>, from: nat, k: nat, cause: Cause,
                      told: bool)
    requires Good(m, limit, s, hand, from) && k < |s.queue| && !cause.Completed?
    ensures Good(m, limit, Dropped(s, k, cause, told), hand, from)
  {
    hide SlabGood, NoneLost, ViewsGood;
    SilentHistory(m, s.ledger, s.queue[k], cause, told);
    EndKeepsLedger(m, s.ledger, s.queue[k].id, cause, Closing(cause, told));
    DropKeepsQueue(s, hand, k, cause, told);
    DropKeepsPlaces(s, hand, k, cause, told);
    EndKeepsAllViews(m, limit, s, from, s.queue[k].id, cause, Closing(cause, told));
  }

  /** The state after pruning the first `|gone|` pending requests; `rest` are the others. */
  function Pruned(s: Snap, gone: seq<bool>, rest: seq<GenerationRequest>): Snap
    requires |gone| <= |s.queue|
  {
    var head := s.queue[..|gone|];
    s.(queue := Live(head, gone) + rest,
       ledger := s.ledger.(ended := EndedByPrune(s.ledger.ended, head, gone),
                           cancelled := s.ledger.cancelled + DroppedCount(gone)))
  }

  lemma PrunedStep(s: Snap, gone: seq<bool>)
    requires 0 < |gone| <= |s.queue|
    ensures var n := |gone| - 1;
            var before, k := Pruned(s, gone[..n], s.queue[n..]), |Live(s.queue[..n], gone[..n])|;
            && k < |before.queue| && before.queue[k] == s.queue[n]
            && Pruned(s, gone, s.queue[|gone|..]) == if gone[n] then Dropped(before, k, Disconnected, false) else before
  {
    var n := |gone| - 1;
    var live, rest := Live(s.queue[..n], gone[..n]), s.queue[n + 1..];
    assert s.queue[..n + 1][..n] == s.queue[..n];
    assert s.queue[n..] == [s.queue[n]] + rest;
    assert (live + s.queue[n..])[..|live|] + (live + s.queue[n..])[|live| + 1..] == live + rest;
    assert live + [s.queue[n]] + rest == live + s.queue[n..];
    assert live + [] + rest == live + rest;
  }

  /** The requests seen closed leave the queue, each ended once and counted once. */
  lemma {:induction false} PruneKeepsGood(m: Gpt2, limit: nat, s: Snap, from: nat, gone: seq<bool>)
    requires |gone| <= |s.queue| && Good(m, limit, s, None, from)
    ensures Good(m, limit, Pruned(s, gone, s.queue[|gone|..]), None, from)
    decreases |gone|
  {
    hide Good, Dropped;
    if gone == [] {
      assert Pruned(s, gone, s.queue[|gone|..]).queue == s.queue;
    } else {
      var n := |gone| - 1;
      PruneKeepsGood(m, limit, s, from, gone[..n]);
      PrunedStep(s, gone);
      if gone[n] {
        DropKeepsGood(m, limit, Pruned(s, gone[..n], s.queue[n..]), None, from, |Live(s.queue[..n], gone[..n])|,
                      Disconnected, false);
      }
    }
  }

  // ----- Admission -----

  function Popped(s: Snap, k: nat): Snap
    requires k < |s.queue|
  {
    s.(queue := RemoveAt(s.queue, k))
  }

  lemma PopKeepsPlaces(s: Snap, k: nat)
    requires QueueGood(s.ledger, s.queue, None) && PlacesGood(s.ledger, s.queue, s.views, None) && k < |s.queue|
    requires NoneLost(s.ledger, s.queue, s.views, None)
    ensures QueueGood(s.ledger, RemoveAt(s.queue, k), Some(s.queue[k]))
    ensures PlacesGood(s.ledger, RemoveAt(s.queue, k), s.views, Some(s.queue[k]))
    ensures NoneLost(s.ledger, RemoveAt(s.queue, k), s.views, Some(s.queue[k]))
  {
    StillQueued(s.queue, k);
  }

  lemma PopKeepsGood(m: Gpt2, limit: nat, s: Snap, from: nat, k: nat)
    requires Good(m, limit, s, None, from) && k < |s.queue|
    ensures Good(m, limit, Popped(s, k), Some(s.queue[k]), from)
  {
    hide SlabGood, QueueGood, PlacesGood, NoneLost, LedgerGood, ViewsGood;
    PopKeepsPlaces(s, k);
  }

  function Refused(s: Snap, req: GenerationRequest, cause: Cause, told: bool): Snap {
    s.(ledger := EndLedger(s.ledger, req.id, cause, Closing(cause, told)))
  }

  lemma RefusalKeepsPlaces(s: Snap, req: GenerationRequest, cause: Cause, items: seq<StreamItem>)
    requires PlacesGood(s.ledger, s.queue, s.views, Some(req)) && NoneLost(s.ledger, s.queue, s.views, Some(req))
    ensures PlacesGood(EndLedger(s.ledger, req.id, cause, items), s.queue, s.views, None)
    ensures NoneLost(EndLedger(s.ledger, req.id, cause, items), s.queue, s.views, None)
  {
  }

  /** A popped request ends before it becomes a sequence. */
  lemma RefusalKeepsGood(m: Gpt2, limit: nat, s: Snap, req: GenerationRequest, from: nat, cause: Cause, told: bool)
    requires Good(m, limit, s, Some(req), from) && !cause.Completed?
    ensures Good(m, limit, Refused(s, req, cause, told), None, from)
  {
    hide SlabGood, ViewsGood, NoneLost;
    SilentHistory(m, s.ledger, req, cause, told);
    EndKeepsLedger(m, s.ledger, req.id, cause, Closing(cause, told));
    EndKeepsQueue(s, None, req.id, cause, Closing(cause, told));
    EndKeepsAllViews(m, limit, s, from, req.id, cause, Closing(cause, told));
    RefusalKeepsPlaces(s, req, cause, Closing(cause, told));
  }

  /** The request passes validation. */
  predicate Admissible(m: Gpt2, limit: nat, maxSeqLen: nat, req: GenerationRequest) {
    && req.promptTokens != []
    && 0 < req.config.maxNewTokens <= limit
    && |req.promptTokens| + req.config.maxNewTokens <= Min(USIZE_MAX, Min(maxSeqLen, m.maxPositions))
  }

  /**
   Validation accepts exactly the nonempty prompts with a budget in 1..limit for which an
   empty cache as long as the longest sequence allowed would have room.
   */
  lemma AdmissibleIff(m: Gpt2, limit: nat, maxSeqLen: nat, req: GenerationRequest)
    ensures Admissible(m, limit, maxSeqLen, req)
            <==> req.promptTokens != [] && 1 <= req.config.maxNewTokens <= limit
                 && HasRoom(InitialSlab(1, Min(maxSeqLen, m.maxPositions), 1, 1, 1), |req.promptTokens|,
                            req.config.maxNewTokens)
  {
  }

  function Admitted(s: Snap, req: GenerationRequest): Snap
    requires SlabOk(s.slab) && s.slab.free != []
  {
    FirstFree(s.slab);
    var promptLen, maxNew := |req.promptTokens|, req.config.maxNewTokens;
    s.(slab := SlabAllocate(s.slab, promptLen, maxNew),
       views := s.views + [FreshView(req, NewHandle(s.slab, promptLen, maxNew))])
  }

  lemma StillOwned(views: seq<SeqView>, views': seq<SeqView>, slot: nat, id: Id, skip: nat)
    requires |views'| + 1 == |views| && skip < |views| && views' == RemoveAt(views, skip)
    ensures (exists i :: 0 <= i < |views| && i != skip && views[i].kvHandle.slot == slot)
            ==> exists i :: 0 <= i < |views'| && views'[i].kvHandle.slot == slot
    ensures Serving(views, id) && id != views[skip].id ==> Serving(views', id)
  {
    if i :| 0 <= i < |views| && i != skip && views[i].kvHandle.slot == slot {
      assert views'[if i < skip then i else i - 1].kvHandle.slot == slot;
    }
    if i :| 0 <= i < |views| && i != skip && views[i].id == id {
      assert views'[if i < skip then i else i - 1].id == id;
    }
  }

  lemma ServingMore(views: seq<SeqView>, v: SeqView)
    ensures forall id :: Serving(views, id) || id == v.id ==> Serving(views + [v], id)
  {
    forall id | Serving(views, id) || id == v.id ensures Serving(views + [v], id) {
      if id == v.id {
        assert (views + [v])[|views|].id == id;
      } else {
        var i :| 0 <= i < |views| && views[i].id == id;
        assert (views + [v])[i].id == id;
      }
    }
  }

  lemma AllocationKeepsOwned(slab: Slab, views: seq<SeqView>, promptLen: nat, maxNew: nat, v: SeqView)
    requires Owned(slab, views) && slab.free != [] && slab.free[0] < |slab.generations| == |slab.issued|
    requires v.kvHandle == NewHandle(slab, promptLen, maxNew) && v.kvHandle.slot !in slab.occupied
    ensures Owned(SlabAllocate(slab, promptLen, maxNew), views + [v])
  {
    var slab', views' := SlabAllocate(slab, promptLen, maxNew), views + [v];
    forall slot | slot in slab'.occupied ensures exists i :: 0 <= i < |views'| && views'[i].kvHandle.slot == slot {
      if slot == v.kvHandle.slot {
        assert views'[|views|].kvHandle.slot == slot;
      } else {
        var i :| 0 <= i < |views| && views[i].kvHandle.slot == slot;
        assert views'[i].kvHandle.slot == slot;
      }
    }
  }

  lemma AdmissionKeepsViews(m: Gpt2, limit: nat, maxSeqLen: nat, s: Snap, req: GenerationRequest)
    requires SlabOk(s.slab) && ViewsGood(m, limit, s.slab, s.ledger, s.views, |s.views|) && s.slab.free != []
    requires Waiting(s.ledger, req) && Admissible(m, limit, maxSeqLen, req)
    ensures ViewsGood(m, limit, Admitted(s, req).slab, s.ledger, Admitted(s, req).views, |s.views| + 1)
  {
    AllocateKeepsOk(s.slab, |req.promptTokens|, req.config.maxNewTokens);
    var s' := Admitted(s, req);
    var v := s'.views[|s.views|];
    FreshIsEmitting(req, v.kvHandle);
    assert ViewGood(m, limit, s'.slab, s'.ledger, v, false) by {
      assert TokenItems([]) == [];
    }
    forall i | 0 <= i < |s.views| && !s.views[i].Done()
      ensures ViewGood(m, limit, s'.slab, s'.ledger, s.views[i], false)
    {
      OneView(m, limit, s.slab, s.ledger, s.views, |s.views|, i);
    }
  }

  lemma AdmissionKeepsPlaces(s: Snap, req: GenerationRequest, v: SeqView)
    requires QueueGood(s.ledger, s.queue, Some(req)) && PlacesGood(s.ledger, s.queue, s.views, Some(req))
    requires NoneLost(s.ledger, s.queue, s.views, Some(req)) && v.id == req.id && !v.Done()
    ensures QueueGood(s.ledger, s.queue, None)
    ensures PlacesGood(s.ledger, s.queue, s.views + [v], None) && NoneLost(s.ledger, s.queue, s.views + [v], None)
  {
    ServingMore(s.views, v);
  }

  /** The popped request becomes a sequence with a slot of its own and nothing cached. */
  lemma AdmissionKeepsGood(m: Gpt2, limit: nat, maxSeqLen: nat, s: Snap, req: GenerationRequest)
    requires Good(m, limit, s, Some(req), |s.views|) && s.slab.free != [] && Admissible(m, limit, maxSeqLen, req)
    ensures Good(m, limit, Admitted(s, req), None, |s.views| + 1)
  {
    hide PlacesGood, NoneLost, LedgerGood, ViewsGood, SlotOk, NoRepeats;
    AdmissionKeepsViews(m, limit, maxSeqLen, s, req);
    AllocateKeepsOk(s.slab, |req.promptTokens|, req.config.maxNewTokens);
    var v := FreshView(req, NewHandle(s.slab, |req.promptTokens|, req.config.maxNewTokens));
    AllocationKeepsOwned(s.slab, s.views, |req.promptTokens|, req.config.maxNewTokens, v);
    AdmissionKeepsPlaces(s, req, v);
    assert Admitted(s, req) == s.(views := s.views + [v]).(slab := Admitted(s, req).slab);
  }

  /** The same sequence in the same slot. */
  predicate SamePlace(v: SeqView, w: SeqView) { w.id == v.id && w.kvHandle == v.kvHandle }

  predicate SamePlaces(views: seq<SeqView>, views': seq<SeqView>) {
    |views'| == |views| && forall i :: 0 <= i < |views| ==> SamePlace(views[i], views'[i])
  }

  /** Rows stored for other slots do not concern a sequence. */
  lemma RowsChange(m: Gpt2, limit: nat, slab: Slab, l: Ledger, slab': Slab, slots: set<nat>, v: SeqView, fed: bool)
    requires ViewGood(m, limit, slab, l, v, fed) && OnlyRowsDiffer(slab, slab', slots) && v.kvHandle.slot !in slots
    ensures ViewGood(m, limit, slab', l, v, fed)
  {
  }

  lemma SlabAfterRowsChange(m: Gpt2, slab: Slab, views: seq<SeqView>, slab': Slab, slots: set<nat>,
                            views': seq<SeqView>)
    requires SlabGood(m, slab, views) && SlabOk(slab') && OnlyRowsDiffer(slab, slab', slots)
             && SamePlaces(views, views')
    ensures SlabGood(m, slab', views')
  {
    forall slot | slot in slab'.occupied ensures exists i :: 0 <= i < |views'| && views'[i].kvHandle.slot == slot {
      var i :| 0 <= i < |views| && views[i].kvHandle.slot == slot;
      assert SamePlace(views[i], views'[i]);
    }
  }

  lemma SamePlacesKeepSlab(m: Gpt2, slab: Slab, views: seq<SeqView>, views': seq<SeqView>)
    requires SlabGood(m, slab, views) && SamePlaces(views, views')
    ensures SlabGood(m, slab, views')
  {
    SlabAfterRowsChange(m, slab, views, slab, {}, views');
  }

  lemma StillServing(views: seq<SeqView>, k: nat, w: SeqView)
    requires k < |views| && SamePlace(views[k], w)
    ensures SamePlaces(views, views[k := w])
    ensures forall id :: Serving(views, id) ==> Serving(views[k := w], id)
  {
    forall id | Serving(views, id) ensures Serving(views[k := w], id) {
      var i :| 0 <= i < |views| && views[i].id == id;
      assert views[k := w][i].id == id;
    }
  }

  lemma PrefilledView(m: Gpt2, limit: nat, slab: Slab, l: Ledger, slab': Slab, v: SeqView)
    requires ViewGood(m, limit, slab, l, v, false) && v.state.Prefilling? && IsCurrent(slab, v.kvHandle)
             && Fits(m, slab)
    requires PrefillResult(m, slab, slab', v.kvHandle, CachedPrompt(v.prompt))
    ensures ViewGood(m, limit, slab', l, MarkRunningView(v), false)
  {
    assert Context(v.prompt, []) == v.prompt;
    assert CachedTokens(v.prompt, v.generated) == CachedPrompt(v.prompt);
  }

  lemma PrefillKeepsViews(m: Gpt2, limit: nat, s: Snap, n: nat, slab': Slab)
    requires n + 1 == |s.views| && s.views[n].state.Prefilling? && Owned(s.slab, s.views) && Fits(m, s.slab)
    requires ViewsGood(m, limit, s.slab, s.ledger, s.views, n + 1)
    requires OnlyRowsDiffer(s.slab, slab', {s.views[n].kvHandle.slot})
    requires PrefillResult(m, s.slab, slab', s.views[n].kvHandle, CachedPrompt(s.views[n].prompt))
    ensures ViewsGood(m, limit, slab', s.ledger, s.views[n := MarkRunningView(s.views[n])], n + 1)
  {
    hide ViewGood, PrefillResult, OnlyRowsDiffer;
    OneView(m, limit, s.slab, s.ledger, s.views, n + 1, n);
    PrefilledView(m, limit, s.slab, s.ledger, slab', s.views[n]);
    forall i | 0 <= i < n && !s.views[i].Done() ensures ViewGood(m, limit, slab', s.ledger, s.views[i], false) {
      OneView(m, limit, s.slab, s.ledger, s.views, n + 1, i);
      RowsChange(m, limit, s.slab, s.ledger, slab', {s.views[n].kvHandle.slot}, s.views[i], false);
    }
  }

  lemma ReplacementKeepsPlaces(s: Snap, k: nat, w: SeqView)
    requires k < |s.views| && SamePlace(s.views[k], w) && !w.Done() && !s.views[k].Done()
    requires PlacesGood(s.ledger, s.queue, s.views, None) && NoneLost(s.ledger, s.queue, s.views, None)
    ensures PlacesGood(s.ledger, s.queue, s.views[k := w], None) && NoneLost(s.ledger, s.queue, s.views[k := w], None)
    ensures SamePlaces(s.views, s.views[k := w])
  {
    StillServing(s.views, k, w);
  }

  /** Prefill of the newest sequence succeeded. */
  lemma PrefillKeepsGood(m: Gpt2, limit: nat, s: Snap, n: nat, slab': Slab)
    requires Good(m, limit, s, None, n + 1) && n + 1 == |s.views| && s.views[n].state.Prefilling?
    requires SlabOk(slab') && OnlyRowsDiffer(s.slab, slab', {s.views[n].kvHandle.slot})
    requires PrefillResult(m, s.slab, slab', s.views[n].kvHandle, CachedPrompt(s.views[n].prompt))
    ensures Good(m, limit, s.(slab := slab', views := s.views[n := MarkRunningView(s.views[n])]), None, n + 1)
  {
    hide Owned, SlabOk, PlacesGood, NoneLost, LedgerGood, ViewsGood, QueueGood;
    PrefillKeepsViews(m, limit, s, n, slab');
    ReplacementKeepsPlaces(s, n, MarkRunningView(s.views[n]));
    SlabAfterRowsChange(m, s.slab, s.views, slab', {s.views[n].kvHandle.slot},
                        s.views[n := MarkRunningView(s.views[n])]);
  }

  // ----- Service -----

  /** Sequence `k` becomes `w`, which is done; its request ends. */
  function EndedView(s: Snap, k: nat, w: SeqView, cause: Cause, items: seq<StreamItem>): Snap
    requires k < |s.views|
  {
    s.(views := s.views[k := w], ledger := EndLedger(s.ledger, w.id, cause, items))
  }

  lemma EndedViewKeepsPlaces(s: Snap, k: nat, w: SeqView, cause: Cause, items: seq<StreamItem>)
    requires k < |s.views| && SamePlace(s.views[k], w) && w.Done()
    requires PlacesGood(s.ledger, s.queue, s.views, None) && NoneLost(s.ledger, s.queue, s.views, None)
    ensures PlacesGood(EndedView(s, k, w, cause, items).ledger, s.queue, s.views[k := w], None)
    ensures NoneLost(EndedView(s, k, w, cause, items).ledger, s.queue, s.views[k := w], None)
  {
    StillServing(s.views, k, w);
  }

  lemma EndedViewKeepsViews(m: Gpt2, limit: nat, s: Snap, from: nat, from': nat, k: nat, w: SeqView, cause: Cause,
                            items: seq<StreamItem>)
    requires ViewsGood(m, limit, s.slab, s.ledger, s.views, from) && PlacesGood(s.ledger, s.queue, s.views, None)
    requires k < |s.views| && SamePlace(s.views[k], w) && w.Done()
    requires from == from' || (from == k && from' == k + 1)
    ensures ViewsGood(m, limit, s.slab, EndedView(s, k, w, cause, items).ledger, s.views[k := w], from')
  {
    EndKeepsViews(m, limit, s, from, w.id, cause, items);
    var s' := EndedView(s, k, w, cause, items);
    forall i | 0 <= i < |s'.views| && !s'.views[i].Done()
      ensures ViewGood(m, limit, s'.slab, s'.ledger, s'.views[i], i >= from')
    {
      assert i != k && s'.views[i] == s.views[i] && s.views[i].id != w.id;
    }
  }

  lemma EndViewKeepsGood(m: Gpt2, limit: nat, s: Snap, from: nat, from': nat, k: nat, w: SeqView, cause: Cause,
                         items: seq<StreamItem>)
    requires Good(m, limit, s, None, from) && k < |s.views| && !s.views[k].Done()
    requires from == from' || (from == k && from' == k + 1)
    requires w.Done() && SamePlace(s.views[k], w)
    requires s.views[k].id in s.ledger.accepted &&
             LegalHistory(m, s.ledger.accepted[w.id], cause, HistoryOf(s.ledger.sent, w.id) + items)
    ensures Good(m, limit, EndedView(s, k, w, cause, items), None, from')
  {
    hide NoneLost, ViewsGood, SlabGood;
    EndedViewKeepsViews(m, limit, s, from, from', k, w, cause, items);
    EndKeepsLedger(m, s.ledger, w.id, cause, items);
    EndKeepsQueue(s, None, w.id, cause, items);
    EndedViewKeepsPlaces(s, k, w, cause, items);
    StillServing(s.views, k, w);
    SamePlacesKeepSlab(m, s.slab, s.views, s.views[k := w]);
  }

  /** A sequence ends before it could complete. */
  lemma CutKeepsGood(m: Gpt2, limit: nat, s: Snap, from: nat, from': nat, k: nat, w: SeqView, cause: Cause, told: bool)
    requires Good(m, limit, s, None, from) && k < |s.views| && !s.views[k].Done()
    requires from == from' || (from == k && from' == k + 1)
    requires w.Done() && SamePlace(s.views[k], w) && !cause.Completed?
    ensures Good(m, limit, EndedView(s, k, w, cause, Closing(cause, told)), None, from')
  {
    OneView(m, limit, s.slab, s.ledger, s.views, from, k);
    BrokenHistory(m, s.ledger, s.views[k], cause, told);
    EndViewKeepsGood(m, limit, s, from, from', k, w, cause, Closing(cause, told));
  }

  /** A done sequence gives its slot back and leaves. */
  function Reaped(s: Snap, k: nat): Snap
    requires k < |s.views|
  {
    s.(slab := SlabFree(s.slab, s.views[k].kvHandle), views := RemoveAt(s.views, k))
  }

  lemma ReapKeepsOwned(slab: Slab, views: seq<SeqView>, k: nat)
    requires Owned(slab, views) && k < |views|
    ensures Owned(SlabFree(slab, views[k].kvHandle), RemoveAt(views, k))
  {
    var slab', views' := SlabFree(slab, views[k].kvHandle), RemoveAt(views, k);
    forall i | 0 <= i < |views'| ensures IsCurrent(slab', views'[i].kvHandle) {
      var j := if i < k then i else i + 1;
      assert views[j].kvHandle.slot != views[k].kvHandle.slot;
    }
    forall slot | slot in slab'.occupied ensures exists i :: 0 <= i < |views'| && views'[i].kvHandle.slot == slot {
      StillOwned(views, views', slot, 0, k);
    }
  }

  lemma FreeKeepsView(m: Gpt2, limit: nat, slab: Slab, l: Ledger, v: SeqView, h: KvHandle)
    requires SlabOk(slab) && ViewGood(m, limit, slab, l, v, false) && v.kvHandle.slot != h.slot
    ensures ViewGood(m, limit, SlabFree(slab, h), l, v, false)
  {
    FreeKeepsOk(slab, h);
  }

  lemma ReapKeepsViews(m: Gpt2, limit: nat, s: Snap, from: nat, k: nat)
    requires ViewsGood(m, limit, s.slab, s.ledger, s.views, from) && SlabOk(s.slab) && Owned(s.slab, s.views)
    requires k < |s.views| <= from
    ensures ViewsGood(m, limit, Reaped(s, k).slab, s.ledger, RemoveAt(s.views, k), |s.views| - 1)
  {
    hide SlabOk, ViewGood, SlabFree;
    var s' := Reaped(s, k);
    forall i | 0 <= i < |s'.views| && !s'.views[i].Done()
      ensures ViewGood(m, limit, s'.slab, s'.ledger, s'.views[i], false)
    {
      var j := if i < k then i else i + 1;
      OneView(m, limit, s.slab, s.ledger, s.views, |s.views|, j);
      FreeKeepsView(m, limit, s.slab, s.ledger, s.views[j], s.views[k].kvHandle);
    }
  }

  lemma ReapKeepsPlaces(s: Snap, k: nat)
    requires PlacesGood(s.ledger, s.queue, s.views, None)
    requires NoneLost(s.ledger, s.queue, s.views, None) && k < |s.views| && s.views[k].Done()
    ensures PlacesGood(s.ledger, s.queue, RemoveAt(s.views, k), None)
    ensures NoneLost(s.ledger, s.queue, RemoveAt(s.views, k), None)
  {
    forall id ensures Serving(s.views, id) && id != s.views[k].id ==> Serving(RemoveAt(s.views, k), id) {
      StillOwned(s.views, RemoveAt(s.views, k), 0, id, k);
    }
  }

  lemma ReapKeepsGood(m: Gpt2, limit: nat, s: Snap, from: nat, k: nat)
    requires Good(m, limit, s, None, from) && k < |s.views| <= from && s.views[k].Done()
    ensures Good(m, limit, Reaped(s, k), None, |s.views| - 1)
  {
    hide PlacesGood, NoneLost, LedgerGood, ViewsGood, QueueGood;
    ReapKeepsViews(m, limit, s, from, k);
    ReapKeepsPlaces(s, k);
    ReapKeepsOwned(s.slab, s.views, k);
    FreeKeepsOk(s.slab, s.views[k].kvHandle);
  }

  /** Rows of done sequences may be anything. */
  lemma SpoiledRowsKeepGood(m: Gpt2, limit: nat, s: Snap, from: nat, slab': Slab, slots: set<nat>)
    requires Good(m, limit, s, None, from) && SlabOk(slab') && OnlyRowsDiffer(s.slab, slab', slots)
    requires forall i :: 0 <= i < |s.views| && s.views[i].kvHandle.slot in slots ==> s.views[i].Done()
    ensures Good(m, limit, s.(slab := slab'), None, from)
  {
    hide SlabGood, PlacesGood, NoneLost, LedgerGood, QueueGood;
    SlabAfterRowsChange(m, s.slab, s.views, slab', slots, s.views);
    forall i | 0 <= i < |s.views| && !s.views[i].Done()
      ensures ViewGood(m, limit, slab', s.ledger, s.views[i], i >= from)
    {
      RowsChange(m, limit, s.slab, s.ledger, slab', slots, s.views[i], i >= from);
    }
  }

  // ----- Decoding -----

  function InputOf(v: SeqView): DecodeInput {
    DecodeInput(v.id, v.kvHandle, LastTokenOf(v.prompt, v.generated), PositionOf(v.prompt, v.generated))
  }

  /** Row `i` of the batch belongs to sequence `i`. */
  function BatchOf(views: seq<SeqView>): (batch: seq<DecodeInput>)
    ensures |batch| == |views| && forall i :: 0 <= i < |batch| ==> batch[i] == InputOf(views[i])
  {
    seq(|views|, i requires 0 <= i < |views| => InputOf(views[i]))
  }

  lemma EmittingOf(m: Gpt2, l: Ledger, v: SeqView)
    requires SpeechGood(m, l, v)
    ensures Emitting(v)
  {
  }

  /** Before a decode step the cached length is the decode position, below the model's and the slot's limits. */
  lemma CapacityCloses(m: Gpt2, limit: nat, slab: Slab, l: Ledger, v: SeqView)
    requires ViewGood(m, limit, slab, l, v, false) && v.state.Running?
    ensures CachedTokens(v.prompt, v.generated) + [LastTokenOf(v.prompt, v.generated)] == Context(v.prompt, v.generated)
    ensures |CachedTokens(v.prompt, v.generated)| == PositionOf(v.prompt, v.generated) < m.maxPositions
    ensures PositionOf(v.prompt, v.generated) + 1 < v.kvHandle.capacityTokens
    ensures forall j :: 0 <= j < |Rows(slab, v.kvHandle.slot)| ==>
              |Rows(slab, v.kvHandle.slot)[j].k| == PositionOf(v.prompt, v.generated)
  {
    hide SpeechGood, OnTrack;
    assert Emitting(v) by { EmittingOf(m, l, v); }
    BelowBudget(v);
    var context := Context(v.prompt, v.generated);
    assert context == context[..|context| - 1] + [context[|context| - 1]];
    forall j | 0 <= j < |Rows(slab, v.kvHandle.slot)|
      ensures |Rows(slab, v.kvHandle.slot)[j].k| == PositionOf(v.prompt, v.generated)
    {
      assert Rows(slab, v.kvHandle.slot)[j] == FullKv(m, CachedTokens(v.prompt, v.generated), j);
    }
  }

  ghost predicate AllRunning(views: seq<SeqView>) { forall i :: 0 <= i < |views| ==> views[i].state.Running? }

  lemma RowIsServable(m: Gpt2, limit: nat, slab: Slab, l: Ledger, v: SeqView)
    requires ViewGood(m, limit, slab, l, v, false) && v.state.Running?
    ensures RowHasHeadroom(m, slab, InputOf(v))
  {
    CapacityCloses(m, limit, slab, l, v);
  }

  lemma BatchHasHeadroom(m: Gpt2, limit: nat, slab: Slab, l: Ledger, views: seq<SeqView>)
    requires ViewsGood(m, limit, slab, l, views, |views|) && AllRunning(views)
    ensures HasHeadroom(m, slab, BatchOf(views))
  {
    forall i | 0 <= i < |views| ensures RowHasHeadroom(m, slab, BatchOf(views)[i]) {
      OneView(m, limit, slab, l, views, |views|, i);
      RowIsServable(m, limit, slab, l, views[i]);
    }
  }

  lemma BatchIsOwned(slab: Slab, views: seq<SeqView>)
    requires Owned(slab, views)
    ensures DistinctSlots(BatchOf(views)) && AllCurrent(slab, BatchOf(views))
  {
  }

  /** The batch meets every demand of the model and the cache, so only a kernel can fail. */
  lemma BatchIsServable(m: Gpt2, limit: nat, s: Snap)
    requires Good(m, limit, s, None, |s.views|) && AllRunning(s.views)
    ensures DistinctSlots(BatchOf(s.views)) && AllCurrent(s.slab, BatchOf(s.views))
            && HasHeadroom(m, s.slab, BatchOf(s.views))
  {
    BatchHasHeadroom(m, limit, s.slab, s.ledger, s.views);
    BatchIsOwned(s.slab, s.views);
  }

  /** One decoded row: its cache is now that of its whole context, its logits those of a full forward. */
  lemma DecodedRowIsFull(m: Gpt2, limit: nat, slab: Slab, slab': Slab, l: Ledger, v: SeqView, logits: Row)
    requires SlabOk(slab) && Fits(m, slab) && IsCurrent(slab, v.kvHandle) && slab'.layers.Keys == slab.layers.Keys
    requires ViewGood(m, limit, slab, l, v, false) && v.state.Running?
    requires v.kvHandle.slot in slab'.layers && RowDecoded(m, slab, slab', InputOf(v), logits)
    ensures ViewGood(m, limit, slab', l, v, true)
    ensures logits == FullLogits(m, Context(v.prompt, v.generated))
  {
    CapacityCloses(m, limit, slab, l, v);
    CachedDecodeIsFullForward(m, Rows(slab, v.kvHandle.slot), CachedTokens(v.prompt, v.generated),
                              LastTokenOf(v.prompt, v.generated));
  }

  /** Row `i` of the logits is what a full forward over the context of sequence `i` computes. */
  ghost predicate LogitsAreFull(m: Gpt2, views: seq<SeqView>, logits: seq<Row>) {
    && |logits| == |views|
    && forall i :: 0 <= i < |views| ==> logits[i] == FullLogits(m, Context(views[i].prompt, views[i].generated))
  }

  lemma DecodedView(m: Gpt2, limit: nat, slab: Slab, slab': Slab, l: Ledger, views: seq<SeqView>, logits: seq<Row>,
                    i: nat)
    requires SlabOk(slab) && Fits(m, slab) && AllCurrent(slab, BatchOf(views)) && slab'.layers.Keys == slab.layers.Keys
    requires RowwiseDecoded(m, slab, slab', BatchOf(views), logits) && i < |views|
    requires ViewGood(m, limit, slab, l, views[i], false) && views[i].state.Running?
    ensures ViewGood(m, limit, slab', l, views[i], true)
    ensures |logits| == |views| && logits[i] == FullLogits(m, Context(views[i].prompt, views[i].generated))
  {
    assert BatchOf(views)[i] == InputOf(views[i]);
    assert IsCurrent(slab, BatchOf(views)[i].kvHandle);
    DecodedRowIsFull(m, limit, slab, slab', l, views[i], logits[i]);
  }

  lemma DecodeKeepsViews(m: Gpt2, limit: nat, s: Snap, slab': Slab, logits: seq<Row>)
    requires SlabOk(s.slab) && Fits(m, s.slab) && AllRunning(s.views)
    requires ViewsGood(m, limit, s.slab, s.ledger, s.views, |s.views|)
    requires AllCurrent(s.slab, BatchOf(s.views)) && slab'.layers.Keys == s.slab.layers.Keys
    requires RowwiseDecoded(m, s.slab, slab', BatchOf(s.views), logits)
    ensures ViewsGood(m, limit, slab', s.ledger, s.views, 0) && LogitsAreFull(m, s.views, logits)
  {
    forall i | 0 <= i < |s.views|
      ensures ViewGood(m, limit, slab', s.ledger, s.views[i], true)
      ensures logits[i] == FullLogits(m, Context(s.views[i].prompt, s.views[i].generated))
    {
      OneView(m, limit, s.slab, s.ledger, s.views, |s.views|, i);
      DecodedView(m, limit, s.slab, slab', s.ledger, s.views, logits, i);
    }
  }

  /** A decode step of the whole batch. */
  lemma DecodeKeepsGood(m: Gpt2, limit: nat, s: Snap, slab': Slab, logits: seq<Row>)
    requires Good(m, limit, s, None, |s.views|) && AllRunning(s.views) && SlabOk(slab')
    requires ForwardResult(m, s.slab, slab', BatchOf(s.views), Ok(logits))
    ensures Good(m, limit, s.(slab := slab'), None, 0) && LogitsAreFull(m, s.views, logits)
  {
    hide PlacesGood, NoneLost, LedgerGood, ViewsGood, QueueGood;
    BatchIsServable(m, limit, s);
    DecodeKeepsViews(m, limit, s, slab', logits);
    SlabAfterRowsChange(m, s.slab, s.views, slab', Slots(BatchOf(s.views)), s.views);
  }

  // ----- Consuming one row -----

  /** The sequence after it consumed its token and its newly safe tokens were taken out. */
  function Consumed(m: Gpt2, v: SeqView): SeqView {
    var w := Sampled(m, v);
    w.(emitted := SafeEnd(w))
  }

  /** What consuming a token makes visible. */
  function NewlySafe(m: Gpt2, v: SeqView): seq<StreamItem> {
    var w := Sampled(m, v);
    Messages(Slice(w.generated, v.emitted, SafeEnd(w)), w.finishReason)
  }

  lemma TokenItemsJoin(a: seq<Token>, b: seq<Token>)
    ensures TokenItems(a) + TokenItems(b) == TokenItems(a + b)
  {
  }

  /** History plus the newly safe tokens is everything now safe. */
  lemma HistoryGrows(v: SeqView, generated: seq<Token>, to: nat, reason: Option<FinishReason>)
    requires v.generated <= generated && v.emitted <= to <= |generated| && v.emitted <= |v.generated|
    ensures TokenItems(v.generated[..v.emitted]) + Messages(Slice(generated, v.emitted, to), reason)
            == Messages(generated[..to], reason)
  {
    TokenItemsJoin(v.generated[..v.emitted], generated[v.emitted..to]);
    assert v.generated[..v.emitted] + generated[v.emitted..to] == generated[..to];
  }

  lemma ConsumptionContinues(m: Gpt2, l: Ledger, v: SeqView)
    requires SpeechGood(m, l, v) && Sampled(m, v).finishReason.None?
    ensures SpeechGood(m, l.(sent := Say(l.sent, v.id, NewlySafe(m, v))), Consumed(m, v))
    ensures !Consumed(m, v).Done() <==> !v.Done()
  {
    UnfinishedStaysInStep(m, v);
    SampledStaysOnTrack(m, v);
    SaidOnce(l.sent, v.id, NewlySafe(m, v));
    HistoryGrows(v, Sampled(m, v).generated, SafeEnd(Sampled(m, v)), None);
    var shown := Consumed(m, v).generated[..SafeEnd(Sampled(m, v))];
    assert Messages(shown, None) == TokenItems(shown);
  }

  lemma ConsumptionCompletes(m: Gpt2, l: Ledger, v: SeqView)
    requires SpeechGood(m, l, v) && Sampled(m, v).finishReason.Some?
    ensures LegalHistory(m, l.accepted[v.id], Completed, HistoryOf(l.sent, v.id) + NewlySafe(m, v))
    ensures Consumed(m, v).Done()
  {
    FinishedHoldsAnswer(m, v);
    SampledStaysOnTrack(m, v);
    HistoryGrows(v, Sampled(m, v).generated, SafeEnd(Sampled(m, v)), Sampled(m, v).finishReason);
  }

  /** Taking the newly safe tokens never fails. */
  lemma EmissionNeverRetracts(m: Gpt2, l: Ledger, v: SeqView)
    requires SpeechGood(m, l, v)
    ensures var w := Sampled(m, v); w.emitted == v.emitted <= SafeEnd(w) <= |w.generated|
    ensures SamePlace(v, Consumed(m, v))
  {
    if Sampled(m, v).finishReason.None? {
      UnfinishedStaysInStep(m, v);
    } else {
      FinishedHoldsAnswer(m, v);
    }
  }

  /** The consumed token's row becomes the last cached one of the new, longer context. */
  lemma ConsumptionKeepsRows(m: Gpt2, slab: Slab, v: SeqView)
    requires RowsGood(m, slab, v, true) && v.state.Running? && Emitting(v) && OnTrack(m, v)
    requires Sampled(m, v).finishReason.None?
    ensures RowsGood(m, slab, Consumed(m, v), false)
    ensures |Consumed(m, v).generated| == |v.generated| + 1
  {
    UnfinishedStaysInStep(m, v);
    SampledStaysOnTrack(m, v);
    var w := Consumed(m, v);
    assert CachedTokens(w.prompt, w.generated) == Context(v.prompt, v.generated);
  }

  lemma ConsumptionKeepsView(m: Gpt2, limit: nat, slab: Slab, l: Ledger, v: SeqView)
    requires ViewGood(m, limit, slab, l, v, true) && v.state.Running? && Sampled(m, v).finishReason.None?
    ensures Fitting(m, limit, Consumed(m, v)) && RowsGood(m, slab, Consumed(m, v), false)
  {
    hide RowsGood;
    ConsumptionKeepsRows(m, slab, v);
    UnfinishedStaysInStep(m, v);
  }

  /** Sequence `k` consumed its row and goes on. */
  function Spoken(m: Gpt2, s: Snap, k: nat): Snap
    requires k < |s.views|
  {
    var v := s.views[k];
    s.(views := s.views[k := Consumed(m, v)], ledger := s.ledger.(sent := Say(s.ledger.sent, v.id, NewlySafe(m, v))))
  }

  lemma SpeakingKeepsViews(m: Gpt2, limit: nat, s: Snap, k: nat)
    requires ViewsGood(m, limit, s.slab, s.ledger, s.views, k) && PlacesGood(s.ledger, s.queue, s.views, None)
    requires k < |s.views| && s.views[k].state.Running? && Sampled(m, s.views[k]).finishReason.None?
    ensures ViewsGood(m, limit, s.slab, Spoken(m, s, k).ledger, Spoken(m, s, k).views, k + 1)
  {
    var s', v := Spoken(m, s, k), s.views[k];
    OneView(m, limit, s.slab, s.ledger, s.views, k, k);
    SaidOnce(s.ledger.sent, v.id, NewlySafe(m, v));
    ConsumptionContinues(m, s.ledger, v);
    ConsumptionKeepsView(m, limit, s.slab, s.ledger, v);
    forall i | 0 <= i < |s.views| && i != k && !s.views[i].Done()
      ensures ViewGood(m, limit, s.slab, s'.ledger, s.views[i], i >= k + 1)
    {
      OneView(m, limit, s.slab, s.ledger, s.views, k, i);
      assert s.views[i].id != v.id;
    }
  }

  lemma SpeakingKeepsLedger(m: Gpt2, l: Ledger, id: Id, items: seq<StreamItem>)
    requires LedgerGood(m, l) && id in l.accepted && id !in l.ended
    ensures LedgerGood(m, l.(sent := Say(l.sent, id, items)))
  {
    SaidOnce(l.sent, id, items);
  }

  lemma SpeakingKeepsQueue(l: Ledger, queue: seq<GenerationRequest>, id: Id, items: seq<StreamItem>)
    requires QueueGood(l, queue, None) && !Queued(queue, id)
    ensures QueueGood(l.(sent := Say(l.sent, id, items)), queue, None)
  {
    SaidOnce(l.sent, id, items);
    assert forall i :: 0 <= i < |queue| ==> queue[i].id != id;
  }

  lemma SpeakingKeepsPlaces(m: Gpt2, s: Snap, k: nat)
    requires k < |s.views| && SpeechGood(m, s.ledger, s.views[k]) && !s.views[k].Done()
    requires Sampled(m, s.views[k]).finishReason.None?
    requires PlacesGood(s.ledger, s.queue, s.views, None) && NoneLost(s.ledger, s.queue, s.views, None)
    ensures PlacesGood(Spoken(m, s, k).ledger, s.queue, Spoken(m, s, k).views, None)
    ensures NoneLost(Spoken(m, s, k).ledger, s.queue, Spoken(m, s, k).views, None)
    ensures SamePlaces(s.views, Spoken(m, s, k).views)
  {
    ConsumptionContinues(m, s.ledger, s.views[k]);
    EmissionNeverRetracts(m, s.ledger, s.views[k]);
    ReplacementKeepsPlaces(s, k, Consumed(m, s.views[k]));
  }

  /** A delivered update that does not finish the sequence. */
  lemma SpeakingKeepsGood(m: Gpt2, limit: nat, s: Snap, k: nat)
    requires Good(m, limit, s, None, k) && k < |s.views| && s.views[k].state.Running?
    requires Sampled(m, s.views[k]).finishReason.None?
    ensures Good(m, limit, Spoken(m, s, k), None, k + 1)
  {
    hide SlabGood, ViewsGood, NoneLost;
    var v := s.views[k];
    OneView(m, limit, s.slab, s.ledger, s.views, k, k);
    SpeakingKeepsViews(m, limit, s, k);
    SpeakingKeepsLedger(m, s.ledger, v.id, NewlySafe(m, v));
    SpeakingKeepsQueue(s.ledger, s.queue, v.id, NewlySafe(m, v));
    SpeakingKeepsPlaces(m, s, k);
    SamePlacesKeepSlab(m, s.slab, s.views, Spoken(m, s, k).views);
  }

  /** A delivered update with its terminal event. */
  lemma CompletionKeepsGood(m: Gpt2, limit: nat, s: Snap, k: nat)
    requires Good(m, limit, s, None, k) && k < |s.views| && s.views[k].state.Running?
    requires Sampled(m, s.views[k]).finishReason.Some?
    ensures Good(m, limit, EndedView(s, k, Consumed(m, s.views[k]), Completed, NewlySafe(m, s.views[k])), None, k + 1)
  {
    hide SlabGood, ViewsGood, NoneLost, LedgerGood, QueueGood, RowsGood, Fitting, Emitting, OnTrack, LegalHistory;
    var v := s.views[k];
    OneView(m, limit, s.slab, s.ledger, s.views, k, k);
    EmissionNeverRetracts(m, s.ledger, v);
    ConsumptionCompletes(m, s.ledger, v);
    EndViewKeepsGood(m, limit, s, k, k + 1, k, Consumed(m, v), Completed, NewlySafe(m, v));
  }

  // ----- Room in the channel -----

  /** The channel does not hold a whole answer with its terminal event, so a slow consumer may fill it. */
  predicate Cramped(req: GenerationRequest) { Max(1, req.config.maxNewTokens) + 1 > req.channelCapacity }

  /** Everything a sequence ever delivers fits into one slot per token and one for its terminal event. */
  lemma UpdateFits(m: Gpt2, l: Ledger, v: SeqView)
    requires SpeechGood(m, l, v)
    ensures |HistoryOf(l.sent, v.id)| + |NewlySafe(m, v)| <= Max(1, v.config.maxNewTokens) + 1
  {
    BelowBudget(v);
    SampledStaysOnTrack(m, v);
    EmissionNeverRetracts(m, l, v);
  }

  /** The handlers' channel holds the whole output of a request, but at least 2 and at most 32 items. */
  lemma ChannelCapacityMeaning(maxTokens: nat)
    ensures var capacity := ChannelCapacity(maxTokens);
            && (capacity.None? <==> maxTokens + 1 > USIZE_MAX)
            && (capacity.Some? ==> 2 <= capacity.value <= 32)
            && (1 <= maxTokens <= 31 ==> capacity == Some(maxTokens + 1))
            && (maxTokens >= 31 && capacity.Some? ==> capacity.value == 32)
  {
  }

  /** A request of up to 31 tokens gets a channel that can refuse an update only by being closed. */
  lemma SmallRequestsAlwaysFit(m: Gpt2, l: Ledger, v: SeqView, capacity: nat)
    requires SpeechGood(m, l, v) && 0 < v.config.maxNewTokens
             && ChannelCapacity(v.config.maxNewTokens) == Some(capacity)
    ensures v.config.maxNewTokens + 1 <= capacity <==> v.config.maxNewTokens < RESPONSE_CHANNEL_CAPACITY
    ensures v.config.maxNewTokens < RESPONSE_CHANNEL_CAPACITY ==>
              |HistoryOf(l.sent, v.id)| + |NewlySafe(m, v)| <= capacity
  {
    UpdateFits(m, l, v);
  }
}
