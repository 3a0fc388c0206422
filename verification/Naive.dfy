/**
 The solo engine: one request on a cache of its own, without validation. It is the
 executable meaning of a request that continuous batching is measured against.
 */
module Naive {
  import opened Basics
  import opened Transformer
  import opened Sampling
  import opened KvCache
  import opened Sequences
  import opened Gpt2Backend
  import opened Reference
  import opened RequestQueues
  import opened Channels = Clients
  import opened Machine
  import opened Steps
  import opened Consumption

  /** The ledger of a world with one request. */
  function SoloLedger(req: GenerationRequest, sent: map<Id, seq<StreamItem>>): Ledger {
    Ledger(map[req.id := req], map[], 0, sent)
  }

  ghost predicate SoloGood(m: Gpt2, req: GenerationRequest, slab: Slab, sent: map<Id, seq<StreamItem>>, v: SeqView,
                           fed: bool) {
    && SlabOk(slab) && Fits(m, slab) && IsCurrent(slab, v.kvHandle)
    && v.id == req.id && v.kvHandle.capacityTokens == |v.prompt| + v.config.maxNewTokens
    && SpeechGood(m, SoloLedger(req, sent), v) && RowsGood(m, slab, v, fed)
  }

  lemma SoloStarts(m: Gpt2, req: GenerationRequest, slab: Slab, sent: map<Id, seq<StreamItem>>)
    requires SlabOk(slab) && Fits(m, slab) && slab.free != [] && HistoryOf(sent, req.id) == []
    ensures slab.free[0] < |slab.generations| == |slab.issued|
    ensures var promptLen, maxNew := |req.promptTokens|, req.config.maxNewTokens;
            SoloGood(m, req, SlabAllocate(slab, promptLen, maxNew), sent,
                     FreshView(req, NewHandle(slab, promptLen, maxNew)), false)
  {
    var promptLen, maxNew := |req.promptTokens|, req.config.maxNewTokens;
    AllocateKeepsOk(slab, promptLen, maxNew);
    FreshIsEmitting(req, NewHandle(slab, promptLen, maxNew));
    assert TokenItems([]) == [];
  }

  lemma SoloPrefilled(m: Gpt2, req: GenerationRequest, slab: Slab, slab': Slab, sent: map<Id, seq<StreamItem>>,
                      v: SeqView)
    requires SoloGood(m, req, slab, sent, v, false) && v.state.Prefilling? && SlabOk(slab')
    requires OnlyRowsDiffer(slab, slab', {v.kvHandle.slot})
    requires PrefillResult(m, slab, slab', v.kvHandle, CachedPrompt(v.prompt))
    ensures SoloGood(m, req, slab', sent, MarkRunningView(v), false)
  {
    CurrentIsStored(slab, v.kvHandle);
    assert CachedTokens(v.prompt, []) == CachedPrompt(v.prompt);
  }

  lemma SoloRow(m: Gpt2, slab: Slab, slab': Slab, input: DecodeInput, logits: seq<Row>)
    requires SlabOk(slab) && Servable(m, slab, [input])
    requires ForwardResult(m, slab, slab', [input], Ok(logits))
    ensures |logits| == 1 && input.kvHandle.slot in slab'.layers && RowDecoded(m, slab, slab', input, logits[0])
  {
    var batch := [input];
    assert IsCurrent(slab, batch[0].kvHandle);
    CurrentIsStored(slab, input.kvHandle);
    assert RowDecoded(m, slab, slab', batch[0], logits[0]);
  }

  /** The token fed to a decode step completes the cached ones to the whole context. */
  lemma ContextSplits(prompt: seq<Token>, generated: seq<Token>)
    ensures Context(prompt, generated) == CachedTokens(prompt, generated) + [LastTokenOf(prompt, generated)]
    ensures PositionOf(prompt, generated) < USIZE_MAX ==>
              |CachedTokens(prompt, generated)| == PositionOf(prompt, generated)
  {
  }

  lemma SoloFed(m: Gpt2, req: GenerationRequest, slab: Slab, slab': Slab, sent: map<Id, seq<StreamItem>>, v: SeqView,
                logits: seq<Row>)
    requires SoloGood(m, req, slab, sent, v, false) && v.state.Running? && SlabOk(slab') && m.maxPositions <= USIZE_MAX
    requires ForwardResult(m, slab, slab', [InputOf(v)], Ok(logits)) && InputOf(v).position < m.maxPositions
    ensures SoloGood(m, req, slab', sent, v, true)
    ensures |logits| == 1 && logits[0] == FullLogits(m, Context(v.prompt, v.generated))
  {
    hide SpeechGood, SlabOk;
    SoloFits(m, req, slab, sent, v);
    SoloRow(m, slab, slab', InputOf(v), logits);
    ContextSplits(v.prompt, v.generated);
    CachedDecodeIsFullForward(m, Rows(slab, v.kvHandle.slot), CachedTokens(v.prompt, v.generated),
                              LastTokenOf(v.prompt, v.generated));
  }

  lemma SoloSpoke(m: Gpt2, req: GenerationRequest, slab: Slab, sent: map<Id, seq<StreamItem>>, v: SeqView)
    requires SoloGood(m, req, slab, sent, v, true) && v.state.Running? && Sampled(m, v).finishReason.None?
    ensures SoloGood(m, req, slab, Say(sent, v.id, NewlySafe(m, v)), Consumed(m, v), false)
    ensures |Consumed(m, v).generated| == |v.generated| + 1
  {
    hide RowsGood, SlabOk;
    ConsumptionContinues(m, SoloLedger(req, sent), v);
    EmissionNeverRetracts(m, SoloLedger(req, sent), v);
    ConsumptionKeepsRows(m, slab, v);
    var sent' := Say(sent, v.id, NewlySafe(m, v));
    assert SoloLedger(req, sent).(sent := sent') == SoloLedger(req, sent');
  }

  /** Broken off here, the history is legal, whether or not the error still fits into the channel. */
  lemma SoloBroken(m: Gpt2, req: GenerationRequest, slab: Slab, sent: map<Id, seq<StreamItem>>, v: SeqView, fed: bool,
                   cause: Cause, told: bool)
    requires SoloGood(m, req, slab, sent, v, fed) && !cause.Completed?
    ensures LegalHistory(m, req, cause, HistoryOf(sent, req.id) + Closing(cause, told))
  {
    BrokenHistory(m, SoloLedger(req, sent), v, cause, told);
    assert LegalHistory(m, req, cause, HistoryOf(sent, req.id) + Closing(cause, told)) by {
      var tokens := Answer(m, req.promptTokens, req.config).tokens;
      var answer := Answer(m, SoloLedger(req, sent).accepted[v.id].promptTokens, req.config);
    }
  }

  lemma SoloCompleted(m: Gpt2, req: GenerationRequest, slab: Slab, sent: map<Id, seq<StreamItem>>, v: SeqView)
    requires SoloGood(m, req, slab, sent, v, true) && Sampled(m, v).finishReason.Some?
    ensures LegalHistory(m, req, Completed, HistoryOf(Say(sent, v.id, NewlySafe(m, v)), req.id))
  {
    ConsumptionCompletes(m, SoloLedger(req, sent), v);
    SaidOnce(sent, v.id, NewlySafe(m, v));
  }

  /** The history is legal for `cause`; an error item may still follow where the cause has one. */
  ghost predicate SoloLegal(m: Gpt2, req: GenerationRequest, cause: Cause, sent: map<Id, seq<StreamItem>>) {
    if cause.Completed? then LegalHistory(m, req, cause, HistoryOf(sent, req.id))
    else forall told :: LegalHistory(m, req, cause, HistoryOf(sent, req.id) + Closing(cause, told))
  }

  lemma SoloSilent(m: Gpt2, req: GenerationRequest, sent: map<Id, seq<StreamItem>>, cause: Cause)
    requires HistoryOf(sent, req.id) == [] && !cause.Completed?
    ensures SoloLegal(m, req, cause, sent)
  {
    forall told ensures LegalHistory(m, req, cause, HistoryOf(sent, req.id) + Closing(cause, told)) {
      SilentHistory(m, SoloLedger(req, sent), req, cause, told);
    }
  }

  lemma SoloCut(m: Gpt2, req: GenerationRequest, slab: Slab, sent: map<Id, seq<StreamItem>>, v: SeqView, fed: bool,
                cause: Cause)
    requires SoloGood(m, req, slab, sent, v, fed) && !cause.Completed?
    ensures SoloLegal(m, req, cause, sent)
  {
    forall told ensures LegalHistory(m, req, cause, HistoryOf(sent, req.id) + Closing(cause, told)) {
      SoloBroken(m, req, slab, sent, v, fed, cause, told);
    }
  }

  // ----- The engine -----

  /**
   The model has a position for every token that is fed, and the cache room for one: the last
   generated token is never fed. The solo engine does not check this beforehand.
   */
  predicate FitsModel(m: Gpt2, req: GenerationRequest) {
    && |EffectivePrompt(req.promptTokens)| + GenerationLength(m, req.promptTokens, req.config) <= m.maxPositions + 1
    && (m.blocks == [] || 0 < |req.promptTokens| + req.config.maxNewTokens)
  }

  /** The same for a generation that runs to its budget: what a caller can check beforehand. */
  predicate RoomFor(m: Gpt2, req: GenerationRequest) {
    && |EffectivePrompt(req.promptTokens)| + Max(1, req.config.maxNewTokens) <= m.maxPositions + 1
    && (m.blocks == [] || 0 < |req.promptTokens| + req.config.maxNewTokens)
  }

  /** The check beforehand is enough, and exact for every generation that uses its whole budget. */
  lemma RoomForFits(m: Gpt2, req: GenerationRequest)
    ensures RoomFor(m, req) ==> FitsModel(m, req)
    ensures GenerationLength(m, req.promptTokens, req.config) == Max(1, req.config.maxNewTokens) ==>
              (FitsModel(m, req) <==> RoomFor(m, req))
    ensures FitsModel(m, req) ==> |req.promptTokens| <= m.maxPositions
    ensures req.promptTokens != [] && 0 < req.config.maxNewTokens ==>
              (RoomFor(m, req) <==> |req.promptTokens| + req.config.maxNewTokens <= m.maxPositions + 1)
  {
  }

  /** One of the reasons to stop that are looked for between two steps, and it holds. */
  predicate StopSeen(id: Id, cause: Cause, f: Flags) {
    match cause
    case Interrupted => f.shutdown
    case ResponseDone => id in f.done
    case Disconnected => id in f.closed
    case _ => false
  }

  /** What a cause claims about the clients, the shutdown, the kernels and the request is so. */
  predicate CauseSeen(m: Gpt2, req: GenerationRequest, cause: Cause, f: Flags, hit: set<Id>) {
    match cause
    case Completed => FitsModel(m, req)
    case Undelivered => |req.promptTokens| <= m.maxPositions && (req.id in f.closed || Cramped(req))
    case NotAdmitted => |req.promptTokens| + req.config.maxNewTokens > USIZE_MAX
    case PrefillFault => req.id in hit || |req.promptTokens| > m.maxPositions
    case DecodeFault => |req.promptTokens| <= m.maxPositions && (req.id in hit || !FitsModel(m, req))
    case _ => StopSeen(req.id, cause, f)
  }

  /** The slot is the request's own, and large enough for its prompt. */
  lemma SoloFits(m: Gpt2, req: GenerationRequest, slab: Slab, sent: map<Id, seq<StreamItem>>, v: SeqView)
    requires SoloGood(m, req, slab, sent, v, false)
    ensures Fits(m, slab) && IsCurrent(slab, v.kvHandle) && v.id == req.id && v.channelCapacity == req.channelCapacity
    ensures v.prompt == req.promptTokens && |v.prompt| <= v.kvHandle.capacityTokens
    ensures Servable(m, slab, [InputOf(v)])
  {
    hide RowsGood, Emitting, OnTrack, SlabOk;
  }

  /** The next decode step finds a position in the model and room in the cache. */
  predicate StepFits(m: Gpt2, v: SeqView) {
    && PositionOf(v.prompt, v.generated) < m.maxPositions
    && (m.blocks == [] || 0 < |v.prompt| + v.config.maxNewTokens)
  }

  /** That is exactly when a decode step can be stopped by nothing but a kernel. */
  lemma SoloHasHeadroom(m: Gpt2, req: GenerationRequest, slab: Slab, sent: map<Id, seq<StreamItem>>, v: SeqView)
    requires SoloGood(m, req, slab, sent, v, false) && v.state.Running? && m.maxPositions <= USIZE_MAX
    ensures HasHeadroom(m, slab, [InputOf(v)]) <==> StepFits(m, v)
  {
    hide SlabOk, OnTrack;
    var batch := [InputOf(v)];
    BelowBudget(v);
    ContextSplits(v.prompt, v.generated);
    CurrentIsStored(slab, v.kvHandle);
    assert HasHeadroom(m, slab, batch) <==> RowHasHeadroom(m, slab, batch[0]);
    if m.blocks != [] {
      assert |Rows(slab, v.kvHandle.slot)[0].k| == |CachedTokens(v.prompt, v.generated)|;
    }
  }

  /** Every step of a request that fits does, and so does the one that finishes only if the request fits. */
  lemma StepsOfFitting(m: Gpt2, req: GenerationRequest, slab: Slab, sent: map<Id, seq<StreamItem>>, v: SeqView,
                       fed: bool)
    requires SoloGood(m, req, slab, sent, v, fed) && m.maxPositions <= USIZE_MAX
    ensures FitsModel(m, req) ==> StepFits(m, v)
    ensures Sampled(m, v).finishReason.Some? && StepFits(m, v) ==> FitsModel(m, req)
  {
    hide SlabOk, RowsGood, Sampled, GenerationLength, Fits, IsCurrent;
    LengthIsAhead(m, v);
  }

  /** A refused update means a closed channel, or one too small for the whole answer. */
  lemma SoloRefused(m: Gpt2, req: GenerationRequest, slab: Slab, sent: map<Id, seq<StreamItem>>, v: SeqView)
    requires SoloGood(m, req, slab, sent, v, true)
    ensures v.id == req.id && v.channelCapacity == req.channelCapacity
    ensures |HistoryOf(sent, v.id)| + |NewlySafe(m, v)| > v.channelCapacity ==> Cramped(req)
  {
    UpdateFits(m, SoloLedger(req, sent), v);
  }

  /** Shutdown, a response that needs no more tokens, and where `watch` is set a closed channel. */
  method Checkpoint(req: GenerationRequest, watch: bool, clients: Channels.Clients, metrics: Metrics)
    returns (stop: Option<Cause>)
    modifies clients`closed, clients`done, clients`shutdown, clients`taken, metrics`cancelled
    ensures stop in {None, Some(Interrupted), Some(ResponseDone), Some(Disconnected)}
    ensures stop.Some? ==> StopSeen(req.id, stop.value, clients.FlagsNow())
    ensures stop.None? ==> !old(clients.shutdown) && req.id !in old(clients.done)
    ensures stop.None? && watch ==> req.id !in old(clients.closed)
    ensures stop == Some(ResponseDone) ==> !old(clients.shutdown)
    ensures stop == Some(Disconnected) ==> watch && !old(clients.shutdown) && req.id !in old(clients.done)
    ensures Grown(old(clients.FlagsNow()), clients.FlagsNow())
    ensures metrics.cancelled == old(metrics.cancelled) + if stop == Some(Disconnected) then 1 else 0
  {
    var shutdown := clients.ShutdownIsCancelled();
    if shutdown {
      return Some(Interrupted);
    }
    var done := clients.ResponseIsDone(req.id);
    if done {
      return Some(ResponseDone);
    }
    if watch {
      var closed := clients.SenderIsClosed(req.id);
      if closed {
        metrics.RecordCancelled();
        return Some(Disconnected);
      }
    }
    return None;
  }

  ghost predicate InStep(m: Gpt2, req: GenerationRequest, s: Sequence, cache: SlabKvCache, clients: Channels.Clients,
                         fed: bool)
    reads s, s.sampler, cache, clients`sent
  {
    s.sampler.exp == m.exp && cache.Valid() && SoloGood(m, req, cache.View(), clients.sent, s.View(), fed)
  }

  function CountOf(end: Option<Cause>): nat { if end.Some? && Counted(end.value) then 1 else 0 }

  lemma SoloPlace(m: Gpt2, req: GenerationRequest, slab: Slab, sent: map<Id, seq<StreamItem>>, v: SeqView, fed: bool)
    requires SoloGood(m, req, slab, sent, v, fed)
    ensures var w := Sampled(m, v); v.emitted == w.emitted <= SafeEnd(w) <= |w.generated|
    ensures SamePlace(v, Consumed(m, v)) && v.id == req.id
    ensures Sampled(m, v).finishReason.None? ==> Sampled(m, v).state == v.state
    ensures |v.generated| < Max(1, req.config.maxNewTokens)
  {
    EmissionNeverRetracts(m, SoloLedger(req, sent), v);
    if Sampled(m, v).finishReason.None? {
      UnfinishedStaysInStep(m, v);
    }
    BelowBudget(v);
  }

  /** Sample from the row and deliver. */
  method Speak(m: Gpt2, req: GenerationRequest, s: Sequence, row: Row, cache: SlabKvCache, device: Device,
               clients: Channels.Clients, metrics: Metrics)
    returns (end: Option<Cause>)
    requires InStep(m, req, s, cache, clients, true) && s.state == Running
    requires row == FullLogits(m, Context(s.View().prompt, s.View().generated))
    requires StepFits(m, s.View()) && |req.promptTokens| <= m.maxPositions <= USIZE_MAX
    modifies s, s.sampler, clients, metrics`cancelled
    ensures end.None? ==> InStep(m, req, s, cache, clients, false) && s.state == Running
    ensures end.None? ==> |s.generatedTokens| == |old(s.generatedTokens)| + 1
    ensures cache.Valid() && end != Some(NotAdmitted)
    ensures end.Some? ==> SoloLegal(m, req, end.value, clients.sent)
    ensures end.Some? ==> CauseSeen(m, req, end.value, clients.FlagsNow(), device.faults.hit)
    ensures metrics.cancelled == old(metrics.cancelled) + CountOf(end)
  {
    hide SoloGood, SoloLegal, Sampled, NewlySafe, SlabOk, FitsModel, StepFits, FullLogits, Context, Cramped;
    ghost var v, slab := s.View(), cache.View();
    SoloPlace(m, req, slab, clients.sent, v, true);
    StepsOfFitting(m, req, slab, clients.sent, v, true);
    var tokens, reason := NextTokens(m, s, row);
    var delivered := clients.TrySendTokens(s.id, s.channelCapacity, tokens, reason);
    if !delivered {
      SoloRefused(m, req, slab, old(clients.sent), v);
      SoloCut(m, req, slab, clients.sent, v, true, Undelivered);
      s.Cancel();
      metrics.RecordCancelled();
      return Some(Undelivered);
    }
    if reason.Some? {
      SoloCompleted(m, req, slab, old(clients.sent), v);
      CompletionIsLegal(m, req, clients.sent);
      return Some(Completed);
    }
    SoloSpoke(m, req, slab, old(clients.sent), v);
    return None;
  }

  lemma CompletionIsLegal(m: Gpt2, req: GenerationRequest, sent: map<Id, seq<StreamItem>>)
    requires LegalHistory(m, req, Completed, HistoryOf(sent, req.id))
    ensures SoloLegal(m, req, Completed, sent)
  {
  }

  /** Rows that were written had room. */
  lemma FedHasRoom(m: Gpt2, req: GenerationRequest, slab: Slab, sent: map<Id, seq<StreamItem>>, v: SeqView)
    requires SoloGood(m, req, slab, sent, v, true) && v.state.Running?
    ensures m.blocks == [] || 0 < |v.prompt| + v.config.maxNewTokens
  {
    if m.blocks != [] {
      CurrentIsStored(slab, v.kvHandle);
      RowWithinCapacity(slab, v.kvHandle, 0);
    }
  }

  lemma RowWithinCapacity(slab: Slab, h: KvHandle, l: nat)
    requires SlabOk(slab) && IsCurrent(slab, h) && h.slot in slab.layers && l < |Rows(slab, h.slot)|
    ensures |Rows(slab, h.slot)[l].k| <= h.capacityTokens
  {
    assert SlotOk(slab, h.slot);
    if slab.layers[h.slot][l].Some? {
      assert PairFits(slab, slab.layers[h.slot][l].value, slab.occupied[h.slot].capacityTokens);
    }
  }

  /** One forward pass for the one sequence. */
  method Feed(m: Gpt2, req: GenerationRequest, s: Sequence, cache: SlabKvCache, device: Device,
              clients: Channels.Clients)
    returns (r: Result<Row, ModelError>)
    requires InStep(m, req, s, cache, clients, false) && s.state == Running
    requires |req.promptTokens| <= m.maxPositions <= USIZE_MAX
    modifies cache, device
    ensures cache.Valid()
    ensures r.Ok? ==> InStep(m, req, s, cache, clients, true)
                      && r.value == FullLogits(m, Context(s.View().prompt, s.View().generated))
    ensures r.Ok? ==> StepFits(m, s.View())
    ensures r.Err? ==> SoloLegal(m, req, DecodeFault, clients.sent)
    ensures r.Err? ==> CauseSeen(m, req, DecodeFault, clients.FlagsNow(), device.faults.hit)
  {
    hide SoloGood, SoloLegal, SlabOk, RowwiseDecoded, Servable, HasHeadroom, FullLogits, Context, FitsModel;
    ghost var v, slab := s.View(), cache.View();
    SoloFits(m, req, slab, clients.sent, v);
    SoloHasHeadroom(m, req, slab, clients.sent, v);
    StepsOfFitting(m, req, slab, clients.sent, v, false);
    var batch := [DecodeInput(s.id, s.kvHandle, s.LastToken(), s.DecodePosition())];
    var logits := Gpt2Backend.Forward(m, batch, cache, device);
    if logits.Err? {
      SoloCut(m, req, slab, clients.sent, v, false, DecodeFault);
      return Err(logits.error);
    }
    assert batch == [InputOf(v)] && batch[0].position < m.maxPositions;
    SoloFed(m, req, slab, cache.View(), clients.sent, v, logits.value);
    FedHasRoom(m, req, cache.View(), clients.sent, v);
    return Ok(logits.value[0]);
  }

  /** One turn of the decode loop. */
  method Turn(m: Gpt2, req: GenerationRequest, s: Sequence, cache: SlabKvCache, device: Device,
              clients: Channels.Clients, metrics: Metrics)
    returns (end: Option<Cause>)
    requires InStep(m, req, s, cache, clients, false) && s.state == Running
    requires |req.promptTokens| <= m.maxPositions <= USIZE_MAX
    modifies s, s.sampler, cache, device, clients, metrics`cancelled
    ensures end.None? ==> InStep(m, req, s, cache, clients, false) && s.state == Running
    ensures end.None? ==> |s.generatedTokens| == |old(s.generatedTokens)| + 1
    ensures cache.Valid() && end != Some(NotAdmitted)
    ensures end.Some? ==> SoloLegal(m, req, end.value, clients.sent)
    ensures end.Some? ==> CauseSeen(m, req, end.value, clients.FlagsNow(), device.faults.hit)
    ensures metrics.cancelled == old(metrics.cancelled) + CountOf(end)
    ensures end.None? ==> !old(clients.shutdown) && req.id !in old(clients.done) && req.id !in old(clients.closed)
  {
    hide SoloGood, SoloLegal, SlabOk, FullLogits, Context, CancelView, FitsModel, StepFits;
    ghost var v := s.View();
    end := Checkpoint(req, true, clients, metrics);
    if end.Some? {
      SoloCut(m, req, cache.View(), clients.sent, v, false, end.value);
      if end.value != Interrupted {
        s.Cancel();
      }
      return;
    }
    var row := Feed(m, req, s, cache, device, clients);
    if row.Err? {
      return Some(DecodeFault);
    }
    end := Checkpoint(req, false, clients, metrics);
    if end.Some? {
      SoloCut(m, req, cache.View(), clients.sent, v, true, end.value);
      if end.value != Interrupted {
        s.Cancel();
      }
      return;
    }
    end := Speak(m, req, s, row.value, cache, device, clients, metrics);
  }

  /** Decode until the sequence is done. */
  method Decode(m: Gpt2, req: GenerationRequest, s: Sequence, cache: SlabKvCache, device: Device,
                clients: Channels.Clients, metrics: Metrics)
    returns (cause: Cause)
    requires InStep(m, req, s, cache, clients, false) && s.state == Running
    requires |req.promptTokens| <= m.maxPositions <= USIZE_MAX
    modifies s, s.sampler, cache, device, clients, metrics`cancelled
    ensures SoloLegal(m, req, cause, clients.sent) && cache.Valid() && cause != NotAdmitted
    ensures CauseSeen(m, req, cause, clients.FlagsNow(), device.faults.hit)
    ensures metrics.cancelled == old(metrics.cancelled) + CountOf(Some(cause))
  {
    hide SoloGood, SoloLegal, SlabOk, FitsModel;
    var end: Option<Cause> := None;
    while end.None?
      invariant end.None? ==> InStep(m, req, s, cache, clients, false) && s.state == Running
      invariant cache.Valid() && end != Some(NotAdmitted)
      invariant end.Some? ==> SoloLegal(m, req, end.value, clients.sent)
      invariant end.Some? ==> CauseSeen(m, req, end.value, clients.FlagsNow(), device.faults.hit)
      invariant metrics.cancelled == old(metrics.cancelled) + CountOf(end)
      decreases if end.None? then 1 + Max(1, req.config.maxNewTokens) - |s.generatedTokens| else 0
    {
      SoloPlace(m, req, cache.View(), clients.sent, s.View(), false);
      end := Turn(m, req, s, cache, device, clients, metrics);
    }
    cause := end.value;
  }

  /** Prefill and decode one admitted sequence. */
  method Start(m: Gpt2, req: GenerationRequest, s: Sequence, cache: SlabKvCache, device: Device,
               clients: Channels.Clients, metrics: Metrics)
    returns (cause: Cause)
    requires InStep(m, req, s, cache, clients, false) && s.state == Prefilling && m.maxPositions <= USIZE_MAX
    modifies s, s.sampler, cache, device, clients, metrics`cancelled
    ensures SoloLegal(m, req, cause, clients.sent) && cache.Valid() && cause != NotAdmitted
    ensures CauseSeen(m, req, cause, clients.FlagsNow(), device.faults.hit)
    ensures metrics.cancelled == old(metrics.cancelled) + CountOf(Some(cause))
  {
    hide SoloGood, SoloLegal, SlabOk, PrefillResult, OnlyRowsDiffer, Fits, IsCurrent, CachedPrompt, FitsModel;
    ghost var v, slab := s.View(), cache.View();
    SoloFits(m, req, slab, clients.sent, v);
    var stop := Checkpoint(req, false, clients, metrics);
    if stop.Some? {
      SoloCut(m, req, slab, clients.sent, v, false, stop.value);
      return stop.value;
    }
    var error := Gpt2Backend.Prefill(m, s.promptTokens, s.kvHandle, cache, device, s.id);
    if error.Some? {
      SoloCut(m, req, slab, clients.sent, v, false, PrefillFault);
      return PrefillFault;
    }
    SoloPrefilled(m, req, slab, cache.View(), clients.sent, v);
    stop := Checkpoint(req, false, clients, metrics);
    if stop.Some? {
      SoloCut(m, req, cache.View(), clients.sent, MarkRunningView(v), false, stop.value);
      return stop.value;
    }
    s.MarkRunning();
    cause := Decode(m, req, s, cache, device, clients, metrics);
  }

  /** Run one request from start to end on a fresh cache of one slot. */
  method RunNaiveRequest(m: Gpt2, req: GenerationRequest, device: Device, clients: Channels.Clients, metrics: Metrics)
    returns (cause: Cause)
    requires HistoryOf(clients.sent, req.id) == [] && m.maxPositions <= USIZE_MAX
    modifies device, clients, metrics`cancelled
    ensures SoloLegal(m, req, cause, clients.sent) && CauseSeen(m, req, cause, clients.FlagsNow(), device.faults.hit)
    ensures metrics.cancelled == old(metrics.cancelled) + CountOf(Some(cause))
    ensures old(clients.shutdown) ==> cause.Interrupted?
    ensures req.id in old(clients.done) ==> cause.Interrupted? || cause.ResponseDone?
    ensures req.id in old(clients.closed) ==> cause.Interrupted? || cause.ResponseDone? || cause.Disconnected?
    ensures old(clients.shutdown) || req.id in old(clients.done) + old(clients.closed) ==>
              clients.sent == old(clients.sent)
  {
    hide SoloGood, SoloLegal, SlabOk, FitsModel;
    // Before the model is asked for, while waiting for it, and once it is owned.
    var stop: Option<Cause> := None;
    for round := 0 to 3
      invariant stop.None? && clients.sent == old(clients.sent) && metrics.cancelled == old(metrics.cancelled)
      invariant Grown(old(clients.FlagsNow()), clients.FlagsNow())
      invariant round > 0 ==>
                  !old(clients.shutdown) && req.id !in old(clients.done) && req.id !in old(clients.closed)
    {
      stop := Checkpoint(req, true, clients, metrics);
      if stop.Some? {
        SoloSilent(m, req, clients.sent, stop.value);
        return stop.value;
      }
    }
    var maxSeqLen := Max(SaturatingAdd(|req.promptTokens|, req.config.maxNewTokens), 1);
    var cache := new SlabKvCache(1, maxSeqLen, |m.blocks|, m.heads, m.headDim);
    ghost var slab := cache.View();
    SoloSlab(m, maxSeqLen);
    var admitted := Sequence.New(req, m.exp, cache);
    if admitted.Err? {
      SoloSilent(m, req, clients.sent, NotAdmitted);
      return NotAdmitted;
    }
    var s := admitted.value;
    SoloStarts(m, req, slab, clients.sent);
    cause := Start(m, req, s, cache, device, clients, metrics);
    cache.Free(s.kvHandle);
  }

  lemma SoloSlab(m: Gpt2, maxSeqLen: nat)
    ensures var slab := InitialSlab(1, maxSeqLen, |m.blocks|, m.heads, m.headDim);
            SlabOk(slab) && Fits(m, slab) && slab.free != [] && slab.maxSeqLen == maxSeqLen
  {
    InitialSlabOk(1, maxSeqLen, |m.blocks|, m.heads, m.headDim);
  }

  /** A client whose request ended with an error was told which, or could not be. */
  predicate Explained(req: GenerationRequest, cause: Cause, h: seq<StreamItem>, f: Flags) {
    var closed, capacity := req.id in f.closed, req.channelCapacity;
    match cause
    case NotAdmitted => Told(h, AdmitFailed, closed, capacity)
    case PrefillFault => Told(h, PrefillFailed, closed, capacity)
    case DecodeFault => Told(h, DecodeFailed, closed, capacity)
    case Interrupted => Told(h, ShuttingDown, closed, capacity)
    case _ => true
  }

  /** The spawned task: run the request and report an error if there was one. */
  method Serve(m: Gpt2, req: GenerationRequest, device: Device, clients: Channels.Clients, metrics: Metrics)
    returns (cause: Cause)
    requires HistoryOf(clients.sent, req.id) == [] && m.maxPositions <= USIZE_MAX
    modifies device, clients, metrics`cancelled
    ensures LegalHistory(m, req, cause, HistoryOf(clients.sent, req.id))
            && CauseSeen(m, req, cause, clients.FlagsNow(), device.faults.hit)
    ensures Explained(req, cause, HistoryOf(clients.sent, req.id), clients.FlagsNow())
    ensures old(clients.shutdown) ==> cause.Interrupted?
    ensures req.id in old(clients.done) ==> cause.Interrupted? || cause.ResponseDone?
    ensures req.id in old(clients.closed) ==> cause.Interrupted? || cause.ResponseDone? || cause.Disconnected?
    ensures metrics.cancelled == old(metrics.cancelled) + CountOf(Some(cause))
  {
    hide LegalHistory, FitsModel;
    cause := RunNaiveRequest(m, req, device, clients, metrics);
    ghost var sent := clients.sent;
    var told := false;
    var error := ErrorOf(cause);
    if error != [] {
      told := clients.TrySendError(req.id, req.channelCapacity, error[0].kind);
    }
    assert ErrorOf(cause) != [] ==> ErrorOf(cause) == [ErrorItem(ErrorOf(cause)[0].kind)];
    SaidOnce(sent, req.id, Closing(cause, told));
    assert HistoryOf(sent, req.id) + [] == HistoryOf(sent, req.id);
  }

  // ----- Which requests the model can serve -----

  /** A request with room in its channel that neither its client nor a kernel nor a shutdown disturbs. */
  predicate LeftAlone(req: GenerationRequest, f: Flags, hit: set<Id>) {
    && !f.shutdown && req.id !in f.closed && req.id !in f.done && req.id !in hit && !Cramped(req)
    && |req.promptTokens| + req.config.maxNewTokens <= USIZE_MAX
  }

  /**
   Left alone, a solo run completes exactly when the request fits the model. Otherwise prefill
   refuses the prompt, or decoding runs out of positions, with no kernel at fault.
   */
  lemma SoloOutcome(m: Gpt2, req: GenerationRequest, cause: Cause, f: Flags, hit: set<Id>)
    requires CauseSeen(m, req, cause, f, hit) && LeftAlone(req, f, hit)
    ensures cause.Completed? <==> FitsModel(m, req)
    ensures cause.PrefillFault? <==> |req.promptTokens| > m.maxPositions
    ensures cause.DecodeFault? <==> |req.promptTokens| <= m.maxPositions && !FitsModel(m, req)
  {
    hide GenerationLength;
    RoomForFits(m, req);
  }

  /** A model without layers whose largest logit is always that of token 0. */
  function TinyModel(positions: nat): Gpt2 {
    Gpt2(_ => [], _ => [], [], row => row, _ => [1.0, 0.0], 1, 1, 1.0, x => x, positions)
  }

  /** One prompt token, a budget of two, and an EOS token that is never sampled. */
  function TwoTokens(id: Id): GenerationRequest {
    GenerationRequest(id, [0], SamplerConfig(0.0, 1.0, None, [], 2, 1, 0), 0, 3)
  }

  /** A model of one position cannot serve it; a model of two can, though the request has three tokens in all. */
  lemma SmallestMisfit(positions: nat, id: Id)
    ensures FitsModel(TinyModel(positions), TwoTokens(id)) <==> 2 <= positions
    ensures |TwoTokens(id).promptTokens| == 1 && TwoTokens(id).config.maxNewTokens == 2
  {
    hide FullLogits;
    var m, req := TinyModel(positions), TwoTokens(id);
    var first := Generate(m, req.promptTokens, req.config, 1).0;
    TinyLogits(positions, Context(req.promptTokens, []));
    assert first == [0];
    var tokens := Generate(m, req.promptTokens, req.config, 2).0;
    assert tokens[..1] == [0];
    assert EndingAt(req.config, [0]).None?;
  }

  lemma TinyLogits(positions: nat, tokens: seq<Token>)
    requires tokens != []
    ensures ArgMax(FullLogits(TinyModel(positions), tokens)) == 0
  {
  }

  // ----- Batched against solo -----

  /** The tokens a client received. */
  function TokensOf(h: seq<StreamItem>): seq<Token> {
    if h == [] then []
    else (if h[0].TokenItem? then [h[0].token] else []) + TokensOf(h[1..])
  }

  lemma {:induction false} TokensOfItems(tokens: seq<Token>, tail: seq<StreamItem>)
    requires forall i :: 0 <= i < |tail| ==> !tail[i].TokenItem?
    ensures TokensOf(TokenItems(tokens) + tail) == tokens
    decreases |tokens|, |tail|
  {
    var h := TokenItems(tokens) + tail;
    if tokens != [] {
      assert h[1..] == TokenItems(tokens[1..]) + tail;
      TokensOfItems(tokens[1..], tail);
    } else if tail != [] {
      assert h == tail && TokenItems([]) + tail[1..] == tail[1..];
      TokensOfItems([], tail[1..]);
    }
  }

  lemma ReceivedBeginsAnswer(m: Gpt2, req: GenerationRequest, cause: Cause, h: seq<StreamItem>)
    requires LegalHistory(m, req, cause, h)
    ensures var answer := Answer(m, req.promptTokens, req.config);
            TokensOf(h) <= answer.tokens && (cause.Completed? ==> TokensOf(h) == answer.tokens)
  {
    var answer := Answer(m, req.promptTokens, req.config);
    if cause.Completed? {
      TokensOfItems(answer.tokens, [FinishedItem(answer.reason)]);
    } else {
      var n: nat, told :| BrokenAt(answer.tokens, cause, h, n, told);
      TokensOfItems(answer.tokens[..n], Closing(cause, told));
    }
  }

  /**
   Whatever its neighbours, the timing and the faults, a request's tokens under continuous
   batching begin the tokens of a completed solo run, and both complete histories are equal.
   */
  lemma BatchedRefinesSolo(m: Gpt2, req: GenerationRequest, batched: Cause, h: seq<StreamItem>, solo: seq<StreamItem>)
    requires LegalHistory(m, req, batched, h) && LegalHistory(m, req, Completed, solo)
    ensures TokensOf(h) <= TokensOf(solo)
    ensures batched.Completed? ==> h == solo
  {
    ReceivedBeginsAnswer(m, req, batched, h);
    ReceivedBeginsAnswer(m, req, Completed, solo);
  }
}
