/** Continuous batching: admission, prefill, batched decoding, reaping and shutdown. */
module Schedulers {
  import opened Basics
  import opened Transformer
  import opened KvCache
  import opened Sampling
  import opened Sequences
  import opened Gpt2Backend
  import opened Reference
  import opened RequestQueues
  import opened Channels = Clients
  import opened Machine
  import opened Steps
  import opened Pacing
  import opened Consumption
  import opened Invariants
  import opened Chronicle
  import opened Soundness

  datatype SchedulerConfig = SchedulerConfig(maxRunningSeqs: nat, maxNewTokens: nat, maxSeqLen: nat)

  /** Separate objects, so that each sequence is advanced on its own. */
  ghost predicate Apart(owners: seq<Sequence>, exp: real -> real) {
    && (forall i, j :: 0 <= i < j < |owners| ==> owners[i] != owners[j] && owners[i].sampler != owners[j].sampler)
    && (forall i :: 0 <= i < |owners| ==> owners[i].sampler.exp == exp)
  }

  ghost function Objects(owners: seq<Sequence>): (r: set<object>)
    ensures forall o :: o in r ==> o is Sequence || o is Sampler
  {
    (set i | 0 <= i < |owners| :: owners[i] as object) + (set i | 0 <= i < |owners| :: owners[i].sampler as object)
  }

  ghost function ViewsOf(owners: seq<Sequence>): (views: seq<SeqView>)
    reads Objects(owners)
    ensures |views| == |owners| && forall i :: 0 <= i < |owners| ==> views[i] == owners[i].View()
  {
    seq(|owners|, i requires 0 <= i < |owners| reads Objects(owners) => owners[i].View())
  }

  twostate lemma OneChanged(owners: seq<Sequence>, new k: nat)
    requires k < |owners| && forall i :: 0 <= i < |owners| && i != k ==> owners[i].View() == old(owners[i].View())
    ensures ViewsOf(owners) == old(ViewsOf(owners))[k := owners[k].View()]
  {
  }

  twostate lemma NoneChanged(owners: seq<Sequence>)
    requires forall i :: 0 <= i < |owners| ==> owners[i].View() == old(owners[i].View())
    ensures ViewsOf(owners) == old(ViewsOf(owners))
  {
  }

  lemma Removed(owners: seq<Sequence>, k: nat, exp: real -> real)
    requires k < |owners| && Apart(owners, exp)
    ensures ViewsOf(RemoveAt(owners, k)) == RemoveAt(ViewsOf(owners), k)
    ensures Apart(RemoveAt(owners, k), exp)
  {
  }

  lemma LiveOfNone(queue: seq<GenerationRequest>, gone: seq<bool>)
    requires |gone| == |queue|
    ensures queue == [] ==> Live(queue, gone) == []
  {
  }

  lemma CancelledPlace(v: SeqView)
    ensures CancelView(v).Done() && SamePlace(v, CancelView(v))
    ensures !v.Done() ==> CancelView(v).state == Cancelled
  {
  }

  /** Whatever is pending now was pending before, or came no earlier than `clock`. */
  ghost predicate JoinedSince(queue: seq<GenerationRequest>, queue': seq<GenerationRequest>, clock: nat) {
    forall x :: x in queue' ==> x in queue || clock <= x.id
  }

  lemma JoinedLater(queue: seq<GenerationRequest>, clock: nat, before: nat, r: Record)
    requires JoinedSince([], queue, clock) && before <= clock && r.clock <= clock
    ensures JoinedSince([], queue, before) && NewSince(r, queue)
  {
  }

  /** Pruning adds nothing, and a new request is numbered by the clock. */
  lemma OnlyOneJoins(queue: seq<GenerationRequest>, gone: seq<bool>, req: GenerationRequest)
    requires |gone| == |queue|
    ensures JoinedSince(queue, Live(queue, gone), req.id) && JoinedSince(queue, Live(queue, gone) + [req], req.id)
  {
    LiveIsWithin(queue, gone);
  }

  /** One token more, or none because the client has gone or needs no more. */
  predicate Advanced(v: SeqView, v': SeqView, f: Flags) {
    && (v'.state.Running? || v'.Done())
    && (|v'.generated| == |v.generated| + 1
        || (v'.Done() && v'.generated == v.generated && (v'.id in f.done || v'.id in f.closed)))
  }

  /** The first `n` sequences of a batch have had their turn. */
  ghost predicate AdvancedTo(before: seq<SeqView>, now: seq<SeqView>, f: Flags, n: nat) {
    && |now| == |before|
    && (forall i :: 0 <= i < n && i < |before| ==> Advanced(before[i], now[i], f))
    && (forall i :: n <= i < |before| ==> now[i] == before[i])
  }

  lemma NoneAdvanced(before: seq<SeqView>, f: Flags)
    ensures AdvancedTo(before, before, f, 0)
  {
  }

  lemma NextToAdvance(before: seq<SeqView>, now: seq<SeqView>, f: Flags, n: nat)
    requires AdvancedTo(before, now, f, n) && n < |before|
    ensures |now| == |before| && now[n] == before[n]
  {
  }

  lemma OneMoreAdvanced(before: seq<SeqView>, now: seq<SeqView>, now': seq<SeqView>, f: Flags, f': Flags, n: nat)
    requires AdvancedTo(before, now, f, n) && n < |before| == |now'| && Grown(f, f')
    requires now' == now[n := now'[n]] && Advanced(before[n], now'[n], f')
    ensures AdvancedTo(before, now', f', n + 1)
  {
  }

  /** Every sequence of a batch is done, or one token further. */
  ghost predicate TookStep(before: seq<SeqView>, now: seq<SeqView>) {
    && |now| == |before|
    && forall i :: 0 <= i < |now| ==>
         now[i].Done() || (now[i].state.Running? && |now[i].generated| == |before[i].generated| + 1)
  }

  lemma AdvancedIsStep(before: seq<SeqView>, now: seq<SeqView>, f: Flags)
    requires AdvancedTo(before, now, f, |before|)
    ensures TookStep(before, now)
  {
  }

  lemma NothingSaid(sent: map<Id, seq<StreamItem>>, id: Id)
    ensures Say(sent, id, []) == sent
  {
  }

  lemma RecordingIsShort(t: Timeline, r: Record)
    ensures var t' := Recorded(t, r); |t'.log| == |t.log| + 1 && t.log <= t'.log && t'.clock == t.clock
  {
  }

  lemma BatchIds(views: seq<SeqView>)
    ensures forall i :: 0 <= i < |views| ==> views[i].id in Ids(BatchOf(views))
  {
    var batch := BatchOf(views);
    forall i | 0 <= i < |views| ensures views[i].id in Ids(batch) {
      assert batch[i].seqId == views[i].id;
    }
  }

  /** The sequences that are not done, in order. */
  ghost function Undone(owners: seq<Sequence>): seq<Sequence>
    reads owners
  {
    if owners == [] then []
    else
      var n := |owners| - 1;
      Undone(owners[..n]) + if owners[n].IsDone() then [] else [owners[n]]
  }

  lemma NoneUndone()
    ensures Undone([]) == []
  {
  }

  lemma OneMoreUndone(owners: seq<Sequence>, i: nat)
    requires i < |owners|
    ensures Undone(owners[..i + 1]) == Undone(owners[..i]) + if owners[i].IsDone() then [] else [owners[i]]
  {
    assert owners[..i + 1][..i] == owners[..i];
  }

  lemma {:induction false} UndoneMembers(owners: seq<Sequence>)
    ensures forall s :: s in Undone(owners) ==> s in owners && !s.IsDone()
    ensures forall s :: s in owners && s !in Undone(owners) ==> s.IsDone()
    ensures |Undone(owners)| <= |owners|
  {
    if owners != [] {
      UndoneMembers(owners[..|owners| - 1]);
    }
  }

  lemma {:induction false} AllUndone(owners: seq<Sequence>)
    requires forall i :: 0 <= i < |owners| ==> !owners[i].IsDone()
    ensures Undone(owners) == owners
  {
    if owners != [] {
      AllUndone(owners[..|owners| - 1]);
    }
  }

  class Scheduler {
    const config: SchedulerConfig
    const model: Gpt2
    const device: Device
    const queue: RequestQueue
    const kvCache: SlabKvCache
    const clients: Channels.Clients
    const metrics: Metrics
    var running: seq<Sequence>
    /** The submissions clients are still going to make, and the number of the next one accepted. */
    var script: seq<GenerationRequest>
    var nextId: Id
    ghost var timeline: Timeline
    /** What every shutdown found pending and running. */
    ghost var closings: seq<Record>

    ghost function Setting(): Setup {
      Setup(model, config.maxNewTokens, Min(config.maxSeqLen, kvCache.maxSeqLen),
            Min(config.maxRunningSeqs, kvCache.maxSeqs))
    }

    ghost function LedgerNow(): Ledger
      reads metrics, clients`sent
    {
      Ledger(metrics.accepted, metrics.ended, metrics.cancelled, clients.sent)
    }

    ghost function WorldNow(): World
      reads clients, device, this`closings
    {
      World(clients.FlagsNow(), device.faults.hit, closings)
    }

    ghost function SnapOf(owners: seq<Sequence>): Snap
      reads kvCache, queue, metrics, clients`sent, Objects(owners)
    {
      Snap(kvCache.View(), queue.requests, ViewsOf(owners), LedgerNow())
    }

    ghost predicate Tidy(owners: seq<Sequence>)
      reads this`timeline, this`nextId, kvCache, queue, Objects(owners)
    {
      && queue.metrics == metrics && kvCache.Valid() && Apart(owners, model.exp)
      && timeline.clock == nextId && |queue.requests| <= queue.maxDepth
    }

    /** `owners` are the sequences that hold slots, `hand` a popped request that has none yet. */
    ghost predicate Ready(owners: seq<Sequence>, hand: Option<GenerationRequest>, from: nat, pace: nat)
      reads this`timeline, this`nextId, this`closings, kvCache, queue, metrics, clients, device, Objects(owners)
    {
      Tidy(owners) && Sound(Setting(), SnapOf(owners), timeline, WorldNow(), hand, from, pace)
    }

    /** A scheduler over an empty queue and a cache built from the model's shape. */
    constructor (config: SchedulerConfig, model: Gpt2, device: Device, queue: RequestQueue, kvCache: SlabKvCache,
                 clients: Channels.Clients, metrics: Metrics, script: seq<GenerationRequest>)
      requires queue.metrics == metrics && queue.requests == [] && clients.sent == map[]
      requires metrics.accepted == map[] && metrics.ended == map[] && metrics.cancelled == 0
      requires kvCache.View()
               == InitialSlab(kvCache.maxSeqs, kvCache.maxSeqLen, |model.blocks|, model.heads, model.headDim)
      ensures this.config == config && this.model == model && this.device == device && this.queue == queue
      ensures this.kvCache == kvCache && this.clients == clients && this.metrics == metrics && this.script == script
      ensures running == [] && closings == [] && Ready([], None, 0, 0)
    {
      this.config, this.model, this.device, this.queue, this.kvCache := config, model, device, queue, kvCache;
      this.clients, this.metrics, this.script := clients, metrics, script;
      running, nextId, timeline, closings := [], 0, InitialTimeline(), [];
      new;
      hide Inv, Books;
      InvInitial(Setting(), kvCache.maxSeqs, kvCache.maxSeqLen);
      BooksInitial(Setting(), WorldNow());
      assert ViewsOf([]) == [];
    }

    method ValidateRequest(req: GenerationRequest) returns (ok: bool)
      ensures ok <==> Admissible(model, config.maxNewTokens, Min(config.maxSeqLen, kvCache.maxSeqLen), req)
    {
      if |req.promptTokens| == 0 || req.config.maxNewTokens == 0 || req.config.maxNewTokens > config.maxNewTokens {
        return false;
      }
      var maxSeqLen := Min(Min(config.maxSeqLen, kvCache.maxSeqLen), model.maxPositions);
      var required := CheckedAdd(|req.promptTokens|, req.config.maxNewTokens);
      return required.Some? && required.value <= maxSeqLen;
    }

    /** Cancel a sequence whose response is complete or whose client has gone. */
    method CheckAbandoned(s: Sequence) returns (gone: bool, ghost cause: Cause)
      requires !s.IsDone()
      modifies s, metrics`cancelled, metrics`ended
      modifies clients`closed, clients`done, clients`shutdown, clients`taken
      ensures s.View() == if gone then CancelView(old(s.View())) else old(s.View())
      ensures LedgerNow() == if gone then EndLedger(old(LedgerNow()), s.id, cause, []) else old(LedgerNow())
      ensures Grown(old(clients.FlagsNow()), clients.FlagsNow()) && cause in {ResponseDone, Disconnected}
      ensures gone ==> s.id in if cause.ResponseDone? then clients.done else clients.closed
      ensures !gone ==> s.id !in old(clients.done) && s.id !in old(clients.closed)
      ensures gone && s.id in old(clients.done) ==> cause.ResponseDone?
    {
      cause := ResponseDone;
      gone := clients.ResponseIsDone(s.id);
      if !gone {
        gone := clients.SenderIsClosed(s.id);
        cause := Disconnected;
        if gone {
          metrics.RecordCancelled();
        }
      }
      if gone {
        s.Cancel();
        metrics.ended := metrics.ended[s.id := cause];
      }
    }

    /** The same, for the sequence at index `k` of `owners`. */
    method EndIfAbandoned(s: Sequence, ghost owners: seq<Sequence>, ghost k: nat, ghost from: nat) returns (gone: bool)
      requires k < |owners| && owners[k] == s && !s.IsDone() && Ready(owners, None, from, from)
      modifies s, metrics`cancelled, metrics`ended
      modifies clients`closed, clients`done, clients`shutdown, clients`taken
      ensures Ready(owners, None, if gone then Past(from, k) else from, if gone then Past(from, k) else from)
      ensures (gone <==> s.IsDone()) && (gone ==> s.state == Cancelled)
      ensures Grown(old(clients.FlagsNow()), clients.FlagsNow())
      ensures s.View() == if gone then CancelView(old(s.View())) else old(s.View())
      ensures gone ==> s.id in clients.done || s.id in clients.closed
      ensures !gone ==> s.id !in old(clients.done) && s.id !in old(clients.closed)
      ensures forall i :: 0 <= i < |owners| && i != k ==> owners[i].View() == old(owners[i].View())
    {
      hide Sound, SlabOk, EndLedger, CancelView, Grown;
      ghost var before, w := SnapOf(owners), WorldNow();
      ghost var cause;
      gone, cause := CheckAbandoned(s);
      OneChanged(owners, k);
      if gone {
        CancelledPlace(before.views[k]);
        SoundCut(Setting(), before, timeline, w, WorldNow(), from, Past(from, k), from, Past(from, k), k, s.View(),
                 cause, false);
      } else {
        SoundWait(Setting(), before, timeline, w, WorldNow(), None, from, from);
        assert SnapOf(owners).views == before.views;
      }
    }

    /** A done sequence gives its slot back. */
    method Release(s: Sequence, ghost owners: seq<Sequence>, ghost k: nat)
      requires Ready(owners, None, |owners|, |owners|) && k < |owners| && owners[k] == s && s.IsDone()
      modifies kvCache
      ensures Ready(RemoveAt(owners, k), None, |owners| - 1, |owners| - 1)
    {
      hide Sound;
      SoundReap(Setting(), SnapOf(owners), timeline, WorldNow(), k);
      kvCache.Free(s.kvHandle);
      NoneChanged(owners);
      Removed(owners, k, model.exp);
      assert SnapOf(RemoveAt(owners, k)) == Reaped(old(SnapOf(owners)), k);
    }

    /** Free the slots of sequences that are done and keep the others in order. */
    method ReapDoneSequences()
      requires Ready(running, None, |running|, |running|)
      modifies this`running, kvCache
      ensures Ready(running, None, |running|, |running|)
      ensures running == old(Undone(running))
      ensures forall s :: s in old(running) && s !in running ==> s.IsDone()
      ensures forall s :: s in running ==> s in old(running) && !s.IsDone()
      ensures |running| <= |old(running)|
    {
      hide *;
      var kept: seq<Sequence> := [];
      var pending := running;
      NoneUndone();
      assert kept + pending[0..] == pending && pending[..0] == [];
      for i := 0 to |pending|
        invariant pending == running == old(running) && kept == Undone(pending[..i])
        invariant Ready(kept + pending[i..], None, |kept + pending[i..]|, |kept + pending[i..]|)
      {
        var s := pending[i];
        OneMoreUndone(pending, i);
        if s.IsDone() {
          Release(s, kept + pending[i..], |kept|);
          assert kept + pending[i + 1..] == RemoveAt(kept + pending[i..], |kept|);
        } else {
          assert kept + [s] + pending[i + 1..] == kept + pending[i..];
          kept := kept + [s];
        }
      }
      assert kept + pending[|pending|..] == kept && pending[..|pending|] == pending;
      UndoneMembers(pending);
      assert this !in Objects(kept);
      running := kept;
    }

    /** Cancel abandoned sequences and reap them. */
    method RemoveClosedSequences()
      requires Ready(running, None, |running|, |running|) && forall s :: s in running ==> s.state == Running
      modifies this`running, kvCache, metrics`cancelled, metrics`ended, running
      modifies clients`closed, clients`done, clients`shutdown, clients`taken
      ensures Ready(running, None, |running|, |running|) && |running| <= |old(running)|
      ensures forall s :: s in running ==>
                s in old(running) && s.state == Running && s.id !in old(clients.done) && s.id !in old(clients.closed)
      ensures Grown(old(clients.FlagsNow()), clients.FlagsNow())
      ensures forall s :: s in old(running) && s !in running ==> s.id in clients.done || s.id in clients.closed
    {
      hide Ready;
      for i := 0 to |running|
        invariant running == old(running) && Ready(running, None, |running|, |running|)
        invariant Grown(old(clients.FlagsNow()), clients.FlagsNow())
        invariant forall j :: 0 <= j < i ==>
                    if running[j].View().Done() then running[j].id in clients.done || running[j].id in clients.closed
                    else running[j].id !in old(clients.done) && running[j].id !in old(clients.closed)
        invariant forall j :: i <= j < |running| ==> running[j].View().state == Running
        invariant forall j :: 0 <= j < i ==> running[j].View().state == Running || running[j].View().Done()
      {
        var gone := EndIfAbandoned(running[i], running, i, |running|);
      }
      ReapDoneSequences();
    }

    // ----- Arrivals -----

    /** A client submits its request, at whatever moment it likes. */
    method Arrive(req: GenerationRequest, ghost from: nat)
      requires Ready(running, None, from, from) && req.id == nextId
      modifies this`nextId, this`timeline, queue`requests, metrics
      modifies clients`closed, clients`done, clients`shutdown, clients`taken
      ensures Ready(running, None, from, from)
      ensures timeline.log == old(timeline.log) && timeline.served == old(timeline.served)
      ensures old(timeline.clock) <= timeline.clock
      ensures Grown(old(clients.FlagsNow()), clients.FlagsNow())
      ensures JoinedSince(old(queue.requests), queue.requests, old(timeline.clock))
      ensures queue.closed && old(queue.requests) == [] ==> queue.requests == []
    {
      hide Sound, SlabOk, Live, EndedByPrune, DroppedCount, PrunedRightly, Apart, Grown, JoinedSince;
      ghost var before, w := SnapOf(running), WorldNow();
      ghost var gone;
      var accepted;
      accepted, gone := queue.Submit(req, clients);
      NoneChanged(running);
      OnlyOneJoins(before.queue, gone, req);
      SoundPrune(Setting(), before, timeline, w, WorldNow(), from, from, gone);
      if accepted {
        SoundArrive(Setting(), AfterPrune(before, gone), timeline, WorldNow(), from, from, req);
        nextId := nextId + 1;
        timeline := timeline.(clock := timeline.clock + 1);
        assert SnapOf(running) == Arrived(AfterPrune(before, gone), req);
      } else {
        assert SnapOf(running) == AfterPrune(before, gone);
        LiveOfNone(before.queue, gone);
      }
    }

    /** Any number of the clients' next submissions happen now. */
    method Arrivals(ghost from: nat)
      requires Ready(running, None, from, from)
      modifies this`script, this`nextId, this`timeline, queue`requests, metrics
      modifies clients`closed, clients`done, clients`shutdown, clients`taken
      ensures Ready(running, None, from, from)
      ensures timeline.log == old(timeline.log) && timeline.served == old(timeline.served)
      ensures old(timeline.clock) <= timeline.clock
      ensures Grown(old(clients.FlagsNow()), clients.FlagsNow())
      ensures JoinedSince(old(queue.requests), queue.requests, old(timeline.clock))
      ensures queue.closed && old(queue.requests) == [] ==> queue.requests == []
      ensures |script| <= |old(script)|
      ensures |script| == |old(script)| ==> queue.requests == old(queue.requests)
    {
      hide Ready;
      var more: bool := *;
      while more && script != []
        invariant Ready(running, None, from, from)
        invariant timeline.log == old(timeline.log) && timeline.served == old(timeline.served)
        invariant old(timeline.clock) <= timeline.clock
        invariant Grown(old(clients.FlagsNow()), clients.FlagsNow())
        invariant JoinedSince(old(queue.requests), queue.requests, old(timeline.clock))
        invariant queue.closed && old(queue.requests) == [] ==> queue.requests == []
        invariant |script| <= |old(script)|
        invariant |script| == |old(script)| ==> queue.requests == old(queue.requests)
        decreases |script|
      {
        var req := script[0].(id := nextId);
        assert this !in Objects(running);
        script := script[1..];
        Arrive(req, from);
        more := *;
      }
    }

    // ----- Admission -----

    /** Pop the best request whose client is still there. */
    method NextRequest() returns (popped: Option<GenerationRequest>)
      requires Ready(running, None, |running|, |running|)
      modifies this`timeline, queue`requests, metrics`cancelled, metrics`ended
      modifies clients`closed, clients`done, clients`shutdown, clients`taken
      ensures Ready(running, popped, |running|, |running|)
      ensures timeline.log == old(timeline.log) && timeline.clock == old(timeline.clock)
      ensures Grown(old(clients.FlagsNow()), clients.FlagsNow())
      ensures popped.None? ==> queue.requests == []
      ensures popped.Some? ==> |queue.requests| < |old(queue.requests)|
    {
      hide Sound, SlabOk, Live, EndedByPrune, DroppedCount, BestIndex, PrunedRightly, Apart, RemoveAt, Grown;
      ghost var before, w := SnapOf(running), WorldNow();
      ghost var gone;
      popped, gone := queue.TryPop(clients);
      NoneChanged(running);
      SoundPrune(Setting(), before, timeline, w, WorldNow(), |running|, |running|, gone);
      LiveIsNoLonger(before.queue, gone);
      if popped.Some? {
        SoundPop(Setting(), AfterPrune(before, gone), timeline, WorldNow(), |running|);
        timeline := timeline.(served := timeline.served + [popped.value]);
        assert SnapOf(running) == Popped(AfterPrune(before, gone), BestIndex(Live(before.queue, gone)));
      } else {
        assert SnapOf(running) == AfterPrune(before, gone);
      }
    }

    /** A popped request ends without becoming a sequence; the counter and the channel already say so. */
    ghost method NoteRefusal(req: GenerationRequest, cause: Cause, told: bool, before: Snap, w: World)
      requires Tidy(running) && Sound(Setting(), before, timeline, w, Some(req), |running|, |running|)
      requires Later(w, WorldNow()) && !cause.Completed?
      requires var l := before.ledger;
               && CauseFits(Setting(), EndLedger(l, req.id, cause, Closing(cause, told)), WorldNow(), req.id, cause)
               && SnapOf(running)
               == before.(ledger := EndLedger(l, req.id, cause, Closing(cause, told)).(ended := l.ended))
      modifies metrics`ended
      ensures Ready(running, None, |running|, |running|)
    {
      hide Sound, SlabOk, CauseFits, Later, Apart;
      SoundRefuse(Setting(), before, timeline, w, WorldNow(), req, |running|, cause, told);
      metrics.ended := metrics.ended[req.id := cause];
      NoneChanged(running);
    }

    /** A popped request whose response is complete or whose client has gone is dropped. */
    method Dismiss(req: GenerationRequest) returns (gone: bool)
      requires Ready(running, Some(req), |running|, |running|)
      modifies metrics`cancelled, metrics`ended
      modifies clients`closed, clients`done, clients`shutdown, clients`taken
      ensures Ready(running, if gone then None else Some(req), |running|, |running|)
      ensures !gone ==> req.id !in old(clients.done) && req.id !in old(clients.closed)
      ensures gone && req.id in old(clients.done) ==> metrics.cancelled == old(metrics.cancelled)
      ensures Grown(old(clients.FlagsNow()), clients.FlagsNow())
    {
      hide Sound, SlabOk, Apart;
      ghost var before, w := SnapOf(running), WorldNow();
      gone := clients.ResponseIsDone(req.id);
      if gone {
        NoneChanged(running);
        NoteRefusal(req, ResponseDone, false, before, w);
        return;
      }
      gone := clients.SenderIsClosed(req.id);
      if gone {
        metrics.RecordCancelled();
        NoneChanged(running);
        NoteRefusal(req, Disconnected, false, before, w);
        return;
      }
      NoneChanged(running);
      SoundWait(Setting(), before, timeline, w, WorldNow(), Some(req), |running|, |running|);
      assert SnapOf(running) == before;
    }

    /** A request that fails validation is told so. */
    method Vet(req: GenerationRequest) returns (ok: bool)
      requires Ready(running, Some(req), |running|, |running|)
      modifies metrics`ended, clients
      ensures Ready(running, if ok then Some(req) else None, |running|, |running|)
      ensures ok <==> Admissible(model, config.maxNewTokens, Min(config.maxSeqLen, kvCache.maxSeqLen), req)
      ensures Grown(old(clients.FlagsNow()), clients.FlagsNow())
    {
      hide Sound, SlabOk, Admissible, Apart;
      ghost var before, w := SnapOf(running), WorldNow();
      HandIsAccepted(before, w, req);
      ok := ValidateRequest(req);
      if !ok {
        var told := clients.TrySendError(req.id, req.channelCapacity, Rejected);
        NoneChanged(running);
        ErrorInforms(before.ledger, WorldNow(), req.id, Invalid, Rejected, told);
        NoteRefusal(req, Invalid, told, before, w);
        return;
      }
      NoneChanged(running);
      assert SnapOf(running) == before;
    }

    /** The checks before a popped request may take a slot. */
    method Screen(req: GenerationRequest) returns (ok: bool)
      requires Ready(running, Some(req), |running|, |running|)
      modifies metrics`cancelled, metrics`ended, clients
      ensures Ready(running, if ok then Some(req) else None, |running|, |running|)
      ensures ok ==> Admissible(model, config.maxNewTokens, Min(config.maxSeqLen, kvCache.maxSeqLen), req)
      ensures ok ==> req.id !in old(clients.done) && req.id !in old(clients.closed)
      ensures req.id in old(clients.done) + old(clients.closed) ==> clients.sent == old(clients.sent)
      ensures Grown(old(clients.FlagsNow()), clients.FlagsNow())
    {
      hide Ready, Admissible;
      var gone := Dismiss(req);
      if gone {
        return false;
      }
      ok := Vet(req);
    }

    lemma HandIsAccepted(before: Snap, w: World, req: GenerationRequest)
      requires Sound(Setting(), before, timeline, w, Some(req), |running|, |running|)
      ensures req.id in before.ledger.accepted && before.ledger.accepted[req.id] == req
    {
      QueueIsAccepted(Setting(), before, timeline, Some(req), |running|, |running|);
    }

    /** A validated request becomes a sequence; admission cannot fail. */
    method Create(req: GenerationRequest) returns (s: Sequence)
      requires Ready(running, Some(req), |running|, |running|) && |running| < Setting().places
      requires Admissible(model, config.maxNewTokens, Min(config.maxSeqLen, kvCache.maxSeqLen), req)
      modifies kvCache
      ensures fresh(s) && fresh(s.sampler) && s.state == Prefilling && s.id == req.id
      ensures Ready(running + [s], None, |running| + 1, |running| + 1)
    {
      hide Sound;
      ghost var before := SnapOf(running);
      SoundAdmit(Setting(), before, timeline, WorldNow(), req);
      var admitted := Sequence.New(req, model.exp, kvCache);
      if admitted.Err? {
        assert false;
      }
      s := admitted.value;
      NoneChanged(running);
      assert ViewsOf(running + [s]) == before.views + [s.View()];
      assert SnapOf(running + [s]) == Admitted(before, req);
    }

    /** A kernel failed half-way: the books still match the rows stored before, `slab`. */
    ghost predicate Stalled(owners: seq<Sequence>, slab: Slab, pace: nat)
      reads this`timeline, this`nextId, this`closings, kvCache, queue, metrics, clients, device, Objects(owners)
    {
      Tidy(owners) && Sound(Setting(), SnapOf(owners).(slab := slab), timeline, WorldNow(), None, |owners|, pace)
    }

    /** Report a failure and fail the sequence. */
    method FailSequence(s: Sequence, kind: ErrorKind, ghost owners: seq<Sequence>, ghost k: nat, ghost slab: Slab,
                        ghost pace: nat, ghost cause: Cause)
      requires Stalled(owners, slab, pace) && k < |owners| && owners[k] == s && !s.IsDone()
      requires ErrorOf(cause) == [ErrorItem(kind)] && cause in {PrefillFault, DecodeFault} && s.id in device.faults.hit
      modifies s, metrics`ended, clients
      ensures Stalled(owners, slab, pace) && s.state == Failed
      ensures Grown(old(clients.FlagsNow()), clients.FlagsNow())
      ensures forall i :: 0 <= i < |owners| && i != k ==> owners[i].View() == old(owners[i].View())
    {
      hide Sound, SlabOk, Grown;
      ghost var before, w := SnapOf(owners).(slab := slab), WorldNow();
      CapacityIsKnown(Setting(), before, timeline, w, |owners|, pace, k);
      var told := clients.TrySendError(s.id, s.channelCapacity, kind);
      s.Fail();
      metrics.ended := metrics.ended[s.id := cause];
      OneChanged(owners, k);
      ErrorInforms(before.ledger, WorldNow(), s.id, cause, kind, told);
      SoundCut(Setting(), before, timeline, w, WorldNow(), |owners|, |owners|, pace, pace, k, s.View(), cause, told);
    }

    /** Cache the prompt of the newest sequence; only a kernel can fail. */
    method Prefill(s: Sequence, ghost owners: seq<Sequence>) returns (error: Option<ModelError>)
      requires Ready(owners, None, |owners|, |owners|) && owners != [] && owners[|owners| - 1] == s
               && s.state == Prefilling
      modifies s, kvCache, device, metrics`ended, clients
      ensures Ready(owners, None, |owners|, |owners|)
      ensures error in {None, Some(Kernel)}
      ensures s.state == if error.None? then Running else Failed
      ensures Grown(old(clients.FlagsNow()), clients.FlagsNow())
    {
      hide Sound, PrefillResult, SlabOk, OnlyRowsDiffer, CachedPrompt, Fits, IsCurrent;
      ghost var before, w, n := SnapOf(owners), WorldNow(), |owners| - 1;
      NewestFits(Setting(), before, timeline, w, n);
      error := Gpt2Backend.Prefill(model, s.promptTokens, s.kvHandle, kvCache, device, s.id);
      if error.None? {
        s.MarkRunning();
        OneChanged(owners, n);
        SoundPrefill(Setting(), before, timeline, w, n, kvCache.View());
        assert SnapOf(owners) == Prefilled(before, kvCache.View());
      } else {
        NoneChanged(owners);
        SoundWait(Setting(), before, timeline, w, WorldNow(), None, n + 1, n + 1);
        assert SnapOf(owners).(slab := before.slab) == before;
        FailSequence(s, PrefillFailed, owners, n, before.slab, n + 1, PrefillFault);
        RowsAreSpoiled(owners, n, before.slab);
      }
    }

    /** The rows of the failed newest sequence concern nobody else. */
    lemma RowsAreSpoiled(owners: seq<Sequence>, n: nat, slab: Slab)
      requires n + 1 == |owners| && Stalled(owners, slab, n + 1) && owners[n].View().Done()
      requires OnlyRowsDiffer(slab, kvCache.View(), {owners[n].kvHandle.slot})
      ensures Ready(owners, None, |owners|, |owners|)
    {
      hide Sound, SlabOk, OnlyRowsDiffer;
      var cut := SnapOf(owners).(slab := slab);
      OnlyOneSpoiled(Setting(), cut, timeline, WorldNow(), n);
      SoundSpoil(Setting(), cut, timeline, WorldNow(), n + 1, n + 1, kvCache.View(), {owners[n].kvHandle.slot});
      assert SnapOf(owners) == cut.(slab := kvCache.View());
    }

    /** A new sequence is prefilled, unless its client has gone; then nothing is computed for it. */
    method Prepare(s: Sequence, ghost owners: seq<Sequence>) returns (ok: bool)
      requires Ready(owners, None, |owners|, |owners|) && owners != [] && owners[|owners| - 1] == s
               && s.state == Prefilling
      modifies s, kvCache, device, metrics`cancelled, metrics`ended, clients
      ensures Ready(owners, None, |owners|, |owners|)
      ensures if ok then s.state == Running else s.IsDone()
      ensures s.id in old(clients.done) + old(clients.closed) ==>
                !ok && kvCache.View() == old(kvCache.View()) && device.faults == old(device.faults)
                && clients.sent == old(clients.sent)
      ensures Grown(old(clients.FlagsNow()), clients.FlagsNow())
    {
      hide Ready;
      var gone := EndIfAbandoned(s, owners, |owners| - 1, |owners|);
      if gone {
        return false;
      }
      var error := Prefill(s, owners);
      ok := error.None?;
    }

    /** A prefilled sequence joins the batch unless its client has gone in the meantime. */
    method Join(s: Sequence)
      requires Ready(running + [s], None, |running| + 1, |running| + 1) && s.state == Running
      requires forall o :: o in running ==> o.state == Running
      modifies this`running, kvCache, s, metrics`cancelled, metrics`ended
      modifies clients`closed, clients`done, clients`shutdown, clients`taken
      ensures Ready(running, None, |running|, |running|)
      ensures forall o :: o in running ==> o.state == Running
      ensures running == old(running) + [s]
              || (running == old(running) && (s.id in clients.done || s.id in clients.closed))
      ensures s.id in old(clients.done) + old(clients.closed) ==> running == old(running)
      ensures Grown(old(clients.FlagsNow()), clients.FlagsNow())
    {
      hide Ready;
      ghost var owners := running + [s];
      assert RemoveAt(owners, |running|) == running;
      var gone := EndIfAbandoned(s, owners, |running|, |owners|);
      forall o | o in running ensures o.state == Running {
        var i :| 0 <= i < |running| && running[i] == o;
        assert owners[i].View() == old(owners[i].View());
      }
      if gone {
        Release(s, owners, |running|);
        return;
      }
      assert this !in Objects(owners);
      running := running + [s];
    }

    /** From a popped request to a running sequence, with all the ways out. */
    method AdmitOne(req: GenerationRequest)
      requires Ready(running, Some(req), |running|, |running|) && |running| < Setting().places
      requires forall s :: s in running ==> s.state == Running
      modifies this`running, kvCache, device, metrics`cancelled, metrics`ended, clients
      ensures Ready(running, None, |running|, |running|) && |running| <= |old(running)| + 1
      ensures forall s :: s in running ==> s.state == Running && (s in old(running) || (fresh(s) && fresh(s.sampler)))
      ensures req.id in old(clients.done) + old(clients.closed) ==>
                running == old(running) && clients.sent == old(clients.sent)
      ensures forall s :: s in running ==> s in old(running) || s.id !in old(clients.done) + old(clients.closed)
      ensures Grown(old(clients.FlagsNow()), clients.FlagsNow())
    {
      hide Ready, Admissible;
      var ok := Screen(req);
      if !ok {
        return;
      }
      var s := Create(req);
      ghost var owners := running + [s];
      assert RemoveAt(owners, |running|) == running;
      ok := Prepare(s, owners);
      if !ok {
        Release(s, owners, |running|);
        return;
      }
      Join(s);
    }

    /** Fill every free place as long as requests are pending. */
    method Admit()
      requires Ready(running, None, |running|, |running|) && |running| <= Setting().places
      requires forall s :: s in running ==> s.state == Running
      modifies this`running, this`timeline, this`script, this`nextId, kvCache, device, queue`requests, metrics, clients
      ensures Ready(running, None, |running|, |running|) && |running| <= Setting().places
      ensures forall s :: s in running ==> s.state == Running && (s in old(running) || (fresh(s) && fresh(s.sampler)))
      ensures |running| == Setting().places || queue.requests == []
      ensures timeline.log == old(timeline.log) && old(timeline.clock) <= timeline.clock
      ensures forall s :: s in running ==> s in old(running) || s.id !in old(clients.done) + old(clients.closed)
    {
      hide Ready, JoinedSince;
      while |running| < config.maxRunningSeqs
        invariant Ready(running, None, |running|, |running|) && |running| <= Setting().places
        invariant forall s :: s in running ==>
                    s.state == Running && (s in old(running) || (fresh(s) && fresh(s.sampler)))
        invariant timeline.log == old(timeline.log) && old(timeline.clock) <= timeline.clock
        invariant Grown(old(clients.FlagsNow()), clients.FlagsNow())
        invariant forall s :: s in running ==> s in old(running) || s.id !in old(clients.done) + old(clients.closed)
        decreases |script|, |queue.requests|
      {
        Arrivals(|running|);
        AllocatedNow(running);
        if |kvCache.occupied| >= kvCache.maxSeqs {
          break;
        }
        var popped := NextRequest();
        if popped.None? {
          break;
        }
        AdmitOne(popped.value);
      }
    }

    lemma AllocatedNow(owners: seq<Sequence>)
      requires Ready(owners, None, |owners|, |owners|)
      ensures |kvCache.occupied| == |owners|
    {
      AllocatedCount(Setting(), SnapOf(owners));
    }

    /** By the capacity arithmetic of admission this never finds anything to remove. */
    method RemoveSequencesPastModelCapacity()
      requires Ready(running, None, |running|, |running|) && forall s :: s in running ==> s.state == Running
      modifies this`running, kvCache
      ensures Ready(running, None, |running|, |running|) && running == old(running)
      ensures forall s :: s in running ==> s.state == Running
    {
      hide Ready;
      for i := 0 to |running|
        invariant running == old(running) && Ready(running, None, |running|, |running|)
        invariant forall s :: s in running ==> s.state == Running
      {
        BelowCapacity(i);
        if running[i].DecodePosition() >= model.maxPositions {
          assert false;
        }
      }
      AllUndone(running);
      ReapDoneSequences();
    }

    lemma BelowCapacity(i: nat)
      requires i < |running| && Ready(running, None, |running|, |running|) && running[i].state == Running
      ensures PositionOf(running[i].View().prompt, running[i].View().generated) < model.maxPositions
    {
      var s := SnapOf(running);
      OneView(model, config.maxNewTokens, s.slab, s.ledger, s.views, |running|, i);
      CapacityCloses(model, config.maxNewTokens, s.slab, s.ledger, s.views[i]);
    }

    // ----- Decoding -----

    method BuildDecodeBatch() returns (batch: seq<DecodeInput>)
      ensures batch == BatchOf(ViewsOf(running))
    {
      batch := [];
      for i := 0 to |running|
        invariant |batch| == i && forall j :: 0 <= j < i ==> batch[j] == InputOf(running[j].View())
      {
        var s := running[i];
        batch := batch + [DecodeInput(s.id, s.kvHandle, s.LastToken(), s.DecodePosition())];
      }
    }

    /** One forward pass for all running sequences. */
    method Feed() returns (logits: Result<seq<Row>, ModelError>, ghost slab: Slab)
      requires Ready(running, None, |running|, |running|) && forall s :: s in running ==> s.state == Running
      requires |running| <= Setting().places && timeline.Started()
      requires |running| == Setting().places || NewSince(timeline.Last(), queue.requests)
      modifies this`timeline, kvCache, device
      ensures |timeline.log| == |old(timeline.log)| + 1 && old(timeline.log) <= timeline.log
      ensures logits.Ok? ==> Ready(running, None, 0, 0) && LogitsAreFull(model, ViewsOf(running), logits.value)
      ensures logits.Err? ==> logits.error == Kernel && Stalled(running, slab, 0)
      ensures logits.Err? ==> OnlyRowsDiffer(slab, kvCache.View(), Slots(BatchOf(ViewsOf(running))))
      ensures logits.Err? ==> forall s :: s in running ==> s.id in device.faults.hit
    {
      hide Sound, SlabOk, Servable, HasHeadroom, LogitsAreFull, OnlyRowsDiffer, BatchOf, Slots, RowwiseDecoded, Ids,
           Recorded, RecordNow, Apart;
      ghost var before, w := SnapOf(running), WorldNow();
      slab := before.slab;
      var batch := BuildDecodeBatch();
      BatchServable(Setting(), before, timeline, w);
      SoundRecord(Setting(), before, timeline, w);
      RecordingIsShort(timeline, RecordNow(before, timeline, w));
      timeline := Recorded(timeline, RecordNow(before, timeline, w));
      assert kvCache.View() == before.slab && batch == BatchOf(before.views);
      logits := Gpt2Backend.Forward(model, batch, kvCache, device);
      NoneChanged(running);
      BatchIds(before.views);
      if logits.Ok? {
        SoundDecode(Setting(), before, timeline, w, kvCache.View(), logits.value);
        assert SnapOf(running) == before.(slab := kvCache.View());
      } else {
        SoundWait(Setting(), before, timeline, w, WorldNow(), None, |running|, 0);
        assert SnapOf(running).(slab := slab) == before;
        forall s | s in running ensures s.id in device.faults.hit {
          var i :| 0 <= i < |running| && running[i] == s;
          assert before.views[i].id == s.id;
        }
      }
    }

    /** Sequence `k` was `v` and has consumed its row, but nothing was delivered yet. */
    ghost predicate Undelivering(owners: seq<Sequence>, k: nat, v: SeqView)
      requires k < |owners|
      reads this`timeline, this`nextId, this`closings, kvCache, queue, metrics, clients, device, Objects(owners)
    {
      && Tidy(owners) && v.state.Running? && owners[k].View() == Consumed(model, v)
      && Sound(Setting(), SnapOf(owners).(views := ViewsOf(owners)[k := v]), timeline, WorldNow(), None, k, k)
    }

    /** The channel did not take the update. */
    method Evict(s: Sequence, ghost k: nat, ghost v: SeqView)
      requires k < |running| && running[k] == s && Undelivering(running, k, v)
      requires CauseFits(Setting(), LedgerNow(), WorldNow(), v.id, Undelivered)
      modifies s, metrics`cancelled, metrics`ended
      ensures Ready(running, None, k + 1, k + 1) && s.IsDone() && s.generatedTokens == old(s.generatedTokens)
      ensures metrics.ended == old(metrics.ended)[s.id := Undelivered]
      ensures forall i :: 0 <= i < |running| && i != k ==> running[i].View() == old(running[i].View())
    {
      hide Sound, SlabOk, Consumed, CauseFits;
      ghost var before, w := SnapOf(running).(views := ViewsOf(running)[k := v]), WorldNow();
      SoundEvict(Setting(), before, timeline, w, k);
      s.Cancel();
      metrics.RecordCancelled();
      metrics.ended := metrics.ended[s.id := Undelivered];
      OneChanged(running, k);
      assert ViewsOf(running) == before.views[k := s.View()];
      assert LedgerNow() == EndLedger(before.ledger, s.id, Undelivered, []);
    }

    /** An update was delivered; with its terminal event the request is complete. */
    ghost method NoteDelivery(s: Sequence, k: nat, v: SeqView, before: Snap, w: World)
      requires k < |running| && running[k] == s && |before.views| == |running| && before.views[k] == v
               && v.state.Running?
      requires Tidy(running) && Sound(Setting(), before, timeline, w, None, k, k) && Later(w, WorldNow())
      requires SnapOf(running)
               == before.(views := before.views[k := Consumed(model, v)],
                          ledger := before.ledger.(sent := Say(before.ledger.sent, v.id, NewlySafe(model, v))))
      modifies metrics`ended
      ensures Ready(running, None, k + 1, k + 1) && (s.state == Running || s.IsDone())
      ensures s.id in metrics.ended && s.id !in old(metrics.ended) ==> metrics.ended[s.id].Completed?
    {
      hide Sound, SlabOk, Sampled, NewlySafe, Later, Say, Consumed, Apart;
      ConsumptionFacts(Setting(), before, timeline, w, k);
      SoundDelivery(Setting(), before, timeline, w, WorldNow(), k);
      assert ViewsOf(running)[k] == s.View();
      if Sampled(model, v).finishReason.Some? {
        metrics.ended := metrics.ended[s.id := Completed];
        NoneChanged(running);
      }
      assert SnapOf(running) == Delivered(Setting(), before, k);
    }

    /** Deliver, all or nothing; an update that does not fit ends the sequence. */
    method Deliver(s: Sequence, tokens: seq<Token>, reason: Option<FinishReason>, ghost k: nat, ghost v: SeqView)
      requires k < |running| && running[k] == s && Undelivering(running, k, v)
      requires Messages(tokens, reason) == NewlySafe(model, v)
      modifies s, metrics`cancelled, metrics`ended, clients
      ensures Ready(running, None, k + 1, k + 1) && (s.state == Running || s.IsDone())
      ensures s.generatedTokens == old(s.generatedTokens) && Grown(old(clients.FlagsNow()), clients.FlagsNow())
      ensures s.id in metrics.ended && s.id !in old(metrics.ended) && !metrics.ended[s.id].Completed? ==>
                metrics.ended[s.id].Undelivered?
                && (s.id in clients.closed
                    || |HistoryOf(clients.sent, s.id)| + |Messages(tokens, reason)| > s.channelCapacity)
      ensures forall i :: 0 <= i < |running| && i != k ==> running[i].View() == old(running[i].View())
    {
      hide Sound, SlabOk, NewlySafe, Grown, Say, Consumed, Sampled, Apart;
      ghost var before, w := SnapOf(running).(views := ViewsOf(running)[k := v]), WorldNow();
      ConsumptionFacts(Setting(), before, timeline, w, k);
      var delivered := clients.TrySendTokens(s.id, s.channelCapacity, tokens, reason);
      NoneChanged(running);
      if delivered {
        assert ViewsOf(running) == before.views[k := s.View()];
        NoteDelivery(s, k, v, before, w);
      } else {
        NothingSaid(before.ledger.sent, s.id);
        RefusalFits(Setting(), before, timeline, w, WorldNow(), k);
        SoundWait(Setting(), before, timeline, w, WorldNow(), None, k, k);
        assert SnapOf(running).(views := before.views) == before;
        Evict(s, k, v);
      }
    }

    method Consume(s: Sequence, row: Row, ghost k: nat)
      requires k < |running| && running[k] == s && s.state == Running && Ready(running, None, k, k)
      requires row == FullLogits(model, Context(s.View().prompt, s.View().generated))
      modifies s, s.sampler, metrics`cancelled, metrics`ended, clients
      ensures Ready(running, None, k + 1, k + 1) && (s.state == Running || s.IsDone())
      ensures |s.generatedTokens| == |old(s.generatedTokens)| + 1 && Grown(old(clients.FlagsNow()), clients.FlagsNow())
      ensures forall i :: 0 <= i < |running| && i != k ==> running[i].View() == old(running[i].View())
    {
      hide Sound, SlabOk, Sampled, NewlySafe, Consumed;
      ghost var before := SnapOf(running);
      ConsumptionFacts(Setting(), before, timeline, WorldNow(), k);
      var tokens, reason := NextTokens(model, s, row);
      OneChanged(running, k);
      assert ViewsOf(running)[k := before.views[k]] == before.views;
      assert SnapOf(running).(views := before.views) == before;
      Deliver(s, tokens, reason, k, before.views[k]);
    }

    /** One sequence's turn with its row, unless its client has gone; clients may submit before it. */
    method ConsumeRow(s: Sequence, row: Row, ghost k: nat)
      requires k < |running| && running[k] == s && s.state == Running && Ready(running, None, k, k)
      requires row == FullLogits(model, Context(s.View().prompt, s.View().generated))
      modifies s, s.sampler
      modifies this`script, this`nextId, this`timeline, queue`requests, metrics, clients
      ensures Ready(running, None, k + 1, k + 1) && timeline.log == old(timeline.log)
      ensures ViewsOf(running) == old(ViewsOf(running))[k := s.View()]
      ensures Advanced(old(s.View()), s.View(), clients.FlagsNow())
      ensures s.id in old(clients.done) + old(clients.closed) ==>
                s.IsDone() && s.generatedTokens == old(s.generatedTokens) && clients.sent == old(clients.sent)
      ensures Grown(old(clients.FlagsNow()), clients.FlagsNow())
    {
      hide Ready, FullLogits, Context, JoinedSince;
      Arrivals(k);
      var gone := EndIfAbandoned(s, running, k, k);
      if !gone {
        Consume(s, row, k);
      }
      OneChanged(running, k);
    }

    /** Every sequence whose client is still there consumes its row and becomes one token longer. */
    method ConsumeRows(logits: seq<Row>)
      requires Ready(running, None, 0, 0) && forall s :: s in running ==> s.state == Running
      requires LogitsAreFull(model, ViewsOf(running), logits)
      modifies running, set s | s in running :: s.sampler
      modifies this`script, this`nextId, this`timeline, queue`requests, metrics, clients
      ensures Ready(running, None, |running|, |running|) && timeline.log == old(timeline.log)
      ensures AdvancedTo(old(ViewsOf(running)), ViewsOf(running), clients.FlagsNow(), |running|)
    {
      hide Ready, FullLogits, Context, AdvancedTo, Advanced, Grown;
      ghost var before := ViewsOf(running);
      NoneAdvanced(before, clients.FlagsNow());
      for i := 0 to |running|
        invariant Ready(running, None, i, i) && timeline.log == old(timeline.log)
        invariant AdvancedTo(before, ViewsOf(running), clients.FlagsNow(), i)
      {
        ghost var views, flags := ViewsOf(running), clients.FlagsNow();
        NextToAdvance(before, views, flags, i);
        var s := running[i];
        assert s.View() == before[i];
        ConsumeRow(s, logits[i], i);
        OneMoreAdvanced(before, views, ViewsOf(running), flags, clients.FlagsNow(), i);
      }
    }

    /** The batch failed: every sequence in it fails. */
    method FailAll(ghost slab: Slab)
      requires Stalled(running, slab, 0) && forall s :: s in running ==> s.state == Running
      requires OnlyRowsDiffer(slab, kvCache.View(), Slots(BatchOf(ViewsOf(running))))
      requires forall s :: s in running ==> s.id in device.faults.hit
      modifies running, metrics`ended, clients
      ensures Ready(running, None, |running|, |running|)
      ensures forall i :: 0 <= i < |running| ==> running[i].View().state == Failed
    {
      hide Stalled, OnlyRowsDiffer, Slots, BatchOf;
      ghost var slots := Slots(BatchOf(ViewsOf(running)));
      for i := 0 to |running|
        invariant Stalled(running, slab, 0)
        invariant forall j :: i <= j < |running| ==> running[j].View() == old(running[j].View())
        invariant forall j :: 0 <= j < i ==> running[j].View().state == Failed
      {
        FailSequence(running[i], DecodeFailed, running, i, slab, 0, DecodeFault);
      }
      AllFailed(slab, slots);
    }

    lemma AllFailed(slab: Slab, slots: set<nat>)
      requires Stalled(running, slab, 0) && forall i :: 0 <= i < |running| ==> running[i].View().Done()
      requires OnlyRowsDiffer(slab, kvCache.View(), slots)
      ensures Ready(running, None, |running|, |running|)
    {
      hide Sound, SlabOk, OnlyRowsDiffer;
      var s := SnapOf(running).(slab := slab);
      SoundAllDone(Setting(), s, timeline, WorldNow(), |running|, 0, kvCache.View(), slots);
      assert SnapOf(running) == s.(slab := kvCache.View());
    }

    /** One forward pass, and its outcome for every sequence of the batch. */
    method AdvanceBatch()
      requires Ready(running, None, |running|, |running|) && |running| <= Setting().places
      requires forall s :: s in running ==> s.state == Running
      requires timeline.Started() && (|running| == Setting().places || NewSince(timeline.Last(), queue.requests))
      modifies this`timeline, this`script, this`nextId, kvCache, device, queue`requests, metrics, clients
      modifies running, set s | s in running :: s.sampler
      ensures Ready(running, None, |running|, |running|)
      ensures TookStep(old(ViewsOf(running)), ViewsOf(running))
      ensures |timeline.log| == |old(timeline.log)| + 1 && old(timeline.log) <= timeline.log
    {
      hide Ready, Stalled, OnlyRowsDiffer, LogitsAreFull, NewSince, AdvancedTo;
      ghost var slab;
      var logits;
      logits, slab := Feed();
      NoneChanged(running);
      if logits.Ok? {
        ConsumeRows(logits.value);
        AdvancedIsStep(old(ViewsOf(running)), ViewsOf(running), clients.FlagsNow());
      } else {
        FailAll(slab);
      }
    }

    /** One decode step of the whole batch; whoever stays in it is one token further. */
    method DecodeStep()
      requires Ready(running, None, |running|, |running|) && |running| <= Setting().places
      requires forall s :: s in running ==> s.state == Running
      requires timeline.Started() && (|running| == Setting().places || NewSince(timeline.Last(), queue.requests))
      modifies this`running, this`timeline, this`script, this`nextId, kvCache, device, queue`requests, metrics, clients
      modifies running, set s | s in running :: s.sampler
      ensures Ready(running, None, |running|, |running|) && |running| <= Setting().places
      ensures forall s :: s in running ==>
                s in old(running) && s.state == Running && |s.generatedTokens| == old(|s.generatedTokens|) + 1
      ensures |timeline.log| == |old(timeline.log)| + 1 && old(timeline.log) <= timeline.log
    {
      hide Ready, NewSince, Undone;
      ghost var batch, before := running, ViewsOf(running);
      AdvanceBatch();
      ReapDoneSequences();
      forall s | s in running
        ensures s in old(running) && s.state == Running && |s.generatedTokens| == old(|s.generatedTokens|) + 1
      {
        var i :| 0 <= i < |batch| && batch[i] == s;
        assert before[i] == old(s.View());
        assert ViewsOf(batch)[i] == s.View();
      }
    }

    // ----- Shutdown -----

    /** The queue is closed; `pending` are the drained requests not told yet. */
    ghost predicate Draining(owners: seq<Sequence>, pending: seq<GenerationRequest>)
      reads this`timeline, this`nextId, this`closings, kvCache, queue, metrics, clients, device, Objects(owners)
    {
      && Tidy(owners) && queue.closed && queue.requests == []
      && Sound(Setting(), SnapOf(owners).(queue := pending), timeline, WorldNow(), None, |owners|, |owners|)
    }

    lemma PendingIsKnown(before: Snap, w: World)
      requires Sound(Setting(), before, timeline, w, None, |running|, |running|)
      ensures forall x :: x in before.queue ==> x.id in before.ledger.accepted && before.ledger.accepted[x.id] == x
    {
      hide Inv, Books;
      QueueIsAccepted(Setting(), before, timeline, None, |running|, |running|);
    }

    method TurnAway(ghost pending: seq<GenerationRequest>, req: GenerationRequest, ghost r: Record)
      requires Draining(running, pending) && pending != [] && pending[0] == req && r in closings && req in r.queue
      modifies metrics`ended, clients
      ensures Draining(running, pending[1..]) && Grown(old(clients.FlagsNow()), clients.FlagsNow())
    {
      hide Sound, SlabOk, Grown, Apart;
      ghost var before, w := SnapOf(running).(queue := pending), WorldNow();
      PendingIsKnown(before, w);
      var told := clients.TrySendError(req.id, req.channelCapacity, ShuttingDown);
      metrics.ended := metrics.ended[req.id := Interrupted];
      NoneChanged(running);
      SoundDrain(Setting(), before, timeline, w, WorldNow(), r, told);
    }

    /** A shutdown begins: what is still to be served goes on the record. */
    ghost method NoteClosing() returns (r: Record)
      requires Ready(running, None, |running|, |running|) && |running| <= Setting().places
      requires forall s :: s in running ==> s.state == Running
      modifies this`closings
      ensures Ready(running, None, |running|, |running|) && r.queue == queue.requests
      ensures closings == old(closings) + [r] && forall i :: 0 <= i < |running| ==> NotedIn(r, running[i].View())
      ensures timeline.Started() && Continues(timeline.Last(), r, timeline.served, Setting().limit, Setting().places)
    {
      hide Sound, SlabOk, Apart, RecordNow, Continues, NotedIn;
      ghost var before, w := SnapOf(running), WorldNow();
      SoundClose(Setting(), before, timeline, w);
      r := RecordNow(before, timeline, w);
      assert this !in Objects(running);
      closings := closings + [r];
      NoneChanged(running);
      assert SnapOf(running) == before;
      assert forall i :: 0 <= i < |running| ==> NotedIn(r, before.views[i]);
    }

    /** Close the queue, note what is still to be served, and turn away what is pending. */
    method CloseQueue() returns (ghost r: Record)
      requires Ready(running, None, |running|, |running|) && |running| <= Setting().places
      requires forall s :: s in running ==> s.state == Running
      modifies this`closings, queue`requests, queue`closed, metrics`ended, clients
      ensures Ready(running, None, |running|, |running|) && queue.closed && queue.requests == []
      ensures closings == old(closings) + [r] && forall i :: 0 <= i < |running| ==> NotedIn(r, running[i].View())
      ensures r.queue == old(queue.requests) && timeline.Started()
              && Continues(timeline.Last(), r, timeline.served, Setting().limit, Setting().places)
      ensures Grown(old(clients.FlagsNow()), clients.FlagsNow())
    {
      hide Sound, SlabOk, Apart, Continues, NotedIn;
      r := NoteClosing();
      ghost var before := SnapOf(running);
      label noted:
      var pending := queue.CloseAndDrain();
      NoneChanged@noted(running);
      assert SnapOf(running).(queue := pending[0..]) == before;
      for i := 0 to |pending|
        invariant queue.closed && queue.requests == [] && Draining(running, pending[i..])
        invariant closings == old(closings) + [r]
        invariant Grown(old(clients.FlagsNow()), clients.FlagsNow())
      {
        TurnAway(pending[i..], pending[i], r);
        assert pending[i..][1..] == pending[i + 1..];
      }
      assert SnapOf(running).(queue := pending[|pending|..]) == SnapOf(running);
    }

    /** The first sequence of `owners` is told, and its slot is freed. */
    method Interrupt(s: Sequence, ghost owners: seq<Sequence>, ghost r: Record)
      requires Ready(owners, None, |owners|, |owners|) && owners != [] && owners[0] == s && !s.IsDone()
      requires r in closings && NotedIn(r, s.View())
      modifies kvCache, metrics`ended, clients
      ensures Ready(owners[1..], None, |owners| - 1, |owners| - 1)
      ensures Grown(old(clients.FlagsNow()), clients.FlagsNow())
    {
      hide Sound, SlabOk, SlabFree, Grown, Apart, NotedIn;
      ghost var before, w := SnapOf(owners), WorldNow();
      CapacityIsKnown(Setting(), before, timeline, w, |owners|, |owners|, 0);
      var told := clients.TrySendError(s.id, s.channelCapacity, ShuttingDown);
      metrics.ended := metrics.ended[s.id := Interrupted];
      kvCache.Free(s.kvHandle);
      NoneChanged(owners);
      assert owners[1..] == RemoveAt(owners, 0);
      Removed(owners, 0, model.exp);
      SoundInterrupt(Setting(), before, timeline, w, WorldNow(), r, told);
    }

    /** Every sequence that the shutdown found running is told, and its slot is freed. */
    method InterruptAll(ghost r: Record)
      requires Ready(running, None, |running|, |running|) && r in closings
      requires forall i :: 0 <= i < |running| ==> running[i].state == Running && NotedIn(r, running[i].View())
      modifies this`running, kvCache, metrics`ended, clients
      ensures Ready(running, None, 0, 0) && running == []
      ensures Grown(old(clients.FlagsNow()), clients.FlagsNow())
    {
      hide Ready, NotedIn;
      var stopped := running;
      assert stopped[0..] == stopped;
      for i := 0 to |stopped|
        invariant running == stopped && Grown(old(clients.FlagsNow()), clients.FlagsNow())
        invariant Ready(stopped[i..], None, |stopped| - i, |stopped| - i)
        invariant forall j :: 0 <= j < |stopped| ==> stopped[j].state == Running && NotedIn(r, stopped[j].View())
      {
        Interrupt(stopped[i], stopped[i..], r);
        assert stopped[i..][1..] == stopped[i + 1..];
      }
      assert stopped[|stopped|..] == [];
      assert this !in Objects([]);
      running := [];
    }

    method Shutdown() returns (ghost r: Record)
      requires Ready(running, None, |running|, |running|) && |running| <= Setting().places
      requires forall s :: s in running ==> s.state == Running
      modifies this`running, this`timeline, this`closings, this`script, this`nextId, kvCache
      modifies queue`requests, queue`closed, metrics, clients
      ensures Ready(running, None, 0, 0) && running == [] && queue.closed && queue.requests == []
      ensures timeline.log == old(timeline.log) && Grown(old(clients.FlagsNow()), clients.FlagsNow())
      ensures closings == old(closings) + [r] && timeline.Started()
              && Continues(timeline.Last(), r, timeline.served, Setting().limit, Setting().places)
    {
      hide Ready, JoinedSince, Continues, NotedIn;
      Arrivals(|running|);
      r := CloseQueue();
      Arrivals(|running|);
      InterruptAll(r);
    }

    // ----- The main loop -----

    method StopRequested() returns (stop: bool)
      requires Ready(running, None, |running|, |running|)
      modifies clients`closed, clients`done, clients`shutdown, clients`taken
      ensures Ready(running, None, |running|, |running|)
      ensures (stop <==> clients.shutdown) && (old(clients.shutdown) ==> stop)
      ensures Grown(old(clients.FlagsNow()), clients.FlagsNow())
    {
      hide Sound, SlabOk, Apart;
      ghost var before, w := SnapOf(running), WorldNow();
      stop := clients.ShutdownIsCancelled();
      NoneChanged(running);
      SoundWait(Setting(), before, timeline, w, WorldNow(), None, |running|, |running|);
      assert SnapOf(running) == before;
    }

    lemma LastIsPast()
      requires Ready(running, None, |running|, |running|)
      ensures timeline.Started() && timeline.Last().clock <= timeline.clock
    {
    }

    /** A round in which nothing runs goes on the record; the scheduler waits for a request. */
    ghost method NoteIdle()
      requires Ready(running, None, |running|, |running|) && running == [] && timeline.Started()
      requires Setting().places == 0 || NewSince(timeline.Last(), queue.requests)
      modifies this`timeline
      ensures Ready(running, None, |running|, |running|)
      ensures |timeline.log| == |old(timeline.log)| + 1 && old(timeline.log) <= timeline.log
    {
      hide Sound, Recorded, RecordNow, Apart;
      ghost var before, w := SnapOf(running), WorldNow();
      SoundRecord(Setting(), before, timeline, w);
      RecordingIsShort(timeline, RecordNow(before, timeline, w));
      assert this !in Objects(running);
      timeline := Recorded(timeline, RecordNow(before, timeline, w));
      NoneChanged(running);
      assert SnapOf(running) == before;
    }

    /** Reap, admit, and let clients submit once more: every place is taken, or whatever is pending is new. */
    method Refill()
      requires Ready(running, None, |running|, |running|) && |running| <= Setting().places
      requires forall s :: s in running ==> s.state == Running
      modifies this`running, this`timeline, this`script, this`nextId, kvCache, device, queue`requests, metrics, clients
      modifies running
      ensures Ready(running, None, |running|, |running|) && |running| <= Setting().places
      ensures forall s :: s in running ==> s.state == Running && (s in old(running) || (fresh(s) && fresh(s.sampler)))
      ensures timeline.log == old(timeline.log) && timeline.Started()
      ensures |running| == Setting().places
              || (NewSince(timeline.Last(), queue.requests) && JoinedSince([], queue.requests, old(timeline.clock)))
      ensures forall s :: s in running ==> s.id !in old(clients.done) + old(clients.closed)
    {
      hide Ready, JoinedSince, NewSince;
      RemoveClosedSequences();
      Admit();
      LastIsPast();
      ghost var clock, full := timeline.clock, queue.requests != [];
      Arrivals(|running|);
      if !full {
        JoinedLater(queue.requests, clock, old(timeline.clock), timeline.Last());
      }
      RemoveSequencesPastModelCapacity();
    }

    lemma StillLater(before: nat, clock: nat)
      requires before <= clock && JoinedSince([], queue.requests, clock)
      ensures JoinedSince([], queue.requests, before)
    {
    }

    /**
     One round: reap, admit, decode, with submissions at any point in between. Unless it is
     stopped it goes on the record. Without a decode step nothing was left to serve: whatever
     is pending came during this very round.
     */
    method Round() returns (stop: bool, idle: bool)
      requires Ready(running, None, |running|, |running|) && |running| <= Setting().places
      requires forall s :: s in running ==> s.state == Running
      modifies this`running, this`timeline, this`script, this`nextId, kvCache, device, queue`requests, metrics, clients
      modifies running, set s | s in running :: s.sampler
      ensures Ready(running, None, |running|, |running|) && |running| <= Setting().places
      ensures forall s :: s in running ==> s.state == Running && (s in old(running) || (fresh(s) && fresh(s.sampler)))
      ensures stop ==> clients.shutdown
      ensures old(clients.shutdown) ==> stop && running == old(running) && clients.sent == old(clients.sent)
      ensures |timeline.log| == |old(timeline.log)| + (if stop then 0 else 1) && old(timeline.log) <= timeline.log
      ensures !stop ==> forall s :: s in running ==> s.id !in old(clients.done) + old(clients.closed)
      ensures idle ==> running == [] && (Setting().places == 0 || JoinedSince([], queue.requests, old(timeline.clock)))
    {
      hide Ready, JoinedSince, NewSince;
      idle := false;
      Arrivals(|running|);
      stop := StopRequested();
      if stop {
        return;
      }
      ghost var clock := timeline.clock;
      Refill();
      if running == [] {
        if Setting().places > 0 {
          StillLater(old(timeline.clock), clock);
        }
        idle := true;
        stop := StopRequested();
        if !stop {
          NoteIdle();
        }
        return;
      }
      forall i | 0 <= i < |running|
        ensures running[i] in old(running) || (fresh(running[i]) && fresh(running[i].sampler))
      {
        assert running[i] in running;
      }
      DecodeStep();
    }

    /**
     The scheduler's run, stopped by a shutdown at any moment or cut after `turns` rounds.
     Whatever clients do, in the end nothing is allocated and every accepted request has
     ended with one cause, the real one, and a legal channel history. Every round is on the
     record, and so is what the shutdown found pending and running.
     */
    method Run(turns: nat) returns (rounds: nat, ghost closing: Record)
      requires running == [] && Ready(running, None, 0, 0)
      modifies this`running, this`timeline, this`closings, this`script, this`nextId, kvCache, device
      modifies queue`requests, queue`closed, metrics, clients
      ensures running == [] && queue.closed && queue.requests == []
      ensures Settled(Setting(), SnapOf(running), WorldNow()) && Chain(timeline, Setting().limit, Setting().places)
      ensures Chronicled(timeline.log, WorldNow(), LedgerNow())
      ensures |timeline.log| == |old(timeline.log)| + rounds && old(timeline.log) <= timeline.log
      ensures rounds == turns || clients.shutdown
      ensures old(clients.shutdown) ==> rounds == 0
      ensures closings == old(closings) + [closing] && timeline.Started()
              && Continues(timeline.Last(), closing, timeline.served, Setting().limit, Setting().places)
      ensures old(closings) == [] ==> forall n :: 0 <= n < |timeline.log| ==> !timeline.log[n].closed
    {
      hide Ready, Settled, Chain, Chronicled, Continues, JoinedSince;
      rounds := 0;
      while rounds < turns
        invariant Ready(running, None, |running|, |running|) && |running| <= Setting().places
        invariant forall s :: s in running ==> s.state == Running
        invariant forall i :: 0 <= i < |running| ==> fresh(running[i]) && fresh(running[i].sampler)
        invariant closings == old(closings)
        invariant old(clients.shutdown) ==> rounds == 0 && clients.shutdown
        invariant rounds <= turns && |timeline.log| == |old(timeline.log)| + rounds && old(timeline.log) <= timeline.log
      {
        var stop, idle := Round();
        if stop {
          break;
        }
        rounds := rounds + 1;
        forall i | 0 <= i < |running| ensures fresh(running[i]) && fresh(running[i].sampler) {
          assert running[i] in running;
        }
      }
      LogIsOpen();
      closing := Shutdown();
      AllSettled();
    }

    /** Before the first shutdown every record says so. */
    lemma LogIsOpen()
      requires Ready(running, None, |running|, |running|)
      ensures closings == [] ==> forall n :: 0 <= n < |timeline.log| ==> !timeline.log[n].closed
    {
      hide Inv;
    }

    lemma AllSettled()
      requires Ready(running, None, 0, 0) && running == [] && queue.requests == []
      ensures Settled(Setting(), SnapOf(running), WorldNow()) && Chain(timeline, Setting().limit, Setting().places)
      ensures Chronicled(timeline.log, WorldNow(), LedgerNow())
    {
      EmptyIsSettled(Setting(), SnapOf(running), timeline, WorldNow());
    }
  }
}
