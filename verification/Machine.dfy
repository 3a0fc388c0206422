/**
 The scheduler's state as one value, the invariant over it, and what every step of
 the scheduler or its clients does to it.
 */
module Machine {
  import opened Basics
  import opened Transformer
  import opened KvCache
  import opened Sequences
  import opened Gpt2Backend
  import opened Reference
  import opened RequestQueues
  import opened Clients

  /** What became of every accepted request, and everything the engine ever sent. */
  datatype Ledger = Ledger(
    accepted: map<Id, GenerationRequest>,
    ended: map<Id, Cause>,
    cancelled: nat,
    sent: map<Id, seq<StreamItem>>)

  datatype Snap = Snap(slab: Slab, queue: seq<GenerationRequest>, views: seq<SeqView>, ledger: Ledger)

  // ----- What a client may have seen -----

  /** The error item that goes with a cause, if the engine sends one. */
  function ErrorOf(cause: Cause): seq<StreamItem> {
    match cause
    case Invalid => [ErrorItem(Rejected)]
    case NotAdmitted => [ErrorItem(AdmitFailed)]
    case PrefillFault => [ErrorItem(PrefillFailed)]
    case DecodeFault => [ErrorItem(DecodeFailed)]
    case Interrupted => [ErrorItem(ShuttingDown)]
    case _ => []
  }

  function Closing(cause: Cause, told: bool): seq<StreamItem> { if told then ErrorOf(cause) else [] }

  /** `n` answer tokens were delivered, then possibly one error item. */
  predicate BrokenAt(tokens: seq<Token>, cause: Cause, h: seq<StreamItem>, n: nat, told: bool) {
    n <= |tokens| && h == TokenItems(tokens[..n]) + Closing(cause, told)
  }

  /**
   The complete channel history of an ended request: its whole answer and one
   terminal event if it completed, and otherwise a gap-free beginning of the answer
   followed by at most one error.
   */
  ghost predicate LegalHistory(m: Gpt2, req: GenerationRequest, cause: Cause, h: seq<StreamItem>) {
    var answer := Answer(m, req.promptTokens, req.config);
    if cause.Completed? then h == Messages(answer.tokens, Some(answer.reason))
    else exists n, told :: BrokenAt(answer.tokens, cause, h, n, told)
  }

  // ----- The invariant -----

  ghost predicate Waiting(l: Ledger, req: GenerationRequest) {
    && req.id in l.accepted && l.accepted[req.id] == req
    && req.id !in l.ended && HistoryOf(l.sent, req.id) == []
  }

  /** The allocated slots are exactly the slots of the sequences, one each. */
  ghost predicate Owned(slab: Slab, views: seq<SeqView>) {
    && (forall i :: 0 <= i < |views| ==> IsCurrent(slab, views[i].kvHandle))
    && (forall i, j :: 0 <= i < j < |views| ==> views[i].kvHandle.slot != views[j].kvHandle.slot)
    && (forall slot :: slot in slab.occupied ==> exists i :: 0 <= i < |views| && views[i].kvHandle.slot == slot)
  }

  ghost predicate SlabGood(m: Gpt2, slab: Slab, views: seq<SeqView>) {
    SlabOk(slab) && Fits(m, slab) && Owned(slab, views)
  }

  /** Pending requests are waiting, each once; `hand` is the one popped and not yet admitted. */
  ghost predicate QueueGood(l: Ledger, queue: seq<GenerationRequest>, hand: Option<GenerationRequest>) {
    && (forall i :: 0 <= i < |queue| ==> Waiting(l, queue[i]))
    && (forall i, j :: 0 <= i < j < |queue| ==> queue[i].id != queue[j].id)
    && (hand.Some? ==> Waiting(l, hand.value) && forall i :: 0 <= i < |queue| ==> queue[i].id != hand.value.id)
  }

  /** Every sequence serves an accepted request of its own, and is done exactly when that has ended. */
  ghost predicate PlacesGood(
    l: Ledger, queue: seq<GenerationRequest>, views: seq<SeqView>, hand: Option<GenerationRequest>)
  {
    && (forall i :: 0 <= i < |views| ==>
          views[i].id in l.accepted && (views[i].Done() <==> views[i].id in l.ended))
    && (forall i, j :: 0 <= i < j < |views| ==> views[i].id != views[j].id)
    && (forall i, j :: 0 <= i < |queue| && 0 <= j < |views| ==> queue[i].id != views[j].id)
    && (hand.Some? ==> forall j :: 0 <= j < |views| ==> hand.value.id != views[j].id)
  }

  predicate Queued(queue: seq<GenerationRequest>, id: Id) { exists i :: 0 <= i < |queue| && queue[i].id == id }

  predicate Serving(views: seq<SeqView>, id: Id) { exists i :: 0 <= i < |views| && views[i].id == id }

  /** No accepted request is lost. */
  ghost predicate NoneLost(
    l: Ledger, queue: seq<GenerationRequest>, views: seq<SeqView>, hand: Option<GenerationRequest>)
  {
    forall id :: id in l.accepted ==>
      id in l.ended || Queued(queue, id) || Serving(views, id) || (hand.Some? && hand.value.id == id)
  }

  ghost predicate LedgerGood(m: Gpt2, l: Ledger) {
    && (forall id :: id in l.ended ==>
          id in l.accepted && LegalHistory(m, l.accepted[id], l.ended[id], HistoryOf(l.sent, id)))
    && (forall id :: id !in l.accepted ==> HistoryOf(l.sent, id) == [])
    && l.cancelled == |CountedIds(l.ended)|
  }

  ghost function CountedIds(ended: map<Id, Cause>): set<Id> { set id | id in ended && Counted(ended[id]) }

  /** What validation and allocation establish, with `limit` the configured token limit. */
  ghost predicate Fitting(m: Gpt2, limit: nat, v: SeqView) {
    && v.prompt != [] && 0 < v.config.maxNewTokens <= limit
    && |v.prompt| + v.config.maxNewTokens <= Min(m.maxPositions, USIZE_MAX)
    && v.kvHandle.capacityTokens == |v.prompt| + v.config.maxNewTokens
  }

  /** The tokens whose rows are cached before a decode step: all but the last. */
  function CachedTokens(prompt: seq<Token>, generated: seq<Token>): seq<Token> {
    var context := Context(prompt, generated);
    context[..|context| - 1]
  }

  /** A new sequence has nothing cached; later its cache is one token behind it, except right after a decode. */
  ghost predicate RowsGood(m: Gpt2, slab: Slab, v: SeqView, fed: bool) {
    && v.kvHandle.slot in slab.layers
    && match v.state
       case Prefilling => v.generated == [] && Rows(slab, v.kvHandle.slot) == seq(slab.numLayers, _ => LayerKv([], []))
       case Running =>
         CachesFull(m, Rows(slab, v.kvHandle.slot),
                    if fed then Context(v.prompt, v.generated) else CachedTokens(v.prompt, v.generated))
       case _ => false
  }

  ghost predicate SpeechGood(m: Gpt2, l: Ledger, v: SeqView) {
    && v.id in l.accepted
    && l.accepted[v.id].promptTokens == v.prompt && l.accepted[v.id].config == v.config
    && l.accepted[v.id].channelCapacity == v.channelCapacity
    && Emitting(v) && OnTrack(m, v)
    && HistoryOf(l.sent, v.id) == TokenItems(v.generated[..v.emitted])
  }

  /** One sequence that is still being served. */
  ghost predicate ViewGood(m: Gpt2, limit: nat, slab: Slab, l: Ledger, v: SeqView, fed: bool) {
    Fitting(m, limit, v) && RowsGood(m, slab, v, fed) && SpeechGood(m, l, v)
  }

  /** Sequences from index `from` on have been through a decode whose token they have not consumed. */
  ghost predicate ViewsGood(m: Gpt2, limit: nat, slab: Slab, l: Ledger, views: seq<SeqView>, from: nat) {
    forall i :: 0 <= i < |views| && !views[i].Done() ==> ViewGood(m, limit, slab, l, views[i], i >= from)
  }

  lemma OneView(m: Gpt2, limit: nat, slab: Slab, l: Ledger, views: seq<SeqView>, from: nat, i: nat)
    requires ViewsGood(m, limit, slab, l, views, from) && i < |views| && !views[i].Done()
    ensures ViewGood(m, limit, slab, l, views[i], i >= from)
  {
  }

  ghost predicate Good(m: Gpt2, limit: nat, s: Snap, hand: Option<GenerationRequest>, from: nat) {
    && SlabGood(m, s.slab, s.views)
    && QueueGood(s.ledger, s.queue, hand)
    && PlacesGood(s.ledger, s.queue, s.views, hand)
    && NoneLost(s.ledger, s.queue, s.views, hand)
    && LedgerGood(m, s.ledger)
    && ViewsGood(m, limit, s.slab, s.ledger, s.views, from)
  }

  // ----- The ledger -----

  function EndLedger(l: Ledger, id: Id, cause: Cause, items: seq<StreamItem>): Ledger {
    Ledger(l.accepted, l.ended[id := cause], l.cancelled + (if Counted(cause) then 1 else 0), Say(l.sent, id, items))
  }

  lemma CountOneMore(ended: map<Id, Cause>, id: Id, cause: Cause)
    requires id !in ended
    ensures |CountedIds(ended[id := cause])| == |CountedIds(ended)| + if Counted(cause) then 1 else 0
  {
    if Counted(cause) {
      assert CountedIds(ended[id := cause]) == CountedIds(ended) + {id};
    } else {
      assert CountedIds(ended[id := cause]) == CountedIds(ended);
    }
  }

  lemma SaidOnce(sent: map<Id, seq<StreamItem>>, id: Id, items: seq<StreamItem>)
    ensures HistoryOf(Say(sent, id, items), id) == HistoryOf(sent, id) + items
    ensures forall other :: other != id ==> HistoryOf(Say(sent, id, items), other) == HistoryOf(sent, other)
  {
    assert HistoryOf(sent, id) + [] == HistoryOf(sent, id);
  }

  /** Ending a request keeps the ledger good if the complete history is legal. */
  lemma EndKeepsLedger(m: Gpt2, l: Ledger, id: Id, cause: Cause, items: seq<StreamItem>)
    requires LedgerGood(m, l) && id in l.accepted && id !in l.ended
    requires LegalHistory(m, l.accepted[id], cause, HistoryOf(l.sent, id) + items)
    ensures LedgerGood(m, EndLedger(l, id, cause, items))
  {
    SaidOnce(l.sent, id, items);
    CountOneMore(l.ended, id, cause);
  }

  /** A request that was never admitted may end with nothing but an error. */
  lemma SilentHistory(m: Gpt2, l: Ledger, req: GenerationRequest, cause: Cause, told: bool)
    requires Waiting(l, req) && !cause.Completed?
    ensures LegalHistory(m, req, cause, HistoryOf(l.sent, req.id) + Closing(cause, told))
  {
    var tokens := Answer(m, req.promptTokens, req.config).tokens;
    assert TokenItems(tokens[..0]) == [];
    assert BrokenAt(tokens, cause, HistoryOf(l.sent, req.id) + Closing(cause, told), 0, told);
  }

  /** A sequence may be broken off between any two tokens. */
  lemma BrokenHistory(m: Gpt2, l: Ledger, v: SeqView, cause: Cause, told: bool)
    requires SpeechGood(m, l, v) && !cause.Completed?
    ensures LegalHistory(m, l.accepted[v.id], cause, HistoryOf(l.sent, v.id) + Closing(cause, told))
  {
    var tokens := Answer(m, v.prompt, v.config).tokens;
    ShownBeginsAnswer(m, v);
    assert v.generated[..v.emitted] == tokens[..v.emitted];
    assert BrokenAt(tokens, cause, HistoryOf(l.sent, v.id) + Closing(cause, told), v.emitted, told);
  }

  /** Ending one request leaves every other as it was. */
  lemma OthersKeepSpeaking(m: Gpt2, l: Ledger, v: SeqView, id: Id, cause: Cause, items: seq<StreamItem>)
    requires SpeechGood(m, l, v) && v.id != id
    ensures SpeechGood(m, EndLedger(l, id, cause, items), v)
  {
    SaidOnce(l.sent, id, items);
  }
}
