/**
 The books of a run: why every request ended, checked against what really happened, and
 the log of rounds, checked against the fate of every request in it.
 */
module Chronicle {
  import opened Basics
  import opened Transformer
  import opened Sequences
  import opened Reference
  import opened RequestQueues
  import opened Clients
  import opened Machine
  import opened Steps
  import opened Pacing
  import opened Invariants

  /**
   What clients, the tensor library and the server's owner did, with one record of what was
   pending and running at each shutdown; nothing of it is ever undone.
   */
  datatype World = World(flags: Flags, hit: set<Id>, closings: seq<Record>)

  predicate Later(w: World, w': World) {
    Grown(w.flags, w'.flags) && w.hit <= w'.hit && w.closings == w'.closings
  }

  /** What the client of a request holds when it has `n` tokens: all of them that are safe to show. */
  function ShownAfter(m: Gpt2, req: GenerationRequest, n: nat): seq<StreamItem> {
    var tokens := Generate(m, req.promptTokens, req.config, n).0;
    TokenItems(tokens[..SafeLen(req.config, tokens)])
  }

  /**
   The shutdown on record `r` took the request out of the queue or out of the batch. Its client
   was sent as much as was safe to show then, followed by the shutdown error if `told`.
   */
  ghost predicate LeftAt(m: Gpt2, l: Ledger, r: Record, id: Id, told: bool) {
    && id in l.accepted
    && var h := HistoryOf(l.sent, id);
       || (Queued(r.queue, id) && h == Closing(Interrupted, told))
       || (id in r.running && h == ShownAfter(m, l.accepted[id], r.running[id]) + Closing(Interrupted, told))
  }

  /** Whoever was accepted under this number was told of the error that ended its request, or could not be. */
  predicate Informed(l: Ledger, w: World, id: Id, kind: ErrorKind) {
    id in l.accepted && Told(HistoryOf(l.sent, id), kind, id in w.flags.closed, l.accepted[id].channelCapacity)
  }

  /** What a recorded cause claims. That a completed request completed is in its history. */
  ghost predicate CauseFits(c: Setup, l: Ledger, w: World, id: Id, cause: Cause) {
    match cause
    case Completed => true
    case Disconnected => id in w.flags.closed
    case Undelivered => id in l.accepted && (id in w.flags.closed || Cramped(l.accepted[id]))
    case ResponseDone => id in w.flags.done
    case Invalid =>
      Informed(l, w, id, Rejected) && !Admissible(c.m, c.limit, c.maxSeqLen, l.accepted[id])
    case NotAdmitted => false
    case PrefillFault => Informed(l, w, id, PrefillFailed) && id in w.hit
    case DecodeFault => Informed(l, w, id, DecodeFailed) && id in w.hit
    case Interrupted =>
      Informed(l, w, id, ShuttingDown) && exists r, told :: r in w.closings && LeftAt(c.m, l, r, id, told)
  }

  /** Every recorded cause is the real one. */
  ghost predicate Truthful(c: Setup, l: Ledger, w: World) {
    forall id :: id in l.ended ==> id in l.accepted && CauseFits(c, l, w, id, l.ended[id])
  }

  /** Every request accepted before the record is in it: ended for good, pending or running. */
  ghost predicate Documented(l: Ledger, r: Record) {
    && (forall x :: x in r.queue ==> x.id in l.accepted && l.accepted[x.id] == x && x.id < r.clock)
    && (forall id: Id :: id < r.clock ==> id in r.ended || Queued(r.queue, id) || id in r.running)
    && (forall id :: id in r.ended ==>
          id in l.ended && l.ended[id] == r.ended[id] && (r.ended[id].Interrupted? ==> r.closed))
  }

  ghost predicate Chronicled(log: seq<Record>, w: World, l: Ledger) {
    && (forall n :: 0 <= n < |log| ==> Documented(l, log[n]))
    && (forall n :: 0 <= n < |w.closings| ==> Documented(l, w.closings[n]))
    && (w.closings == [] ==> forall n :: 0 <= n < |log| ==> !log[n].closed)
  }

  ghost predicate Books(c: Setup, l: Ledger, t: Timeline, w: World) {
    Truthful(c, l, w) && Chronicled(t.log, w, l)
  }

  /** Nothing can be sent to this client any more, or perhaps nothing. */
  predicate OutOfReach(l: Ledger, w: World, id: Id) {
    && id in l.accepted
    && (id in w.flags.closed || |HistoryOf(l.sent, id)| + 1 > l.accepted[id].channelCapacity)
  }

  /** Only who is out of reach may be left without the error. */
  lemma ErrorInforms(l: Ledger, w: World, id: Id, cause: Cause, kind: ErrorKind, told: bool)
    requires id in l.accepted && ErrorOf(cause) == [ErrorItem(kind)] && (told || OutOfReach(l, w, id))
    ensures Informed(EndLedger(l, id, cause, Closing(cause, told)), w, id, kind)
  {
    SaidOnce(l.sent, id, Closing(cause, told));
  }

  // ----- The books are kept -----

  /** Nothing that was entered into the ledger is changed. */
  ghost predicate Extends(l: Ledger, l': Ledger) {
    && (forall id :: id in l.accepted ==> id in l'.accepted && l'.accepted[id] == l.accepted[id])
    && (forall id :: id in l.ended ==>
          id in l'.ended && l'.ended[id] == l.ended[id] && HistoryOf(l'.sent, id) == HistoryOf(l.sent, id))
  }

  ghost predicate NewEndsFit(c: Setup, l: Ledger, l': Ledger, w': World) {
    forall id :: id in l'.ended && id !in l.ended ==> id in l'.accepted && CauseFits(c, l', w', id, l'.ended[id])
  }

  /** A true cause stays true. */
  lemma CauseStays(c: Setup, l: Ledger, l': Ledger, w: World, w': World, id: Id)
    requires id in l.ended && id in l.accepted && CauseFits(c, l, w, id, l.ended[id]) && Extends(l, l')
    requires Grown(w.flags, w'.flags) && w.hit <= w'.hit && w.closings <= w'.closings
    ensures CauseFits(c, l', w', id, l.ended[id])
  {
    hide ShownAfter;
    if l.ended[id].Interrupted? {
      var r, told :| r in w.closings && LeftAt(c.m, l, r, id, told);
      assert r in w'.closings && LeftAt(c.m, l', r, id, told);
    }
  }

  lemma TruthGrows(c: Setup, l: Ledger, l': Ledger, w: World, w': World)
    requires Truthful(c, l, w) && Extends(l, l') && NewEndsFit(c, l, l', w')
    requires Grown(w.flags, w'.flags) && w.hit <= w'.hit && w.closings <= w'.closings
    ensures Truthful(c, l', w')
  {
    hide CauseFits;
    forall id | id in l.ended ensures CauseFits(c, l', w', id, l.ended[id]) {
      CauseStays(c, l, l', w, w', id);
    }
  }

  lemma BooksGrow(c: Setup, l: Ledger, l': Ledger, t: Timeline, t': Timeline, w: World, w': World)
    requires Books(c, l, t, w) && Extends(l, l') && NewEndsFit(c, l, l', w') && Later(w, w') && t'.log == t.log
    ensures Books(c, l', t', w')
  {
    hide Truthful, NewEndsFit;
    TruthGrows(c, l, l', w, w');
  }

  lemma BooksWait(c: Setup, l: Ledger, t: Timeline, t': Timeline, w: World, w': World)
    requires Books(c, l, t, w) && Later(w, w') && t'.log == t.log
    ensures Books(c, l, t', w')
  {
    hide Books, Later;
    BooksGrow(c, l, l, t, t', w, w');
  }

  lemma EndExtends(l: Ledger, id: Id, cause: Cause, items: seq<StreamItem>)
    requires id !in l.ended
    ensures Extends(l, EndLedger(l, id, cause, items))
  {
    SaidOnce(l.sent, id, items);
  }

  lemma BooksInitial(c: Setup, w: World)
    requires w.closings == []
    ensures Books(c, Ledger(map[], map[], 0, map[]), InitialTimeline(), w)
  {
  }

  /** One more request ends, for a true cause. */
  lemma BooksEnd(c: Setup, l: Ledger, t: Timeline, w: World, w': World, id: Id, cause: Cause, items: seq<StreamItem>)
    requires Books(c, l, t, w) && Later(w, w') && id in l.accepted && id !in l.ended
    requires CauseFits(c, EndLedger(l, id, cause, items), w', id, cause)
    ensures Books(c, EndLedger(l, id, cause, items), t, w')
  {
    hide Books, Later, CauseFits, Extends;
    EndExtends(l, id, cause, items);
    BooksGrow(c, l, EndLedger(l, id, cause, items), t, t, w, w');
  }

  /** More is said to a request that has not ended. */
  lemma BooksSpeak(c: Setup, l: Ledger, t: Timeline, w: World, w': World, id: Id, items: seq<StreamItem>)
    requires Books(c, l, t, w) && Later(w, w') && id !in l.ended
    ensures Books(c, l.(sent := Say(l.sent, id, items)), t, w')
  {
    hide Books, Later;
    SaidOnce(l.sent, id, items);
    BooksGrow(c, l, l.(sent := Say(l.sent, id, items)), t, t, w, w');
  }

  lemma BooksArrive(c: Setup, l: Ledger, t: Timeline, t': Timeline, w: World, req: GenerationRequest)
    requires Books(c, l, t, w) && req.id !in l.accepted && t'.log == t.log
    ensures Books(c, l.(accepted := l.accepted[req.id := req]), t', w)
  {
    hide Books;
    BooksGrow(c, l, l.(accepted := l.accepted[req.id := req]), t, t', w, w);
  }

  /** Pruning ends requests of the queue, and only ones whose receiver was closed. */
  lemma {:induction false} PruneIsTruthful(ended: map<Id, Cause>, queue: seq<GenerationRequest>, gone: seq<bool>,
                                           before: set<Id>, after: set<Id>)
    requires |gone| == |queue| && PrunedRightly(queue, gone, before, after)
    requires forall i :: 0 <= i < |queue| ==> queue[i].id !in ended
    ensures var ended' := EndedByPrune(ended, queue, gone);
            && (forall id :: id in ended ==> id in ended' && ended'[id] == ended[id])
            && (forall id :: id in ended' && id !in ended ==>
                  ended'[id].Disconnected? && id in after && Queued(queue, id))
  {
    if queue != [] {
      var n := |queue| - 1;
      PruneIsTruthful(ended, queue[..n], gone[..n], before, after);
      forall id | Queued(queue[..n], id) || id == queue[n].id ensures Queued(queue, id) {
        if id == queue[n].id {
          assert queue[n].id == id;
        } else {
          var i :| 0 <= i < |queue[..n]| && queue[..n][i].id == id;
          assert queue[i].id == id;
        }
      }
    }
  }

  lemma BooksPrune(c: Setup, l: Ledger, l': Ledger, t: Timeline, w: World, w': World, queue: seq<GenerationRequest>,
                   gone: seq<bool>)
    requires Books(c, l, t, w) && Later(w, w')
    requires |gone| == |queue| && PrunedRightly(queue, gone, w.flags.closed, w'.flags.closed)
    requires forall i :: 0 <= i < |queue| ==> queue[i].id in l.accepted && queue[i].id !in l.ended
    requires l'.accepted == l.accepted && l'.sent == l.sent && l'.ended == EndedByPrune(l.ended, queue, gone)
    ensures Books(c, l', t, w')
  {
    hide Books, Later, PrunedRightly, EndedByPrune;
    PruneIsTruthful(l.ended, queue, gone, w.flags.closed, w'.flags.closed);
    BooksGrow(c, l, l', t, t, w, w');
  }

  // ----- New records -----

  /** The record of the current round. */
  function RecordNow(s: Snap, t: Timeline, w: World): Record {
    NewRecord(t, s.queue, s.views, s.ledger.ended, w.closings != [])
  }

  lemma PendingDocumented(c: Setup, s: Snap, t: Timeline, w: World)
    requires Inv(c, s, t, None, |s.views|, |s.views|)
    ensures forall x :: x in s.queue ==> x.id in s.ledger.accepted && s.ledger.accepted[x.id] == x && x.id < t.clock
  {
    hide SlabGood, LedgerGood, ViewsGood, Paced, PlacesGood, NoneLost;
  }

  lemma NobodyForgotten(c: Setup, s: Snap, t: Timeline, w: World)
    requires Inv(c, s, t, None, |s.views|, |s.views|)
    ensures forall id: Id :: id < t.clock ==> id in s.ledger.ended || Queued(s.queue, id) || id in Lengths(s.views)
  {
    hide SlabGood, LedgerGood, ViewsGood, Paced, QueueGood, Lengths;
    LengthsExact(s.views);
    forall id: Id | id < t.clock ensures id in s.ledger.ended || Queued(s.queue, id) || id in Lengths(s.views) {
      assert id in s.ledger.accepted;
      if Serving(s.views, id) {
        var i :| 0 <= i < |s.views| && s.views[i].id == id;
      }
    }
  }

  lemma NoneInterruptedYet(c: Setup, l: Ledger, w: World)
    requires Truthful(c, l, w)
    ensures forall id :: id in l.ended && l.ended[id].Interrupted? ==> w.closings != []
  {
    hide LeftAt;
  }

  /** A record taken between two steps documents every request. */
  lemma NewRecordDocuments(c: Setup, s: Snap, t: Timeline, w: World)
    requires Inv(c, s, t, None, |s.views|, |s.views|) && Truthful(c, s.ledger, w)
    ensures Documented(s.ledger, RecordNow(s, t, w))
  {
    hide Inv, Truthful, Lengths, Queued;
    PendingDocumented(c, s, t, w);
    NobodyForgotten(c, s, t, w);
    NoneInterruptedYet(c, s.ledger, w);
  }

  lemma BooksRecord(c: Setup, s: Snap, t: Timeline, w: World)
    requires Inv(c, s, t, None, |s.views|, |s.views|) && Books(c, s.ledger, t, w)
    ensures Books(c, s.ledger, Recorded(t, RecordNow(s, t, w)), w)
  {
    hide Inv, Truthful, Documented, Lengths;
    NewRecordDocuments(c, s, t, w);
  }

  /** A shutdown goes on the record. */
  lemma BooksClose(c: Setup, s: Snap, t: Timeline, w: World)
    requires Inv(c, s, t, None, |s.views|, |s.views|) && Books(c, s.ledger, t, w)
    ensures var r := RecordNow(s, t, w);
            Books(c, s.ledger, t, w.(closings := w.closings + [r]))
  {
    hide Inv, Truthful, Documented, RecordNow;
    var r := RecordNow(s, t, w);
    NewRecordDocuments(c, s, t, w);
    TruthGrows(c, s.ledger, s.ledger, w, w.(closings := w.closings + [r]));
  }
}
