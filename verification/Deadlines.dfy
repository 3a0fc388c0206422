/**
 By when a request that nobody disturbs has been answered: order of service, pace and the
 books of a run together.
 */
module Deadlines {
  import opened Basics
  import opened Sequences
  import opened Reference
  import opened RequestQueues
  import opened Clients
  import opened Machine
  import opened Steps
  import opened Pacing
  import opened Invariants
  import opened Chronicle
  import opened Soundness

  /**
   The request can be served, its client stays and wants all of it, its channel holds the
   whole answer, and no kernel fails for it.
   */
  predicate Undisturbed(c: Setup, w: World, req: GenerationRequest) {
    && Admissible(c.m, c.limit, c.maxSeqLen, req) && !Cramped(req)
    && req.id !in w.flags.closed && req.id !in w.flags.done && req.id !in w.hit
  }

  /** A request that is no longer pending is out of the batch as well one token limit later. */
  lemma OutOfBatch(t: Timeline, limit: nat, places: nat, l: Ledger, e: nat, x: GenerationRequest)
    requires Chain(t, limit, places) && 0 < limit && e + limit < |t.log|
    requires Documented(l, t.log[e]) && x.id in l.accepted && l.accepted[x.id] == x
    requires x.id < t.log[e].clock && x !in t.log[e].queue
    ensures x.id !in t.log[e + limit].running
  {
    var j := e + limit;
    if x.id in t.log[j].running {
      assert Follows(t.log[j - 1], t.log[j], t.served, limit, places);
      var k := PoppedRecently(t, limit, places, e, j, x.id);
      PoppedWasPending(t, limit, places, e, j, k);
    }
  }

  /** Neither pending nor running means ended. */
  lemma MustHaveEnded(l: Ledger, r: Record, x: GenerationRequest)
    requires Documented(l, r) && x.id in l.accepted && l.accepted[x.id] == x && x.id < r.clock
    requires x !in r.queue && x.id !in r.running
    ensures x.id in r.ended && x.id in l.ended && l.ended[x.id] == r.ended[x.id]
    ensures r.ended[x.id].Interrupted? ==> r.closed
  {
    forall i | 0 <= i < |r.queue| ensures r.queue[i].id != x.id {
      assert r.queue[i] in r.queue;
    }
  }

  lemma AllDocumented(log: seq<Record>, w: World, l: Ledger, n: nat)
    requires Chronicled(log, w, l) && n < |log|
    ensures Documented(l, log[n])
  {
  }

  lemma PendingIsAccepted(l: Ledger, r: Record, x: GenerationRequest)
    requires Documented(l, r) && x in r.queue
    ensures x.id in l.accepted && l.accepted[x.id] == x && x.id < r.clock
  {
  }

  /** The round by which a request pending in round `i` with `k` requests ahead of it is not pending any more. */
  function PoppedBy(i: nat, k: nat, limit: nat, places: nat): (e: nat)
    requires 0 < places
    ensures 0 < limit ==> i < e
  {
    Distribute(k / places + 1, limit);
    i + (k / places + 1) * limit
  }

  /** And the round by which it is answered. */
  function DueBy(i: nat, k: nat, limit: nat, places: nat): nat
    requires 0 < places
  {
    PoppedBy(i, k, limit, places) + limit
  }

  lemma GoneBy(t: Timeline, limit: nat, places: nat, i: nat, j: nat, x: GenerationRequest)
    requires 0 < places && 0 < limit && i < j < |t.log| && x in t.log[i].queue && x.id < t.log[i].clock
    requires PoppedBy(i, |Ahead(t.log[i].queue, x)|, limit, places) <= j
    requires Chain(t, limit, places) && NoHigherArrivals(t, i, j, x)
    ensures x !in t.log[j].queue
  {
    hide Ahead, NoHigherArrivals;
    BoundedWait(t, limit, places, i, j, x);
  }

  lemma EndedByThen(c: Setup, t: Timeline, l: Ledger, w: World, i: nat, j: nat, x: GenerationRequest)
    requires 0 < c.places && 0 < c.limit && i < |t.log| && x in t.log[i].queue
    requires j == DueBy(i, |Ahead(t.log[i].queue, x)|, c.limit, c.places) < |t.log| && NoHigherArrivals(t, i, j, x)
    requires Chain(t, c.limit, c.places) && Chronicled(t.log, w, l)
    ensures var r := t.log[j];
            && x.id in r.ended && x.id in l.ended && l.ended[x.id] == r.ended[x.id]
            && (r.ended[x.id].Interrupted? ==> r.closed)
  {
    hide Chain, Chronicled, Documented, Ahead, NoHigherArrivals, PoppedBy;
    var e := PoppedBy(i, |Ahead(t.log[i].queue, x)|, c.limit, c.places);
    AllDocumented(t.log, w, l, i);
    AllDocumented(t.log, w, l, e);
    AllDocumented(t.log, w, l, j);
    PendingIsAccepted(l, t.log[i], x);
    NoHigherSoFar(t, c.limit, c.places, i, e, j, x);
    GoneBy(t, c.limit, c.places, i, e, x);
    GoneBy(t, c.limit, c.places, i, j, x);
    LogGrows(t, c.limit, c.places, i, e);
    LogGrows(t, c.limit, c.places, e, j);
    OutOfBatch(t, c.limit, c.places, l, e, x);
    MustHaveEnded(l, t.log[j], x);
  }

  /** By record `j` the request has completed, and its client was sent its whole answer. */
  ghost predicate AnsweredBy(c: Setup, s: Snap, t: Timeline, j: nat, x: GenerationRequest) {
    && j < |t.log| && x.id in t.log[j].ended && t.log[j].ended[x.id].Completed?
    && var answer := Answer(c.m, x.promptTokens, x.config);
       HistoryOf(s.ledger.sent, x.id) == Messages(answer.tokens, Some(answer.reason))
  }

  /**
   The deadline: a request that is pending in round `i` with `k` requests ahead of it, with
   none of higher priority coming later and nobody disturbing it, has completed by round
   `i + (k / places + 2) * limit`, unless the scheduler was shut down before.
   */
  lemma Deadline(c: Setup, s: Snap, t: Timeline, w: World, i: nat, j: nat, x: GenerationRequest)
    requires 0 < c.places && i < |t.log| && x in t.log[i].queue
    requires j == DueBy(i, |Ahead(t.log[i].queue, x)|, c.limit, c.places) < |t.log| && !t.log[j].closed
    requires NoHigherArrivals(t, i, j, x) && Undisturbed(c, w, x)
    requires Settled(c, s, w) && Chain(t, c.limit, c.places) && Chronicled(t.log, w, s.ledger)
    ensures AnsweredBy(c, s, t, j, x)
  {
    hide Chain, Chronicled, Documented, Ahead, NoHigherArrivals, PoppedBy, LeftAt, Answer;
    AllDocumented(t.log, w, s.ledger, i);
    PendingIsAccepted(s.ledger, t.log[i], x);
    EndedByThen(c, t, s.ledger, w, i, j, x);
    assert CauseFits(c, s.ledger, w, x.id, s.ledger.ended[x.id]);
  }
}
