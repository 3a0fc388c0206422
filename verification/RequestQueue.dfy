/**
 The bounded priority queue between the HTTP handlers and the scheduler, and the
 ledger of what became of every accepted request.
 */
module RequestQueues {
  import opened Basics
  import opened Sequences
  import Clients

  /** Why a request stopped being served. */
  datatype Cause =
    | Completed      // its terminal event was delivered
    | Disconnected   // its receiver was dropped
    | Undelivered    // its channel refused an update
    | ResponseDone   // its response no longer needs tokens
    | Invalid        // it failed validation
    | NotAdmitted    // the cache had no room for it
    | PrefillFault   // a kernel failed during its prefill
    | DecodeFault    // a kernel failed in a batch it was part of
    | Interrupted    // the scheduler shut down

  predicate Counted(cause: Cause) { cause in {Disconnected, Undelivered} }

  class Metrics {
    /** The cancelled-sequences counter. */
    var cancelled: nat
    ghost var accepted: map<Id, GenerationRequest>
    ghost var ended: map<Id, Cause>

    constructor ()
      ensures cancelled == 0 && accepted == map[] && ended == map[]
    {
      cancelled, accepted, ended := 0, map[], map[];
    }

    method RecordCancelled()
      modifies this`cancelled
      ensures cancelled == old(cancelled) + 1
    {
      cancelled := cancelled + 1;
    }
  }

  // ----- Pruning and selection -----

  /** The requests whose receiver was not seen closed, in order. */
  function Live(requests: seq<GenerationRequest>, gone: seq<bool>): seq<GenerationRequest>
    requires |requests| == |gone|
  {
    if requests == [] then []
    else
      var n := |requests| - 1;
      Live(requests[..n], gone[..n]) + if gone[n] then [] else [requests[n]]
  }

  lemma {:induction false} LiveIsNoLonger(queue: seq<GenerationRequest>, gone: seq<bool>)
    requires |gone| == |queue|
    ensures |Live(queue, gone)| <= |queue|
  {
    if queue != [] {
      LiveIsNoLonger(queue[..|queue| - 1], gone[..|queue| - 1]);
    }
  }

  /** Only requests seen closed are dropped, and every request whose receiver was closed before is. */
  predicate PrunedRightly(requests: seq<GenerationRequest>, gone: seq<bool>, closedBefore: set<Id>,
                          closedAfter: set<Id>)
    requires |gone| == |requests|
  {
    forall i :: 0 <= i < |gone| ==>
      (gone[i] ==> requests[i].id in closedAfter) && (!gone[i] ==> requests[i].id !in closedBefore)
  }

  function DroppedCount(gone: seq<bool>): nat {
    if gone == [] then 0 else DroppedCount(gone[..|gone| - 1]) + if gone[|gone| - 1] then 1 else 0
  }

  /** The ledger after the requests seen closed were dropped. */
  function EndedByPrune(ended: map<Id, Cause>, requests: seq<GenerationRequest>, gone: seq<bool>): map<Id, Cause>
    requires |requests| == |gone|
  {
    if requests == [] then ended
    else
      var n := |requests| - 1;
      var rest := EndedByPrune(ended, requests[..n], gone[..n]);
      if gone[n] then rest[requests[n].id := Disconnected] else rest
  }

  /** What pruning has done so far. */
  datatype Tally = Tally(kept: seq<GenerationRequest>, cancelled: nat, ended: map<Id, Cause>, flags: Clients.Flags)

  /** From `a` on, the first `|gone|` of the pending requests have been looked at. */
  ghost predicate PrunedSoFar(pending: seq<GenerationRequest>, gone: seq<bool>, a: Tally, b: Tally) {
    && |gone| <= |pending|
    && b.kept == a.kept + Live(pending[..|gone|], gone)
    && b.cancelled == a.cancelled + DroppedCount(gone)
    && b.ended == EndedByPrune(a.ended, pending[..|gone|], gone)
    && PrunedRightly(pending[..|gone|], gone, a.flags.closed, b.flags.closed)
    && Clients.Grown(a.flags, b.flags)
  }

  lemma NothingPruned(pending: seq<GenerationRequest>, a: Tally)
    ensures PrunedSoFar(pending, [], a, a)
  {
    assert pending[..0] == [] && a.kept + [] == a.kept;
  }

  lemma PruneOneMore(pending: seq<GenerationRequest>, gone: seq<bool>, isClosed: bool, a: Tally, b: Tally,
                     flags: Clients.Flags)
    requires |gone| < |pending| && PrunedSoFar(pending, gone, a, b) && Clients.Grown(b.flags, flags)
    requires isClosed <==> pending[|gone|].id in flags.closed
    ensures var req := pending[|gone|];
            PrunedSoFar(pending, gone + [isClosed], a,
              if isClosed then Tally(b.kept, b.cancelled + 1, b.ended[req.id := Disconnected], flags)
              else Tally(b.kept + [req], b.cancelled, b.ended, flags))
  {
    var i := |gone|;
    var seen, more := pending[..i + 1], gone + [isClosed];
    assert seen[..i] == pending[..i] && more[..i] == gone;
    var live := Live(pending[..i], gone);
    assert a.kept + live + [pending[i]] == a.kept + (live + [pending[i]]) && live + [] == live;
  }

  lemma AllPruned(pending: seq<GenerationRequest>, gone: seq<bool>, a: Tally, b: Tally)
    requires PrunedSoFar(pending, gone, a, b) && |gone| == |pending| && a.kept == []
    ensures b.kept == Live(pending, gone) && b.cancelled == a.cancelled + DroppedCount(gone)
    ensures b.ended == EndedByPrune(a.ended, pending, gone)
    ensures PrunedRightly(pending, gone, a.flags.closed, b.flags.closed) && Clients.Grown(a.flags, b.flags)
  {
    assert pending[..|gone|] == pending;
  }

  /** The first request of highest priority. */
  function BestIndex(requests: seq<GenerationRequest>): (k: nat)
    requires requests != []
    ensures k < |requests|
  {
    var n := |requests| - 1;
    if n == 0 then 0
    else
      var k := BestIndex(requests[..n]);
      if requests[n].priority > requests[k].priority then n else k
  }

  predicate IsBest(requests: seq<GenerationRequest>, k: nat) {
    && k < |requests|
    && (forall i :: 0 <= i < |requests| ==> requests[i].priority <= requests[k].priority)
    && (forall i :: 0 <= i < k ==> requests[i].priority < requests[k].priority)
  }

  lemma {:induction false} BestIndexIsBest(requests: seq<GenerationRequest>)
    requires requests != []
    ensures IsBest(requests, BestIndex(requests))
  {
    var n := |requests| - 1;
    if n > 0 {
      BestIndexIsBest(requests[..n]);
      assert requests == requests[..n] + [requests[n]];
    }
  }

  function RemoveAt<T>(s: seq<T>, k: nat): (r: seq<T>)
    requires k < |s|
    ensures |r| == |s| - 1
    ensures forall i :: 0 <= i < |r| ==> r[i] == s[if i < k then i else i + 1]
  {
    s[..k] + s[k + 1..]
  }

  // ----- The queue object -----

  class RequestQueue {
    var requests: seq<GenerationRequest>
    const maxDepth: nat
    var closed: bool
    const metrics: Metrics

    constructor (maxDepth: nat, metrics: Metrics)
      ensures requests == [] && this.maxDepth == maxDepth && !closed && this.metrics == metrics
    {
      requests, this.maxDepth, closed, this.metrics := [], maxDepth, false, metrics;
    }

    /** Drop every pending request whose receiver is seen closed; each drop counts as cancelled. */
    method Retain(clients: Clients.Clients) returns (ghost gone: seq<bool>)
      modifies this`requests, metrics`cancelled, metrics`ended, clients`closed, clients`done, clients`shutdown
      modifies clients`taken
      ensures |gone| == |old(requests)| && requests == Live(old(requests), gone)
      ensures metrics.cancelled == old(metrics.cancelled) + DroppedCount(gone)
      ensures metrics.ended == EndedByPrune(old(metrics.ended), old(requests), gone)
      ensures PrunedRightly(old(requests), gone, old(clients.closed), clients.closed)
      ensures Clients.Grown(old(clients.FlagsNow()), clients.FlagsNow())
    {
      gone := [];
      var kept: seq<GenerationRequest> := [];
      var pending := requests;
      ghost var before := Tally(kept, metrics.cancelled, metrics.ended, clients.FlagsNow());
      NothingPruned(pending, before);
      hide PrunedSoFar;
      for i := 0 to |pending|
        invariant |gone| == i && pending == requests == old(requests)
        invariant PrunedSoFar(pending, gone, before, Tally(kept, metrics.cancelled, metrics.ended, clients.FlagsNow()))
      {
        ghost var sofar := Tally(kept, metrics.cancelled, metrics.ended, clients.FlagsNow());
        var isClosed := clients.SenderIsClosed(pending[i].id);
        PruneOneMore(pending, gone, isClosed, before, sofar, clients.FlagsNow());
        gone := gone + [isClosed];
        if isClosed {
          metrics.RecordCancelled();
          metrics.ended := metrics.ended[pending[i].id := Disconnected];
        } else {
          kept := kept + [pending[i]];
        }
      }
      AllPruned(pending, gone, before, Tally(kept, metrics.cancelled, metrics.ended, clients.FlagsNow()));
      requests := kept;
    }

    /** Prune, then append the request unless the queue is closed or full. */
    method Submit(req: GenerationRequest, clients: Clients.Clients) returns (ok: bool, ghost gone: seq<bool>)
      modifies this`requests, metrics, clients`closed, clients`done, clients`shutdown, clients`taken
      ensures |gone| == |old(requests)|
      ensures PrunedRightly(old(requests), gone, old(clients.closed), clients.closed)
      ensures Clients.Grown(old(clients.FlagsNow()), clients.FlagsNow())
      ensures ok <==> !closed && |Live(old(requests), gone)| < maxDepth
      ensures requests == Live(old(requests), gone) + if ok then [req] else []
      ensures |old(requests)| <= maxDepth ==> |requests| <= maxDepth
      ensures metrics.accepted == if ok then old(metrics.accepted)[req.id := req] else old(metrics.accepted)
      ensures metrics.cancelled == old(metrics.cancelled) + DroppedCount(gone)
      ensures metrics.ended == EndedByPrune(old(metrics.ended), old(requests), gone)
    {
      gone := Retain(clients);
      LiveIsNoLonger(old(requests), gone);
      if closed || |requests| >= maxDepth {
        return false, gone;
      }
      requests := requests + [req];
      metrics.accepted := metrics.accepted[req.id := req];
      ok := true;
    }

    /** Prune, then remove the first request of highest priority. */
    method TryPop(clients: Clients.Clients) returns (popped: Option<GenerationRequest>, ghost gone: seq<bool>)
      modifies this`requests, metrics`cancelled, metrics`ended, clients`closed, clients`done, clients`shutdown
      modifies clients`taken
      ensures |gone| == |old(requests)|
      ensures PrunedRightly(old(requests), gone, old(clients.closed), clients.closed)
      ensures Clients.Grown(old(clients.FlagsNow()), clients.FlagsNow())
      ensures var live := Live(old(requests), gone);
              if live == [] then popped.None? && requests == []
              else popped == Some(live[BestIndex(live)]) && requests == RemoveAt(live, BestIndex(live))
      ensures metrics.cancelled == old(metrics.cancelled) + DroppedCount(gone)
      ensures metrics.ended == EndedByPrune(old(metrics.ended), old(requests), gone)
    {
      gone := Retain(clients);
      if requests == [] {
        return None, gone;
      }
      var bestIndex, bestPriority := 0, requests[0].priority;
      for index := 1 to |requests|
        invariant bestIndex < index && bestPriority == requests[bestIndex].priority
        invariant bestIndex == BestIndex(requests[..index])
      {
        assert requests[..index + 1][..index] == requests[..index];
        if requests[index].priority > bestPriority {
          bestIndex, bestPriority := index, requests[index].priority;
        }
      }
      assert requests[..|requests|] == requests;
      popped := Some(requests[bestIndex]);
      requests := RemoveAt(requests, bestIndex);
    }

    /** Refuse everything from now on and hand out what is still pending. */
    method CloseAndDrain() returns (drained: seq<GenerationRequest>)
      modifies this`requests, this`closed
      ensures closed && requests == [] && drained == old(requests)
    {
      closed := true;
      drained := requests;
      requests := [];
    }
  }

  // ----- Order of service -----

  function OfPriority(requests: seq<GenerationRequest>, p: nat): seq<GenerationRequest> {
    if requests == [] then []
    else (if requests[0].priority == p then [requests[0]] else []) + OfPriority(requests[1..], p)
  }

  /** All requests of priority below `p`: highest priority first, arrival order within a priority. */
  function SortedBelow(requests: seq<GenerationRequest>, p: nat): seq<GenerationRequest> {
    if p == 0 then [] else OfPriority(requests, p - 1) + SortedBelow(requests, p - 1)
  }

  /** Everything repeated pops return when nothing arrives and nobody disconnects. */
  function PopAll(requests: seq<GenerationRequest>): seq<GenerationRequest>
    decreases |requests|
  {
    if requests == [] then []
    else
      var k := BestIndex(requests);
      [requests[k]] + PopAll(RemoveAt(requests, k))
  }

  lemma OfPriorityStep(a: seq<GenerationRequest>, p: nat)
    requires a != []
    ensures OfPriority(a, p) == (if a[0].priority == p then [a[0]] else []) + OfPriority(a[1..], p)
  {
  }

  lemma {:induction false} OfPriorityConcat(a: seq<GenerationRequest>, b: seq<GenerationRequest>, p: nat)
    ensures OfPriority(a + b, p) == OfPriority(a, p) + OfPriority(b, p)
  {
    if a == [] {
      assert a + b == b;
    } else {
      OfPriorityConcat(a[1..], b, p);
      OfPriorityStep(a, p);
      OfPriorityStep(a + b, p);
      hide OfPriority;
      assert (a + b)[1..] == a[1..] + b;
      Regroup(if a[0].priority == p then [a[0]] else [], OfPriority(a[1..], p), OfPriority(b, p));
    }
  }

  lemma {:induction false} NoneOfPriority(a: seq<GenerationRequest>, p: nat)
    requires forall i :: 0 <= i < |a| ==> a[i].priority != p
    ensures OfPriority(a, p) == []
  {
    if a != [] { NoneOfPriority(a[1..], p); }
  }

  lemma OfPriorityAround(head: seq<GenerationRequest>, x: GenerationRequest, tail: seq<GenerationRequest>, p: nat)
    ensures OfPriority(head + [x] + tail, p)
            == OfPriority(head, p) + (if x.priority == p then [x] else []) + OfPriority(tail, p)
    ensures OfPriority(head + tail, p) == OfPriority(head, p) + OfPriority(tail, p)
  {
    OfPriorityConcat(head + [x], tail, p);
    OfPriorityConcat(head, [x], p);
    OfPriorityConcat(head, tail, p);
    OfPriorityStep([x], p);
    assert [x][1..] == [] && OfPriority([], p) == [];
  }

  /** Removing the best request removes the head of its own priority and nothing else. */
  lemma RemoveBest(requests: seq<GenerationRequest>, k: nat, p: nat)
    requires requests != [] && k == BestIndex(requests)
    ensures OfPriority(requests, p)
            == (if p == requests[k].priority then [requests[k]] else []) + OfPriority(RemoveAt(requests, k), p)
  {
    hide OfPriority, BestIndex;
    var head, x, tail := requests[..k], requests[k], requests[k + 1..];
    assert requests == head + [x] + tail;
    OfPriorityAround(head, x, tail, p);
    if p == x.priority {
      assert forall i :: 0 <= i < k ==> requests[i].priority < x.priority by { BestIndexIsBest(requests); }
      NoneOfPriority(head, p);
    }
  }

  lemma {:induction false} SortedOfNone(requests: seq<GenerationRequest>, p: nat)
    requires forall q :: 0 <= q < p ==> OfPriority(requests, q) == []
    ensures SortedBelow(requests, p) == []
  {
    if p > 0 { SortedOfNone(requests, p - 1); }
  }

  lemma NoneAbove(requests: seq<GenerationRequest>, k: nat, p: nat)
    requires requests != [] && k == BestIndex(requests) && requests[k].priority < p
    ensures OfPriority(requests, p) == [] == OfPriority(RemoveAt(requests, k), p)
  {
    BestIndexIsBest(requests);
    NoneOfPriority(requests, p);
    NoneOfPriority(RemoveAt(requests, k), p);
  }

  lemma {:induction false} SortedAfterRemoval(requests: seq<GenerationRequest>, k: nat, p: nat)
    requires requests != [] && k == BestIndex(requests) && requests[k].priority < p
    ensures SortedBelow(requests, p) == [requests[k]] + SortedBelow(RemoveAt(requests, k), p)
  {
    hide OfPriority, BestIndex, RemoveAt;
    if requests[k].priority < p - 1 {
      NoneAbove(requests, k, p - 1);
      SortedAfterRemoval(requests, k, p - 1);
    } else {
      RemoveBest(requests, k, p - 1);
      SortedUnaffected(requests, k, p - 1);
      Regroup([requests[k]], OfPriority(RemoveAt(requests, k), p - 1), SortedBelow(requests, p - 1));
    }
  }

  lemma {:induction false} SortedUnaffected(requests: seq<GenerationRequest>, k: nat, p: nat)
    requires requests != [] && k == BestIndex(requests) && p <= requests[k].priority
    ensures SortedBelow(requests, p) == SortedBelow(RemoveAt(requests, k), p)
  {
    hide OfPriority, BestIndex, RemoveAt;
    if p > 0 {
      RemoveBest(requests, k, p - 1);
      SortedUnaffected(requests, k, p - 1);
    }
  }

  /** Repeated pops serve the pending requests by descending priority, stably. */
  lemma {:induction false} PopAllIsStableSort(requests: seq<GenerationRequest>, limit: nat)
    requires forall i :: 0 <= i < |requests| ==> requests[i].priority < limit
    ensures PopAll(requests) == SortedBelow(requests, limit)
    decreases |requests|
  {
    if requests == [] {
      SortedOfNone(requests, limit);
    } else {
      SortedAfterRemoval(requests, BestIndex(requests), limit);
      PopAllIsStableSort(RemoveAt(requests, BestIndex(requests)), limit);
    }
  }
}
