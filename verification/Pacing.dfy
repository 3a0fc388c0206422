/**
 Who is served when: a log of the scheduler's rounds, the order of service, and a bound
 on how long a request waits. Request ids are numbered in order of submission.
 */
module Pacing {
  import opened Basics
  import opened Sequences
  import opened RequestQueues

  /** What holds when a round has admitted all it can and decodes, or waits because nothing runs. */
  datatype Record = Record(
    running: map<Id, nat>,             // the batch, with the number of tokens generated so far
    queue: seq<GenerationRequest>,
    clock: nat,                        // ids from here on were submitted later
    served: nat,                       // how many requests had been popped
    ended: map<Id, Cause>,             // what had become of the others
    closed: bool)                      // whether the scheduler had been shut down before

  /** `served` lists all popped requests in order. */
  datatype Timeline = Timeline(clock: nat, served: seq<GenerationRequest>, log: seq<Record>) {
    predicate Started() { log != [] }

    function Last(): Record
      requires Started()
    {
      log[|log| - 1]
    }
  }

  /** Higher priority, or equal priority and submitted earlier. */
  predicate Beats(p: GenerationRequest, x: GenerationRequest) {
    p.priority > x.priority || (p.priority == x.priority && p.id < x.id)
  }

  predicate InOrder(queue: seq<GenerationRequest>) { forall a, b :: 0 <= a < b < |queue| ==> queue[a].id < queue[b].id }

  /** Requests of equal priority leave the queue in order of submission. */
  ghost predicate ServedInOrder(served: seq<GenerationRequest>, queue: seq<GenerationRequest>) {
    && (forall a, b :: 0 <= a < b < |served| && served[a].priority == served[b].priority ==>
          served[a].id < served[b].id)
    && (forall a, x :: 0 <= a < |served| && x in queue ==>
          served[a].id != x.id && (served[a].priority == x.priority ==> served[a].id < x.id))
  }

  /** What happened to the queue since record `r`. */
  ghost predicate Since(r: Record, clock: nat, served: seq<GenerationRequest>, queue: seq<GenerationRequest>) {
    && r.clock <= clock && r.served <= |served|
    && (forall x :: x in queue && x.id < r.clock ==> x in r.queue)
    && (forall k, x :: r.served <= k < |served| && x in queue && x.id < r.clock ==> Beats(served[k], x))
    && (forall k :: r.served <= k < |served| && served[k].id < r.clock ==> served[k] in r.queue)
  }

  predicate ServedFrom(served: seq<GenerationRequest>, from: nat, id: Id) {
    exists k :: from <= k < |served| && served[k].id == id
  }

  /** A sequence is one token further than at record `r`, or it was popped since and has none. */
  ghost predicate OneFurther(r: Record, served: seq<GenerationRequest>, id: Id, length: nat) {
    || (id in r.running && length == r.running[id] + 1)
    || (length == 0 && ServedFrom(served, r.served, id))
  }

  /** Everything pending came after record `r`. */
  ghost predicate NewSince(r: Record, queue: seq<GenerationRequest>) { forall x :: x in queue ==> r.clock <= x.id }

  /** Record `r'` is what one round may make of record `r`, wherever in the next round it is taken. */
  ghost predicate Continues(r: Record, r': Record, served: seq<GenerationRequest>, limit: nat, places: nat) {
    && r'.served <= |served|
    && Since(r, r'.clock, served[..r'.served], r'.queue)
    && ServedInOrder(served[..r'.served], r'.queue)
    && (forall id :: id in r'.running ==>
          r'.running[id] < limit && OneFurther(r, served[..r'.served], id, r'.running[id]))
    && |r'.running| <= places
  }

  /**
   Two consecutive rounds. The second one runs a full batch, or the last pop before it found
   nothing, so that whatever is pending came later.
   */
  ghost predicate Follows(r: Record, r': Record, served: seq<GenerationRequest>, limit: nat, places: nat) {
    Continues(r, r', served, limit, places) && (|r'.running| == places || NewSince(r, r'.queue))
  }

  ghost predicate Chain(t: Timeline, limit: nat, places: nat) {
    forall n :: 0 < n < |t.log| ==> Follows(t.log[n - 1], t.log[n], t.served, limit, places)
  }

  // ----- The invariant and its steps -----

  /** Sequences from index `from` on have not consumed their token of the current decode step. */
  ghost predicate InPace(t: Timeline, v: SeqView, fed: bool)
    requires t.Started()
  {
    if fed then v.id in t.Last().running && |v.generated| == t.Last().running[v.id]
    else OneFurther(t.Last(), t.served, v.id, |v.generated|)
  }

  ghost predicate AllInPace(t: Timeline, views: seq<SeqView>, from: nat)
    requires t.Started()
  {
    forall i :: 0 <= i < |views| && !views[i].Done() ==> InPace(t, views[i], i >= from)
  }

  ghost predicate BelowClock(clock: nat, served: seq<GenerationRequest>, queue: seq<GenerationRequest>) {
    && (forall x :: x in queue ==> x.id < clock)
    && (forall a :: 0 <= a < |served| ==> served[a].id < clock)
  }

  ghost predicate QueuePaced(t: Timeline, queue: seq<GenerationRequest>)
    requires t.Started()
  {
    && InOrder(queue)
    && BelowClock(t.clock, t.served, queue)
    && ServedInOrder(t.served, queue)
    && Since(t.Last(), t.clock, t.served, queue)
  }

  ghost predicate HandPaced(t: Timeline, hand: Option<GenerationRequest>)
    requires t.Started()
  {
    hand.Some? ==> ServedFrom(t.served, t.Last().served, hand.value.id)
  }

  ghost predicate Paced(t: Timeline, limit: nat, places: nat, queue: seq<GenerationRequest>, views: seq<SeqView>,
                        hand: Option<GenerationRequest>, from: nat)
  {
    && t.Started()
    && QueuePaced(t, queue)
    && HandPaced(t, hand)
    && AllInPace(t, views, from)
    && Chain(t, limit, places)
  }

  /** Submission order is also queue order. */
  lemma ArrivalKeepsPace(t: Timeline, queue: seq<GenerationRequest>, req: GenerationRequest)
    requires t.Started() && QueuePaced(t, queue) && req.id == t.clock
    ensures QueuePaced(t.(clock := t.clock + 1), queue + [req])
  {
  }

  lemma SubqueueKeepsPace(t: Timeline, queue: seq<GenerationRequest>, queue': seq<GenerationRequest>)
    requires t.Started() && QueuePaced(t, queue) && InOrder(queue') && forall x :: x in queue' ==> x in queue
    ensures QueuePaced(t, queue')
  {
  }

  /** Pruning adds nothing to what is pending. */
  lemma {:induction false} LiveIsWithin(queue: seq<GenerationRequest>, gone: seq<bool>)
    requires |gone| == |queue|
    ensures forall x :: x in Live(queue, gone) ==> x in queue
  {
    if queue != [] {
      LiveIsWithin(queue[..|queue| - 1], gone[..|queue| - 1]);
    }
  }

  lemma {:induction false} LiveIsSubqueue(queue: seq<GenerationRequest>, gone: seq<bool>)
    requires |gone| == |queue| && InOrder(queue)
    ensures InOrder(Live(queue, gone)) && forall x :: x in Live(queue, gone) ==> x in queue
  {
    LiveIsWithin(queue, gone);
    if queue != [] {
      var n := |queue| - 1;
      LiveIsSubqueue(queue[..n], gone[..n]);
      var head := Live(queue[..n], gone[..n]);
      forall x | x in head ensures x.id < queue[n].id {
        assert x in queue[..n];
      }
      assert Live(queue, gone) == if gone[n] then head else head + [queue[n]];
      hide Live;
    }
  }

  lemma RemovalIsSubqueue(queue: seq<GenerationRequest>, k: nat)
    requires k < |queue| && InOrder(queue)
    ensures InOrder(RemoveAt(queue, k)) && forall x :: x in RemoveAt(queue, k) ==> x in queue && x.id != queue[k].id
  {
    forall x | x in RemoveAt(queue, k) ensures x in queue && x.id != queue[k].id {
      var i :| 0 <= i < |queue| - 1 && RemoveAt(queue, k)[i] == x;
      assert x == queue[if i < k then i else i + 1];
    }
  }

  /** The popped request beats everything that stays pending. */
  lemma BestBeatsRest(queue: seq<GenerationRequest>, x: GenerationRequest)
    requires queue != [] && InOrder(queue) && x in RemoveAt(queue, BestIndex(queue))
    ensures Beats(queue[BestIndex(queue)], x)
  {
    var k := BestIndex(queue);
    BestIndexIsBest(queue);
    var i :| 0 <= i < |queue| - 1 && RemoveAt(queue, k)[i] == x;
    assert x == queue[if i < k then i else i + 1];
  }

  lemma PopKeepsServed(served: seq<GenerationRequest>, queue: seq<GenerationRequest>)
    requires InOrder(queue) && ServedInOrder(served, queue) && queue != []
    ensures var k := BestIndex(queue); ServedInOrder(served + [queue[k]], RemoveAt(queue, k))
  {
    var k := BestIndex(queue);
    RemovalIsSubqueue(queue, k);
    assert queue[k] in queue;
    forall x | x in RemoveAt(queue, k) ensures Beats(queue[k], x) {
      BestBeatsRest(queue, x);
    }
    ServedOneMore(served, queue, queue[k], RemoveAt(queue, k));
  }

  lemma ServedOneMore(served: seq<GenerationRequest>, queue: seq<GenerationRequest>, best: GenerationRequest,
                      rest: seq<GenerationRequest>)
    requires ServedInOrder(served, queue) && best in queue
    requires forall x :: x in rest ==> x in queue && Beats(best, x) && x.id != best.id
    ensures ServedInOrder(served + [best], rest)
  {
  }

  lemma PopKeepsSince(r: Record, clock: nat, served: seq<GenerationRequest>, queue: seq<GenerationRequest>)
    requires InOrder(queue) && Since(r, clock, served, queue) && queue != []
    ensures var k := BestIndex(queue); Since(r, clock, served + [queue[k]], RemoveAt(queue, k))
  {
    var k := BestIndex(queue);
    RemovalIsSubqueue(queue, k);
    assert queue[k] in queue;
    forall a, x | r.served <= a < |served| + 1 && x in RemoveAt(queue, k) && x.id < r.clock
      ensures Beats((served + [queue[k]])[a], x)
    {
      BestBeatsRest(queue, x);
    }
  }

  lemma PopKeepsBelow(clock: nat, served: seq<GenerationRequest>, queue: seq<GenerationRequest>, k: nat)
    requires BelowClock(clock, served, queue) && k < |queue| && InOrder(queue)
    ensures BelowClock(clock, served + [queue[k]], RemoveAt(queue, k))
  {
    RemovalIsSubqueue(queue, k);
    assert queue[k] in queue;
  }

  lemma PoppedIsServed(served: seq<GenerationRequest>, from: nat, req: GenerationRequest)
    requires from <= |served|
    ensures ServedFrom(served + [req], from, req.id)
  {
    assert (served + [req])[|served|].id == req.id;
  }

  lemma PopKeepsQueuePaced(t: Timeline, queue: seq<GenerationRequest>)
    requires t.Started() && QueuePaced(t, queue) && queue != []
    ensures var k := BestIndex(queue); QueuePaced(t.(served := t.served + [queue[k]]), RemoveAt(queue, k))
  {
    hide Since, ServedInOrder, InOrder, BestIndex, RemoveAt, BelowClock;
    var k := BestIndex(queue);
    RemovalIsSubqueue(queue, k);
    PopKeepsBelow(t.clock, t.served, queue, k);
    PopKeepsServed(t.served, queue);
    PopKeepsSince(t.Last(), t.clock, t.served, queue);
  }

  lemma ServedGrew(t: Timeline, queue: seq<GenerationRequest>)
    requires t.Started() && QueuePaced(t, queue)
    ensures t.Last().served <= |t.served|
  {
  }

  lemma PopKeepsPace(t: Timeline, queue: seq<GenerationRequest>)
    requires t.Started() && QueuePaced(t, queue) && queue != []
    ensures var k := BestIndex(queue); var t' := t.(served := t.served + [queue[k]]);
            QueuePaced(t', RemoveAt(queue, k)) && HandPaced(t', Some(queue[k]))
  {
    hide QueuePaced, BestIndex, RemoveAt, ServedFrom;
    PopKeepsQueuePaced(t, queue);
    ServedGrew(t, queue);
    PoppedIsServed(t.served, t.Last().served, queue[BestIndex(queue)]);
  }

  /** Popping one more request does not slow anybody down. */
  lemma PopKeepsAllInPace(t: Timeline, limit: nat, places: nat, views: seq<SeqView>, from: nat, req: GenerationRequest)
    requires t.Started() && AllInPace(t, views, from) && Chain(t, limit, places)
    ensures AllInPace(t.(served := t.served + [req]), views, from)
            && Chain(t.(served := t.served + [req]), limit, places)
  {
    var t' := t.(served := t.served + [req]);
    forall i | 0 <= i < |views| && !views[i].Done() ensures InPace(t', views[i], i >= from) {
      assert InPace(t, views[i], i >= from);
      if ServedFrom(t.served, t.Last().served, views[i].id) {
        var k :| t.Last().served <= k < |t.served| && t.served[k].id == views[i].id;
        assert t'.served[k].id == views[i].id;
      }
    }
    forall n | 0 < n < |t'.log| ensures Follows(t'.log[n - 1], t'.log[n], t'.served, limit, places) {
      assert Follows(t.log[n - 1], t.log[n], t.served, limit, places);
      assert t'.served[..t'.log[n].served] == t.served[..t.log[n].served];
    }
  }

  lemma AdmissionKeepsPace(t: Timeline, views: seq<SeqView>, v: SeqView, req: GenerationRequest)
    requires t.Started() && AllInPace(t, views, |views|) && HandPaced(t, Some(req)) && v.id == req.id
             && v.generated == []
    ensures AllInPace(t, views + [v], |views| + 1)
  {
    forall i | 0 <= i < |views| + 1 && !(views + [v])[i].Done() ensures InPace(t, (views + [v])[i], false) {
      if i < |views| {
        assert InPace(t, views[i], false);
      }
    }
  }

  /** A sequence that is done, or that merely changed state, keeps the pace. */
  lemma StateChangeKeepsPace(t: Timeline, views: seq<SeqView>, from: nat, from': nat, k: nat, w: SeqView)
    requires t.Started() && AllInPace(t, views, from) && k < |views|
    requires w.Done() || (w.id == views[k].id && w.generated == views[k].generated && !views[k].Done() && from == from')
    requires from == from' || (from == k && from' == k + 1)
    ensures AllInPace(t, views[k := w], from')
  {
    var views' := views[k := w];
    forall i | 0 <= i < |views| && !views'[i].Done() ensures InPace(t, views'[i], i >= from') {
      assert i != k ==> views'[i] == views[i];
      assert InPace(t, views[i], i >= from);
    }
  }

  lemma TokenKeepsPace(t: Timeline, views: seq<SeqView>, k: nat, w: SeqView)
    requires t.Started() && AllInPace(t, views, k) && k < |views| && !views[k].Done()
    requires w.id == views[k].id && |w.generated| == |views[k].generated| + 1
    ensures AllInPace(t, views[k := w], k + 1)
  {
    var views' := views[k := w];
    forall i | 0 <= i < |views| && !views'[i].Done() ensures InPace(t, views'[i], i >= k + 1) {
      assert i != k ==> views'[i] == views[i];
      assert InPace(t, views[i], i >= k);
    }
  }

  lemma ReapKeepsPace(t: Timeline, views: seq<SeqView>, from: nat, k: nat)
    requires t.Started() && AllInPace(t, views, from) && k < |views| <= from
    ensures AllInPace(t, RemoveAt(views, k), |views| - 1)
  {
    var rest := RemoveAt(views, k);
    forall i | 0 <= i < |rest| && !rest[i].Done() ensures InPace(t, rest[i], false) {
      assert InPace(t, views[if i < k then i else i + 1], false);
    }
  }

  // ----- Recording a decode step -----

  function Lengths(views: seq<SeqView>): map<Id, nat> {
    if views == [] then map[]
    else
      var n := |views| - 1;
      Lengths(views[..n])[views[n].id := |views[n].generated|]
  }

  predicate DistinctIds(views: seq<SeqView>) { forall i, j :: 0 <= i < j < |views| ==> views[i].id != views[j].id }

  lemma {:induction false} LengthsExact(views: seq<SeqView>)
    requires DistinctIds(views)
    ensures |Lengths(views)| == |views|
    ensures forall i :: 0 <= i < |views| ==>
              views[i].id in Lengths(views) && Lengths(views)[views[i].id] == |views[i].generated|
    ensures forall id :: id in Lengths(views) ==> exists i :: 0 <= i < |views| && views[i].id == id
  {
    if views != [] {
      var n := |views| - 1;
      LengthsExact(views[..n]);
      assert views[n].id !in Lengths(views[..n]);
    }
  }

  function NewRecord(t: Timeline, queue: seq<GenerationRequest>, views: seq<SeqView>, ended: map<Id, Cause>,
                     closed: bool): Record
  {
    Record(Lengths(views), queue, t.clock, |t.served|, ended, closed)
  }

  function Recorded(t: Timeline, r: Record): Timeline { t.(log := t.log + [r]) }

  ghost predicate WithinLimit(views: seq<SeqView>, limit: nat) {
    forall i :: 0 <= i < |views| ==> !views[i].Done() && |views[i].generated| < limit
  }

  lemma NewRecordContinues(t: Timeline, limit: nat, places: nat, queue: seq<GenerationRequest>, views: seq<SeqView>,
                           ended: map<Id, Cause>, closed: bool)
    requires t.Started() && QueuePaced(t, queue) && AllInPace(t, views, |views|)
    requires DistinctIds(views) && WithinLimit(views, limit) && |views| <= places
    ensures Continues(t.Last(), NewRecord(t, queue, views, ended, closed), t.served, limit, places)
    ensures |NewRecord(t, queue, views, ended, closed).running| == |views|
  {
    LengthsExact(views);
    var r' := NewRecord(t, queue, views, ended, closed);
    assert t.served[..|t.served|] == t.served;
    forall id | id in r'.running ensures r'.running[id] < limit && OneFurther(t.Last(), t.served, id, r'.running[id]) {
      var i :| 0 <= i < |views| && views[i].id == id;
      assert InPace(t, views[i], false);
    }
  }

  lemma ChainGrows(t: Timeline, limit: nat, places: nat, r: Record)
    requires t.Started() && Chain(t, limit, places) && Follows(t.Last(), r, t.served, limit, places)
    ensures Chain(Recorded(t, r), limit, places)
  {
    hide Follows;
    var t' := Recorded(t, r);
    forall n | 0 < n < |t'.log| ensures Follows(t'.log[n - 1], t'.log[n], t'.served, limit, places) {
      if n < |t.log| {
        assert Follows(t.log[n - 1], t.log[n], t.served, limit, places);
      }
    }
  }

  lemma SinceRecorded(t: Timeline, queue: seq<GenerationRequest>, views: seq<SeqView>, ended: map<Id, Cause>,
                      closed: bool)
    ensures Since(NewRecord(t, queue, views, ended, closed), t.clock, t.served, queue)
  {
  }

  /** A round goes on the record, from which every sequence is one token short. */
  lemma RecordKeepsPace(t: Timeline, limit: nat, places: nat, queue: seq<GenerationRequest>, views: seq<SeqView>,
                        ended: map<Id, Cause>, closed: bool)
    requires Paced(t, limit, places, queue, views, None, |views|)
    requires DistinctIds(views) && WithinLimit(views, limit) && |views| <= places
             && (|views| == places || NewSince(t.Last(), queue))
    ensures Paced(Recorded(t, NewRecord(t, queue, views, ended, closed)), limit, places, queue, views, None, 0)
  {
    NewRecordContinues(t, limit, places, queue, views, ended, closed);
    ChainGrows(t, limit, places, NewRecord(t, queue, views, ended, closed));
    LengthsExact(views);
    SinceRecorded(t, queue, views, ended, closed);
    hide Continues, Lengths, ServedInOrder, InOrder, Chain, BelowClock, Since;
  }

  // ----- Bounded wait -----

  /** Along the log, the clock and the number of popped requests only grow. */
  lemma {:induction false} LogGrows(t: Timeline, limit: nat, places: nat, i: nat, j: nat)
    requires Chain(t, limit, places) && i <= j < |t.log|
    ensures t.log[i].clock <= t.log[j].clock && t.log[i].served <= t.log[j].served
    ensures i < j ==> t.log[j].served <= |t.served|
  {
    if i < j {
      LogGrows(t, limit, places, i, j - 1);
      assert Follows(t.log[j - 1], t.log[j], t.served, limit, places);
    }
  }

  /** A request pending at record `j` and submitted before record `i` was pending at `i`. */
  lemma {:induction false} WasPending(t: Timeline, limit: nat, places: nat, i: nat, j: nat, x: GenerationRequest)
    requires Chain(t, limit, places) && i <= j < |t.log|
    requires x in t.log[j].queue && x.id < t.log[i].clock
    ensures i < j ==> x in t.log[i].queue
    ensures i < j ==> x in t.log[j - 1].queue
  {
    if i < j {
      assert Follows(t.log[j - 1], t.log[j], t.served, limit, places);
      LogGrows(t, limit, places, i, j - 1);
      if i < j - 1 {
        WasPending(t, limit, places, i, j - 1, x);
      }
    }
  }

  /** Whoever was popped between two records was pending at the first, unless it came later. */
  lemma {:induction false} PoppedWasPending(t: Timeline, limit: nat, places: nat, i: nat, j: nat, k: nat)
    requires Chain(t, limit, places) && i < j < |t.log|
    requires t.log[i].served <= k < t.log[j].served
    ensures k < |t.served| && (t.served[k].id < t.log[i].clock ==> t.served[k] in t.log[i].queue)
  {
    LogGrows(t, limit, places, i, j - 1);
    LogGrows(t, limit, places, i, j);
    if k < t.log[j - 1].served {
      PoppedWasPending(t, limit, places, i, j - 1, k);
    } else {
      assert Follows(t.log[j - 1], t.log[j], t.served, limit, places);
      assert t.served[..t.log[j].served][k] == t.served[k];
      if t.served[k].id < t.log[i].clock && i < j - 1 {
        WasPending(t, limit, places, i, j - 1, t.served[k]);
      }
    }
  }

  /** Whoever was popped while a request stayed pending beats it. */
  lemma {:induction false} PoppedBeatsPending(t: Timeline, limit: nat, places: nat, i: nat, j: nat, k: nat,
                                              x: GenerationRequest)
    requires Chain(t, limit, places) && i < j < |t.log|
    requires t.log[i].served <= k < t.log[j].served
    requires x in t.log[j].queue && x.id < t.log[i].clock
    ensures k < |t.served| && t.served[k].id != x.id && Beats(t.served[k], x)
  {
    LogGrows(t, limit, places, i, j - 1);
    LogGrows(t, limit, places, i, j);
    assert Follows(t.log[j - 1], t.log[j], t.served, limit, places);
    assert t.served[..t.log[j].served][k] == t.served[k];
    if k < t.log[j - 1].served {
      WasPending(t, limit, places, i, j, x);
      PoppedBeatsPending(t, limit, places, i, j - 1, k, x);
    }
  }

  lemma PoppedLast(t: Timeline, limit: nat, places: nat, j: nat, id: Id) returns (k: nat)
    requires Chain(t, limit, places) && 0 < j < |t.log| && id in t.log[j].running
    requires !(id in t.log[j - 1].running && t.log[j].running[id] == t.log[j - 1].running[id] + 1)
    ensures t.log[j - 1].served <= k < t.log[j].served <= |t.served| && t.served[k].id == id
  {
    var r, r' := t.log[j - 1], t.log[j];
    assert Follows(r, r', t.served, limit, places);
    assert OneFurther(r, t.served[..r'.served], id, r'.running[id]);
    k :| r.served <= k < |t.served[..r'.served]| && t.served[..r'.served][k].id == id;
  }

  /** A sequence with fewer tokens than the number of steps back to record `i` was popped after it. */
  lemma {:induction false} PoppedRecently(t: Timeline, limit: nat, places: nat, i: nat, j: nat, id: Id) returns (k: nat)
    requires Chain(t, limit, places) && i < j < |t.log|
    requires id in t.log[j].running && t.log[j].running[id] < j - i
    ensures t.log[i].served <= k < t.log[j].served <= |t.served| && t.served[k].id == id
  {
    hide Follows;
    LogGrows(t, limit, places, i, j - 1);
    LogGrows(t, limit, places, j - 1, j);
    if id in t.log[j - 1].running && t.log[j].running[id] == t.log[j - 1].running[id] + 1 {
      k := PoppedRecently(t, limit, places, i, j - 1, id);
    } else {
      k := PoppedLast(t, limit, places, j, id);
    }
  }

  /** The pending requests that would be served before `x`. */
  ghost function Ahead(queue: seq<GenerationRequest>, x: GenerationRequest): set<Id> {
    set q | q in queue && Beats(q, x) :: q.id
  }

  /** Between records `i` and `j` no request of higher priority than `x` came and was seen pending or popped. */
  ghost predicate NoHigherArrivals(t: Timeline, i: nat, j: nat, x: GenerationRequest)
    requires i <= j < |t.log|
  {
    && (forall l, q :: i <= l <= j && q in t.log[l].queue && t.log[i].clock <= q.id ==> q.priority <= x.priority)
    && (forall k :: t.log[i].served <= k < |t.served| && k < t.log[j].served && t.log[i].clock <= t.served[k].id ==>
          t.served[k].priority <= x.priority)
  }

  lemma FullBatch(t: Timeline, limit: nat, places: nat, j: nat, x: GenerationRequest)
    requires Chain(t, limit, places) && 0 < j < |t.log| && x in t.log[j].queue && x.id < t.log[j - 1].clock
    ensures |t.log[j].running| == places
  {
    assert Follows(t.log[j - 1], t.log[j], t.served, limit, places);
  }

  /** After `limit` rounds a whole batch of requests ahead of `x` has been popped. */
  lemma OneWindow(t: Timeline, limit: nat, places: nat, i: nat, x: GenerationRequest)
    requires Chain(t, limit, places) && 0 < limit && i + limit < |t.log|
    requires x in t.log[i + limit].queue && x.id < t.log[i].clock && NoHigherArrivals(t, i, i + limit, x)
    ensures |Ahead(t.log[i + limit].queue, x)| + places <= |Ahead(t.log[i].queue, x)|
  {
    var j := i + limit;
    hide Follows;
    var now, before, batch := Ahead(t.log[j].queue, x), Ahead(t.log[i].queue, x), t.log[j].running.Keys;
    LogGrows(t, limit, places, i, j - 1);
    FullBatch(t, limit, places, j, x);
    forall id | id in now ensures id in before {
      var q :| q in t.log[j].queue && Beats(q, x) && q.id == id;
      WasPending(t, limit, places, i, j, q);
    }
    forall id | id in batch ensures id in before && id !in now {
      BatchMemberWasAhead(t, limit, places, i, x, id);
    }
    assert |now + batch| == |now| + |batch| by { assert now !! batch; }
    SubsetSize(now + batch, before);
    assert |batch| == |t.log[j].running|;
  }

  lemma {:induction false} SubsetSize(a: set<Id>, b: set<Id>)
    requires a <= b
    ensures |a| <= |b|
  {
    if a != {} {
      var x :| x in a;
      SubsetSize(a - {x}, b - {x});
    }
  }

  lemma BatchMemberWasAhead(t: Timeline, limit: nat, places: nat, i: nat, x: GenerationRequest, id: Id)
    requires Chain(t, limit, places) && 0 < limit && i + limit < |t.log|
    requires x in t.log[i + limit].queue && x.id < t.log[i].clock && NoHigherArrivals(t, i, i + limit, x)
    requires id in t.log[i + limit].running
    ensures id in Ahead(t.log[i].queue, x) && id !in Ahead(t.log[i + limit].queue, x)
  {
    var j := i + limit;
    assert Follows(t.log[j - 1], t.log[j], t.served, limit, places);
    var k := PoppedRecently(t, limit, places, i, j, id);
    PoppedBeatsPending(t, limit, places, i, j, k, x);
    PoppedWasPending(t, limit, places, i, j, k);
    assert t.served[..t.log[j].served][k] == t.served[k];
  }

  lemma NoHigherSoFar(t: Timeline, limit: nat, places: nat, i: nat, j: nat, end: nat, x: GenerationRequest)
    requires Chain(t, limit, places) && i < j <= end < |t.log| && NoHigherArrivals(t, i, end, x)
    ensures NoHigherArrivals(t, i, j, x) && NoHigherArrivals(t, j, end, x)
  {
    LogGrows(t, limit, places, i, j);
    LogGrows(t, limit, places, j, end);
  }

  /** Every `limit` rounds that `x` stays pending, at least `places` requests ahead of it are popped. */
  lemma {:induction false} Windows(t: Timeline, limit: nat, places: nat, i: nat, n: nat, end: nat, x: GenerationRequest)
    requires Chain(t, limit, places) && 0 < limit && end == i + n * limit && i <= end < |t.log|
    requires x in t.log[end].queue && x.id < t.log[i].clock && NoHigherArrivals(t, i, end, x)
    ensures n * places <= |Ahead(t.log[i].queue, x)|
    decreases n
  {
    if n > 0 {
      Distribute(n, limit);
      Distribute(n, places);
      var j := i + limit;
      LogGrows(t, limit, places, i, j);
      NoHigherSoFar(t, limit, places, i, j, end, x);
      Windows(t, limit, places, j, n - 1, end, x);
      WasPending(t, limit, places, j, end, x);
      OneWindow(t, limit, places, i, x);
    }
  }

  lemma Distribute(n: nat, a: nat)
    requires n > 0
    ensures n * a == a + (n - 1) * a && (n - 1) * a >= 0
  {
  }

  lemma OneRoundTooMany(k: nat, places: nat)
    requires 0 < places
    ensures (k / places + 1) * places > k
  {
  }

  /**
   Bounded wait: with `places` sequences served at a time, a pending request with `k`
   requests ahead of it, and no later ones of higher priority, is not pending any more
   from `(k / places + 1) * limit` further rounds on.
   */
  lemma BoundedWait(t: Timeline, limit: nat, places: nat, i: nat, j: nat, x: GenerationRequest)
    requires Chain(t, limit, places) && 0 < limit && 0 < places && i < j < |t.log|
    requires x in t.log[i].queue && x.id < t.log[i].clock && NoHigherArrivals(t, i, j, x)
    requires i + (|Ahead(t.log[i].queue, x)| / places + 1) * limit <= j
    ensures x !in t.log[j].queue
  {
    var k := |Ahead(t.log[i].queue, x)|;
    var n := k / places + 1;
    var end := i + n * limit;
    Distribute(n, limit);
    OneRoundTooMany(k, places);
    if x in t.log[j].queue {
      hide Follows, Ahead;
      NoHigherSoFar(t, limit, places, i, end, j, x);
      LogGrows(t, limit, places, i, end);
      if end < j { WasPending(t, limit, places, end, j, x); }
      Windows(t, limit, places, i, n, end, x);
    }
  }
}
