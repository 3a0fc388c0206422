/**
 The interleaving of submitters with the one scheduler that waits for a nonempty
 queue. A notification wakes a parked waiter or is stored, at most once.
 */
module WakeUp {
  import opened Basics

  /** Where the scheduler stands in `wait_nonempty`. */
  datatype Waiter =
    | Away          // not waiting
    | CheckedEmpty  // saw an empty queue, has not asked for a notification yet
    | Parked        // waits for a notification
    | Woken         // was notified, has not looked at the queue again

  datatype State = State(
    queue: set<Id>,
    pushed: set<Id>,   // submitters between their push and their `notify_one`
    permit: bool,      // a stored notification
    waiter: Waiter)

  predicate Initial(s: State) { s == State({}, {}, false, Away) }

  /** A submitter prunes the requests seen closed and pushes its own. */
  predicate Push(s: State, s': State, id: Id) {
    && id !in s.queue && id !in s.pushed
    && id in s'.queue && s'.queue <= s.queue + {id}
    && s' == s.(queue := s'.queue, pushed := s.pushed + {id})
  }

  /** A submitter is refused by a full or closed queue, after pruning it. */
  predicate Refuse(s: State, s': State) { s'.queue <= s.queue && s' == s.(queue := s'.queue) }

  predicate NotifyOne(s: State, s': State, id: Id) {
    && id in s.pushed
    && s' == if s.waiter.Parked? then s.(pushed := s.pushed - {id}, waiter := Woken)
             else s.(pushed := s.pushed - {id}, permit := true)
  }

  /** The scheduler, not waiting, takes requests out. */
  predicate Take(s: State, s': State) { s.waiter.Away? && s'.queue <= s.queue && s' == s.(queue := s'.queue) }

  /** Look at the queue: return if it is nonempty. */
  predicate Check(s: State, s': State) {
    && (s.waiter.Away? || s.waiter.Woken?)
    && s' == s.(waiter := if s.queue == {} then CheckedEmpty else Away)
  }

  /** Consume a stored notification or park. */
  predicate Await(s: State, s': State) {
    && s.waiter.CheckedEmpty?
    && s' == if s.permit then s.(permit := false, waiter := Woken) else s.(waiter := Parked)
  }

  predicate Step(s: State, s': State) {
    || (exists id :: id in s'.pushed && Push(s, s', id))
    || Refuse(s, s')
    || (exists id :: id in s.pushed && NotifyOne(s, s', id))
    || Take(s, s') || Check(s, s') || Await(s, s')
  }

  predicate Run(states: seq<State>) {
    && states != [] && Initial(states[0])
    && forall i :: 0 < i < |states| ==> Step(states[i - 1], states[i])
  }

  /** A waiter that saw an empty queue which is not empty any more has a notification coming. */
  predicate Covered(s: State) {
    && (s.queue != {} && (s.waiter.CheckedEmpty? || s.waiter.Parked?) ==> s.permit || s.pushed != {})
    && (s.waiter.Parked? ==> !s.permit)
  }

  lemma StepKeepsCovered(s: State, s': State)
    requires Covered(s) && Step(s, s')
    ensures Covered(s')
  {
  }

  lemma {:induction false} RunIsCovered(states: seq<State>)
    requires Run(states)
    ensures Covered(states[|states| - 1])
  {
    var n := |states| - 1;
    if n > 0 {
      assert Run(states[..n]) by {
        forall i | 0 < i < n ensures Step(states[..n][i - 1], states[..n][i]) {
        }
      }
      RunIsCovered(states[..n]);
      StepKeepsCovered(states[n - 1], states[n]);
    }
  }

  /**
   No wake-up is lost: in every reachable state in which the scheduler is parked over a
   nonempty queue, some submitter is about to notify it, and whichever notifies next wakes it.
   */
  lemma NoLostWakeUp(states: seq<State>)
    requires Run(states)
    ensures var s := states[|states| - 1];
            s.waiter.Parked? && s.queue != {} ==>
              s.pushed != {} && forall id, s' :: NotifyOne(s, s', id) ==> s'.waiter.Woken?
  {
    RunIsCovered(states);
  }

  /** One notification and one look at the queue later such a scheduler is back to work, with nothing lost. */
  lemma ParkedGetsThrough(states: seq<State>, id: Id)
    requires Run(states)
    requires var s := states[|states| - 1]; s.waiter.Parked? && s.queue != {} && id in s.pushed
    ensures var s := states[|states| - 1]; var pushed := s.pushed - {id};
            && Step(s, s.(pushed := pushed, waiter := Woken))
            && Step(s.(pushed := pushed, waiter := Woken), s.(pushed := pushed, waiter := Away))
  {
    var s := states[|states| - 1];
    var s' := s.(pushed := s.pushed - {id}, waiter := Woken);
    assert NotifyOne(s, s', id);
    assert Check(s', s'.(waiter := Away));
  }

  /** Whatever the scheduler does, a submitter may push its request. */
  lemma PushIsAlwaysPossible(s: State, id: Id)
    requires id !in s.queue && id !in s.pushed
    ensures Step(s, s.(queue := s.queue + {id}, pushed := s.pushed + {id}))
  {
    assert Push(s, s.(queue := s.queue + {id}, pushed := s.pushed + {id}), id);
  }
}
