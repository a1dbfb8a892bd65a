/** Waiting for a run to finish: the consumer of completion events and the waiters share two dictionaries
    under two locks. Every critical section is one step; steps of all parties interleave freely. The
    same protocol serves task runs and flow runs. */
module Waiters {
  type Id = nat       // of a run
  type Waiter = nat   // one call of wait_async; also names the event it creates

  /** Where a call of `wait_async` is. */
  datatype Phase =
    | Asked(id: Id)                     // the waiter service was asked for, the state not read yet
    | Unfinished(id: Id)   // the state read was not final
    | NotSeen(id: Id)      // not among the observed runs
    | Registered(id: Id)   // its event is in the dictionary
    | Blocked(id: Id)      // waiting on the event
    | Leaving(id: Id)      // about to remove the event
    | Done(id: Id)

  datatype Consumer = Idle | Between(id: Id)   // between its two critical sections

  /** `missed` are the runs that finished while the consumer was not subscribed. */
  datatype System = System(subscribed: bool, finished: set<Id>, missed: set<Id>, queue: seq<Id>, consumer: Consumer,
                           observed: set<Id>, events: map<Id, Waiter>, signalled: set<Waiter>, at: map<Waiter, Phase>)

  datatype Step =
    | Subscribe
    | Finish(id: Id)                // the run reaches a final state; its event goes to subscribers
    | Observe                       // the consumer takes an event and records the run
    | Signal                        // the consumer sets the waiting event, if there is one
    | Evict(id: Id)                 // the record of observed runs forgets one
    | Ask(w: Waiter, id: Id)
    | ReadState(w: Waiter)
    | Check(w: Waiter)
    | Register(w: Waiter)
    | Recheck(w: Waiter)
    | Wake(w: Waiter)
    | TimeOut(w: Waiter)
    | Remove(w: Waiter)

  /** Some call is waiting for `id`. */
  ghost predicate Awaited(s: System, id: Id) { exists w :: w in s.at && !s.at[w].Done? && s.at[w].id == id }

  ghost predicate Next(s: System, c: Step, s': System) {
    match c
    case Subscribe => s' == s.(subscribed := true)
    case Finish(id) =>
      id !in s.finished
      && s' == if s.subscribed then s.(finished := s.finished + {id}, queue := s.queue + [id])
               else s.(finished := s.finished + {id}, missed := s.missed + {id})
    case Observe =>
      s.consumer.Idle? && s.queue != []
      && s' == s.(queue := s.queue[1..], observed := s.observed + {s.queue[0]}, consumer := Between(s.queue[0]))
    case Signal =>
      s.consumer.Between?
      && s' == s.(consumer := Idle,
                  signalled := s.signalled + if s.consumer.id in s.events then {s.events[s.consumer.id]} else {})
    case Evict(id) => !Awaited(s, id) && s' == s.(observed := s.observed - {id})
    case Ask(w, id) => w !in s.at && !Awaited(s, id) && s' == s.(at := s.at[w := Asked(id)])
    case _ => c.w in s.at && WaiterStep(s, c, c.w, s.at[c.w], s')
  }

  /** `wait_async` and `wait_for_task_run`. */
  ghost predicate WaiterStep(s: System, c: Step, w: Waiter, ph: Phase, s': System) {
    match c
    case ReadState(_) =>
      ph.Asked? && s' == s.(at := s.at[w := if ph.id in s.finished then Done(ph.id) else Unfinished(ph.id)])
    case Check(_) =>
      ph.Unfinished? && s' == s.(at := s.at[w := if ph.id in s.observed then Done(ph.id) else NotSeen(ph.id)])
    case Register(_) =>
      ph.NotSeen? && s' == s.(events := s.events[ph.id := w], at := s.at[w := Registered(ph.id)])
    case Recheck(_) =>
      ph.Registered?
      && s' == s.(at := s.at[w := if ph.id in s.observed then Leaving(ph.id) else Blocked(ph.id)])
    case Wake(_) => ph.Blocked? && w in s.signalled && s' == s.(at := s.at[w := Leaving(ph.id)])
    case TimeOut(_) => ph.Blocked? && s' == s.(at := s.at[w := Leaving(ph.id)])
    case Remove(_) => ph.Leaving? && s' == s.(events := s.events - {ph.id}, at := s.at[w := Done(ph.id)])
    case _ => false
  }

  ghost predicate Init(s: System) {
    s == System(false, {}, {}, [], Idle, {}, map[], {}, map[])
  }

  datatype Run = Run(states: seq<System>, steps: seq<Step>)

  ghost predicate IsRun(r: Run) {
    && |r.states| == |r.steps| + 1 && Init(r.states[0])
    && forall i :: 0 <= i < |r.steps| ==> Next(r.states[i], r.steps[i], r.states[i + 1])
  }

  /** One call per run at a time, and a registered call's event is the one in the dictionary. */
  ghost predicate Exclusive(s: System) { Alone(s) && Owns(s) }

  ghost predicate Alone(s: System) {
    forall v, w :: v in s.at && w in s.at && !s.at[v].Done? && !s.at[w].Done? && s.at[v].id == s.at[w].id ==> v == w
  }

  ghost predicate Owns(s: System) {
    forall w :: w in s.at && (s.at[w].Registered? || s.at[w].Blocked? || s.at[w].Leaving?)
      ==> s.at[w].id in s.events && s.events[s.at[w].id] == w
  }

  /** No lost wakeup: a call blocked on its event although the run is observed has its event set, unless
      the consumer is between its two critical sections for that run. */
  ghost predicate NoLostWakeup(s: System) {
    forall w :: w in s.at && s.at[w].Blocked? && s.at[w].id in s.observed
      ==> w in s.signalled || s.consumer == Between(s.at[w].id)
  }

  /** The completion of a run that was not missed is on its way, or recorded, for every call waiting for it. */
  ghost predicate Tracked(s: System) {
    forall w :: w in s.at && Waits(s.at[w]) && s.at[w].id in s.finished && s.at[w].id !in s.missed
      ==> s.at[w].id in s.queue || s.at[w].id in s.observed
  }

  predicate Waits(ph: Phase) { ph.Unfinished? || ph.NotSeen? || ph.Registered? || ph.Blocked? }

  /** Whatever the consumer has, or has had, in hand was not missed; so no call for a missed run is signalled. */
  ghost predicate Unmissed(s: System) {
    && s.missed <= s.finished
    && (forall id :: id in s.queue || id in s.observed ==> id in s.finished && id !in s.missed)
    && (s.consumer.Between? ==> s.consumer.id in s.finished && s.consumer.id !in s.missed)
    && (forall id :: id in s.events ==> s.events[id] in s.at && s.at[s.events[id]].id == id)
    && (forall w :: w in s.signalled ==> w in s.at && s.at[w].id in s.finished && s.at[w].id !in s.missed)
  }

  lemma StepKeepsAlone(s: System, c: Step, s': System)
    requires Alone(s) && Next(s, c, s')
    ensures Alone(s')
  {
    if c.Ask? {
      forall v | v in s.at && !s.at[v].Done? ensures s.at[v].id != c.id {}
    }
  }

  lemma StepKeepsOwns(s: System, c: Step, s': System)
    requires Alone(s) && Owns(s) && Next(s, c, s')
    ensures Owns(s')
  {}

  lemma StepKeepsWakeups(s: System, c: Step, s': System)
    requires Exclusive(s) && NoLostWakeup(s) && Next(s, c, s')
    ensures NoLostWakeup(s')
  {}

  lemma StepKeepsTracked(s: System, c: Step, s': System)
    requires Tracked(s) && Next(s, c, s')
    ensures Tracked(s')
  {
    match c {
      case Observe =>
        forall id | id in s.queue ensures id in s'.queue || id in s'.observed {
          assert s.queue == [s.queue[0]] + s'.queue;
        }
      case Evict(id) =>
        forall w | w in s.at && Waits(s.at[w]) ensures s.at[w].id != id { assert !s.at[w].Done?; }
      case _ =>
    }
  }

  lemma StepKeepsUnmissed(s: System, c: Step, s': System)
    requires Unmissed(s) && Next(s, c, s')
    ensures Unmissed(s')
  {
    if c.Observe? { assert s.queue == [s.queue[0]] + s'.queue; }
    if c.Finish? { assert forall id :: id in s'.queue ==> id in s.queue || (id == c.id && s.subscribed); }
  }

  lemma {:induction false} Invariants(r: Run, i: nat)
    requires IsRun(r) && i < |r.states|
    ensures var s := r.states[i]; Exclusive(s) && NoLostWakeup(s) && Tracked(s) && Unmissed(s)
  {
    if i > 0 {
      Invariants(r, i - 1);
      StepKeepsAlone(r.states[i - 1], r.steps[i - 1], r.states[i]);
      StepKeepsOwns(r.states[i - 1], r.steps[i - 1], r.states[i]);
      StepKeepsWakeups(r.states[i - 1], r.steps[i - 1], r.states[i]);
      StepKeepsTracked(r.states[i - 1], r.steps[i - 1], r.states[i]);
      StepKeepsUnmissed(r.states[i - 1], r.steps[i - 1], r.states[i]);
    }
  }

  /** In every interleaving no wakeup is lost. */
  lemma NoWakeupLost(r: Run, i: nat, w: Waiter)
    requires IsRun(r) && i < |r.states| && w in r.states[i].at
    requires r.states[i].at[w].Blocked? && r.states[i].at[w].id in r.states[i].observed
    ensures w in r.states[i].signalled || r.states[i].consumer == Between(r.states[i].at[w].id)
  {
    Invariants(r, i);
  }

  /** Once the consumer has processed everything it received, a call that is still blocked for a finished
      run is signalled if and only if the run did not finish before the consumer had subscribed. */
  lemma SignalledUnlessMissed(r: Run, i: nat, w: Waiter)
    requires IsRun(r) && i < |r.states| && w in r.states[i].at && r.states[i].at[w].Blocked?
    requires r.states[i].consumer.Idle? && r.states[i].queue == [] && r.states[i].at[w].id in r.states[i].finished
    ensures w in r.states[i].signalled <==> r.states[i].at[w].id !in r.states[i].missed
  {
    Invariants(r, i);
  }

  /** A call that reads an unfinished state once the consumer has subscribed waits for a run that is never missed. */
  lemma {:induction false} ReadAfterSubscription(r: Run, i: nat, j: nat, id: Id)
    requires IsRun(r) && i <= j < |r.states| && r.states[i].subscribed && id !in r.states[i].finished
    ensures r.states[j].subscribed && id !in r.states[j].missed
    decreases j
  {
    if i < j { ReadAfterSubscription(r, i, j - 1, id); } else { Invariants(r, i); }
  }

  /** A call returns only when its run is finished, unless it timed out. */
  lemma {:induction false} ReturnsOnlyWhenFinished(r: Run, i: nat, w: Waiter)
    requires IsRun(r) && i < |r.states| && w in r.states[i].at && (r.states[i].at[w].Leaving? || r.states[i].at[w].Done?)
    requires forall j :: 0 <= j < i ==> r.steps[j] != TimeOut(w)
    ensures r.states[i].at[w].id in r.states[i].finished
  {
    if i > 0 {
      Invariants(r, i - 1);
      var s := r.states[i - 1];
      assert Next(s, r.steps[i - 1], r.states[i]) && r.steps[i - 1] != TimeOut(w);
      if w in s.at && (s.at[w].Leaving? || s.at[w].Done?) { ReturnsOnlyWhenFinished(r, i - 1, w); }
    }
  }

  /** The dictionary of events keeps no entry of a call that has returned. */
  ghost predicate NoStaleEvents(s: System) {
    forall id :: id in s.events ==>
      && s.events[id] in s.at && s.at[s.events[id]].id == id
      && (s.at[s.events[id]].Registered? || s.at[s.events[id]].Blocked? || s.at[s.events[id]].Leaving?)
  }

  lemma {:induction false} EventsAreRemoved(r: Run, i: nat)
    requires IsRun(r) && i < |r.states|
    ensures NoStaleEvents(r.states[i])
  {
    if i > 0 {
      EventsAreRemoved(r, i - 1);
      Invariants(r, i - 1);
      StepRemoves(r.states[i - 1], r.steps[i - 1], r.states[i]);
    }
  }

  lemma StepRemoves(s: System, c: Step, s': System)
    requires NoStaleEvents(s) && Exclusive(s) && Next(s, c, s')
    ensures NoStaleEvents(s')
  {}

  /** Missing is possible for every call and every run: starting the service does not wait for its
      subscription, and a run that finishes in between leaves the call blocked with nothing left to wake it. */
  lemma EarlyReadCanBlock(w: Waiter, id: Id) returns (r: Run)
    ensures IsRun(r)
    ensures var s := r.states[|r.states| - 1];
            s.subscribed && s.consumer.Idle? && s.queue == [] && w in s.at
            && s.at[w] == Blocked(id) && id in s.finished && w !in s.signalled
  {
    var s0 := System(false, {}, {}, [], Idle, {}, map[], {}, map[]);
    var s1 := s0.(at := map[w := Asked(id)]);
    var s2 := s1.(at := map[w := Unfinished(id)]);
    var s3 := s2.(finished := {id}, missed := {id});
    var s4 := s3.(subscribed := true);
    var s5 := s4.(at := map[w := NotSeen(id)]);
    var s6 := s5.(events := map[id := w], at := map[w := Registered(id)]);
    r := Extend(Run([s0], []), Ask(w, id), s1);
    r := Extend(r, ReadState(w), s2);
    r := Extend(r, Finish(id), s3);
    r := Extend(r, Subscribe, s4);
    r := Extend(r, Check(w), s5);
    r := Extend(r, Register(w), s6);
    r := Extend(r, Recheck(w), s6.(at := map[w := Blocked(id)]));
  }

  lemma Extend(r: Run, c: Step, s: System) returns (r': Run)
    requires IsRun(r) && Next(r.states[|r.states| - 1], c, s)
    ensures IsRun(r') && r'.states[|r'.states| - 1] == s
  {
    r' := Run(r.states + [s], r.steps + [c]);
  }
}
