/** Admission of task runs by a task worker: a capacity limiter whose tokens are borrowed on behalf of
    run ids, and the bookkeeping of runs in flight. */
module TaskWorker {
  import opened Wrappers

  type Id = nat
  type TaskKey = string

  /** The fixed part: the served tasks, each run's task, and the limit; a limit of zero is none. */
  datatype Config = Config(registered: set<TaskKey>, taskOf: Id -> TaskKey, limit: Option<nat>)
  {
    predicate Limited() { limit.Some? && limit.value != 0 }
  }

  /** `scheduled` are runs that were admitted and have not begun, `running` those whose body has begun and
      not ended, both with repetitions; `stranded` were admitted but are of no served task. */
  datatype System = System(borrowers: set<Id>, scheduled: multiset<Id>, running: multiset<Id>, stranded: multiset<Id>,
                           inFlight: map<TaskKey, set<Id>>, finished: map<TaskKey, nat>, begun: map<TaskKey, nat>)

  datatype Step = Admit(id: Id) | Refuse(id: Id) | Begin(id: Id) | End(id: Id)

  predicate Served(c: Config, s: System, key: TaskKey) { key in c.registered && key in s.inFlight && key in s.begun }

  function Begun(s: System, id: Id, key: TaskKey): System
    requires key in s.inFlight && key in s.begun
  {
    s.(scheduled := s.scheduled - multiset{id}, running := s.running + multiset{id},
       inFlight := s.inFlight[key := s.inFlight[key] + {id}], begun := s.begun[key := s.begun[key] + 1])
  }

  function Ended(s: System, id: Id, key: TaskKey): System
    requires key in s.inFlight && key in s.finished
  {
    s.(running := s.running - multiset{id}, inFlight := s.inFlight[key := s.inFlight[key] - {id}],
       finished := s.finished[key := s.finished[key] + 1], borrowers := s.borrowers - {id})
  }

  /** The look-up of an unserved task raises before the `try` that would release the token. */
  function Strand(s: System, id: Id): System {
    s.(scheduled := s.scheduled - multiset{id}, stranded := s.stranded + multiset{id})
  }

  ghost predicate Next(c: Config, s: System, step: Step, s': System) {
    var id := step.id;
    var key := c.taskOf(id);
    match step
    case Admit(_) =>
      // blocks while all tokens are borrowed; without a limit everything is admitted
      (c.Limited() ==> id !in s.borrowers && |s.borrowers| < c.limit.value)
      && s' == s.(borrowers := if c.Limited() then s.borrowers + {id} else s.borrowers,
                  scheduled := s.scheduled + multiset{id})
    case Refuse(_) => c.Limited() && id in s.borrowers && s' == s
    case Begin(_) =>
      id in s.scheduled && s' == if Served(c, s, key) then Begun(s, id, key) else Strand(s, id)
    case End(_) =>
      id in s.running && key in s.inFlight && key in s.finished && s' == Ended(s, id, key)
  }

  ghost predicate Init(c: Config, s: System) {
    s == System({}, multiset{}, multiset{}, multiset{}, map k | k in c.registered :: {},
                map k | k in c.registered :: 0, map k | k in c.registered :: 0)
  }

  datatype Run = Run(states: seq<System>, steps: seq<Step>)

  ghost predicate IsRun(c: Config, r: Run) {
    && |r.states| == |r.steps| + 1 && Init(c, r.states[0])
    && forall i :: 0 <= i < |r.steps| ==> Next(c, r.states[i], r.steps[i], r.states[i + 1])
  }

  ghost predicate Keys(c: Config, s: System) {
    s.inFlight.Keys == s.finished.Keys == s.begun.Keys == c.registered
  }

  /** Tokens are held for exactly the runs that are scheduled, running or stranded, once each. */
  ghost predicate Tokens(s: System) {
    forall id :: (if id in s.borrowers then 1 else 0) == s.scheduled[id] + s.running[id] + s.stranded[id]
  }

  /** What is in flight for a task are its running runs. */
  ghost predicate Flights(c: Config, s: System)
    requires Keys(c, s)
  {
    && (forall id :: id in s.running ==> c.taskOf(id) in c.registered)
    && (forall k, id :: k in c.registered ==> (id in s.inFlight[k] <==> id in s.running && c.taskOf(id) == k))
  }

  ghost predicate Counts(c: Config, s: System)
    requires Keys(c, s)
  {
    forall k :: k in c.registered ==> s.begun[k] == s.finished[k] + |s.inFlight[k]|
  }

  ghost predicate Stranded(c: Config, s: System) { forall id :: id in s.stranded ==> c.taskOf(id) !in c.registered }

  /** No run is running twice, and the books of every served task agree. */
  ghost predicate Books(c: Config, s: System) {
    Keys(c, s) && Flights(c, s) && Counts(c, s) && forall id :: s.running[id] <= 1
  }

  ghost predicate Inv(c: Config, s: System)
    requires c.Limited()
  {
    Books(c, s) && Tokens(s) && Stranded(c, s) && |s.borrowers| <= c.limit.value
  }

  lemma StepKeepsTokens(c: Config, s: System, step: Step, s': System)
    requires c.Limited() && Tokens(s) && Next(c, s, step, s')
    ensures Tokens(s') && (|s.borrowers| <= c.limit.value ==> |s'.borrowers| <= c.limit.value)
    ensures step.Begin? ==> step.id !in s.running
  {
    var id := step.id;
    assert (if id in s.borrowers then 1 else 0) == s.scheduled[id] + s.running[id] + s.stranded[id];
  }

  /** Changing what is in flight for the task of `id` along with what runs. */
  lemma FlightsChanged(c: Config, s: System, id: Id, now: set<Id>, s': System)
    requires Keys(c, s) && Keys(c, s') && Flights(c, s) && c.taskOf(id) in c.registered
    requires s'.inFlight == s.inFlight[c.taskOf(id) := now]
    requires forall i :: i != id ==> (i in s'.running <==> i in s.running) && (i in now <==> i in s.inFlight[c.taskOf(id)])
    requires id in now <==> id in s'.running
    ensures Flights(c, s')
  {}

  lemma CountsChanged(c: Config, s: System, key: TaskKey, now: set<Id>, s': System)
    requires Keys(c, s) && Keys(c, s') && Counts(c, s) && key in c.registered
    requires s'.inFlight == s.inFlight[key := now]
    requires forall k :: k in c.registered && k != key ==> s'.begun[k] == s.begun[k] && s'.finished[k] == s.finished[k]
    requires s'.begun[key] == s'.finished[key] + |now|
    ensures Counts(c, s')
  {}

  lemma BeginKeeps(c: Config, s: System, id: Id, key: TaskKey)
    requires Books(c, s) && key == c.taskOf(id) && key in c.registered && id !in s.running
    ensures Books(c, Begun(s, id, key))
  {
    var s' := Begun(s, id, key);
    var now := s.inFlight[key] + {id};
    assert id !in s.inFlight[key];
    FlightsChanged(c, s, id, now, s');
    CountsChanged(c, s, key, now, s');
  }

  lemma EndKeeps(c: Config, s: System, id: Id, key: TaskKey)
    requires Books(c, s) && key == c.taskOf(id) && key in c.registered && id in s.running
    ensures Books(c, Ended(s, id, key))
  {
    var s' := Ended(s, id, key);
    var now := s.inFlight[key] - {id};
    assert s.running[id] == 1 && s'.running[id] == 0;
    assert id in s.inFlight[key] && |now| == |s.inFlight[key]| - 1;
    FlightsChanged(c, s, id, now, s');
    CountsChanged(c, s, key, now, s');
  }

  /** Admitting, refusing and stranding do not touch the books. */
  lemma OthersKeep(c: Config, s: System, s': System)
    requires Books(c, s)
    requires s'.running == s.running && s'.inFlight == s.inFlight && s'.finished == s.finished && s'.begun == s.begun
    ensures Books(c, s')
  {}

  /** With or without a limit, only beginning a run that is running already can spoil the books. */
  lemma StepKeepsBooks(c: Config, s: System, step: Step, s': System)
    requires Books(c, s) && Next(c, s, step, s') && !(step.Begin? && step.id in s.running)
    ensures Books(c, s')
  {
    var key := c.taskOf(step.id);
    if step.Begin? && key in c.registered {
      BeginKeeps(c, s, step.id, key);
    } else if step.End? {
      EndKeeps(c, s, step.id, key);
    } else {
      OthersKeep(c, s, s');
    }
  }

  lemma StepKeepsStranded(c: Config, s: System, step: Step, s': System)
    requires Keys(c, s) && Stranded(c, s) && Next(c, s, step, s')
    ensures Stranded(c, s')
  {}

  lemma StepKeepsInv(c: Config, s: System, step: Step, s': System)
    requires c.Limited() && Inv(c, s) && Next(c, s, step, s')
    ensures Inv(c, s')
  {
    StepKeepsTokens(c, s, step, s');
    StepKeepsBooks(c, s, step, s');
    StepKeepsStranded(c, s, step, s');
  }

  lemma {:induction false} RunKeepsInv(c: Config, r: Run, i: nat)
    requires c.Limited() && IsRun(c, r) && i < |r.states|
    ensures Inv(c, r.states[i])
  {
    if i > 0 {
      RunKeepsInv(c, r, i - 1);
      StepKeepsInv(c, r.states[i - 1], r.steps[i - 1], r.states[i]);
    }
  }

  /** With a limit, in every interleaving: the token holders are exactly the scheduled, running and
      stranded runs and never exceed the limit; no run is in there twice; per served task the bodies
      begun are those finished and those in flight. */
  lemma Admission(c: Config, r: Run, i: nat, id: Id, key: TaskKey)
    requires c.Limited() && IsRun(c, r) && i < |r.states| && key in c.registered
    ensures var s := r.states[i];
            && |s.borrowers| <= c.limit.value
            && (id in s.borrowers <==> id in s.scheduled || id in s.running || id in s.stranded)
            && s.scheduled[id] + s.running[id] + s.stranded[id] <= 1
            && key in s.begun && key in s.finished && key in s.inFlight
            && s.begun[key] == s.finished[key] + |s.inFlight[key]|
  {
    RunKeepsInv(c, r, i);
    var s := r.states[i];
    assert (if id in s.borrowers then 1 else 0) == s.scheduled[id] + s.running[id] + s.stranded[id];
  }

  /** A run that holds a token is not started again: only a refusal is possible for it. */
  lemma NotStartedAgain(c: Config, r: Run, i: nat)
    requires c.Limited() && IsRun(c, r) && i < |r.steps| && r.steps[i].id in r.states[i].borrowers
    ensures !r.steps[i].Admit? && (r.steps[i].Begin? ==> r.states[i].running[r.steps[i].id] == 0)
  {
    RunKeepsInv(c, r, i);
    var s, id := r.states[i], r.steps[i].id;
    assert Next(c, s, r.steps[i], r.states[i + 1]);
    assert (if id in s.borrowers then 1 else 0) == s.scheduled[id] + s.running[id] + s.stranded[id];
  }

  /** A quiescent worker holds tokens for exactly the stranded runs, so for none if every run it admitted
      was of a served task. */
  lemma QuiescentHoldsNone(c: Config, r: Run, i: nat)
    requires c.Limited() && IsRun(c, r) && i < |r.states|
    requires r.states[i].scheduled == r.states[i].running == multiset{}
    ensures forall id :: id in r.states[i].borrowers <==> id in r.states[i].stranded
    ensures (forall j :: 0 <= j < i && r.steps[j].Admit? ==> c.taskOf(r.steps[j].id) in c.registered)
            ==> r.states[i].borrowers == {}
  {
    RunKeepsInv(c, r, i);
    var s := r.states[i];
    forall id ensures id in s.borrowers <==> id in s.stranded {
      assert (if id in s.borrowers then 1 else 0) == s.scheduled[id] + s.running[id] + s.stranded[id];
    }
    if forall j :: 0 <= j < i && r.steps[j].Admit? ==> c.taskOf(r.steps[j].id) in c.registered {
      OnlyServed(c, r, i);
    }
  }

  lemma {:induction false} OnlyServed(c: Config, r: Run, i: nat)
    requires c.Limited() && IsRun(c, r) && i < |r.states|
    requires forall j :: 0 <= j < i && r.steps[j].Admit? ==> c.taskOf(r.steps[j].id) in c.registered
    ensures forall id :: id in r.states[i].scheduled ==> c.taskOf(id) in c.registered
    ensures r.states[i].stranded == multiset{}
  {
    if i > 0 {
      OnlyServed(c, r, i - 1);
      RunKeepsInv(c, r, i - 1);
      StepKeepsServed(c, r.states[i - 1], r.steps[i - 1], r.states[i]);
    }
  }

  lemma StepKeepsServed(c: Config, s: System, step: Step, s': System)
    requires Keys(c, s) && Next(c, s, step, s') && (step.Admit? ==> c.taskOf(step.id) in c.registered)
    requires (forall id :: id in s.scheduled ==> c.taskOf(id) in c.registered) && s.stranded == multiset{}
    ensures (forall id :: id in s'.scheduled ==> c.taskOf(id) in c.registered) && s'.stranded == multiset{}
  {}

  /** Step `j` begins the body of a run that is running already. */
  predicate Doubled(r: Run, j: nat)
    requires j < |r.steps| <= |r.states|
  {
    r.steps[j].Begin? && r.steps[j].id in r.states[j].running
  }

  ghost predicate CountedAt(c: Config, s: System) { Keys(c, s) && Counts(c, s) }

  lemma {:induction false} BooksUntilDoubled(c: Config, r: Run, i: nat)
    requires IsRun(c, r) && i < |r.states| && forall j :: 0 <= j < i ==> !Doubled(r, j)
    ensures Books(c, r.states[i])
  {
    if i > 0 {
      BooksUntilDoubled(c, r, i - 1);
      assert !Doubled(r, i - 1);
      StepKeepsBooks(c, r.states[i - 1], r.steps[i - 1], r.states[i]);
    }
  }

  /** With or without a limit: the bodies begun are those finished and those in flight, for every task and
      throughout, if and only if no run was begun while it was running. */
  lemma CountedUnlessDoubled(c: Config, r: Run, i: nat)
    requires IsRun(c, r) && i < |r.states|
    ensures (forall j :: 0 <= j <= i ==> CountedAt(c, r.states[j])) <==> (forall j :: 0 <= j < i ==> !Doubled(r, j))
  {
    if forall j :: 0 <= j < i ==> !Doubled(r, j) {
      forall j | 0 <= j <= i ensures CountedAt(c, r.states[j]) { BooksUntilDoubled(c, r, j); }
    } else {
      var j := FirstDoubled(r, i);
      BooksUntilDoubled(c, r, j);
      var s, id := r.states[j], r.steps[j].id;
      var key := c.taskOf(id);
      assert Next(c, s, r.steps[j], r.states[j + 1]) && id in s.inFlight[key];
      assert s.inFlight[key] + {id} == s.inFlight[key];
      assert !CountedAt(c, r.states[j + 1]);
    }
  }

  lemma FirstDoubled(r: Run, i: nat) returns (j: nat)
    requires i <= |r.steps| <= |r.states| && exists j :: 0 <= j < i && Doubled(r, j)
    ensures j < i && Doubled(r, j) && forall k :: 0 <= k < j ==> !Doubled(r, k)
  {
    j := 0;
    while !Doubled(r, j)
      invariant j < i && forall k :: 0 <= k < j ==> !Doubled(r, k)
      decreases i - j
    {
      j := j + 1;
    }
  }

  /** A run of a served task can be begun while it is running if and only if there is no limit. */
  lemma DoubledOnlyWithoutLimit(c: Config, id: Id)
    requires c.taskOf(id) in c.registered
    ensures (exists r, j :: IsRun(c, r) && 0 <= j < |r.steps| && r.steps[j].id == id && Doubled(r, j))
            <==> c.limit == None || c.limit == Some(0)
  {
    if c.Limited() {
      forall r, j | IsRun(c, r) && 0 <= j < |r.steps| ensures !Doubled(r, j) {
        RunKeepsInv(c, r, j);
        StepKeepsTokens(c, r.states[j], r.steps[j], r.states[j + 1]);
      }
    } else {
      var r := UnlimitedStartsTwice(c, id);
      assert IsRun(c, r) && Doubled(r, 3);
    }
  }

  /** Without a limit every run can be admitted twice and begun twice: it is then in flight only once, and the
      bodies begun are no longer those finished and those in flight. */
  lemma UnlimitedStartsTwice(c: Config, id: Id) returns (r: Run)
    requires !c.Limited() && c.taskOf(id) in c.registered
    ensures IsRun(c, r) && |r.steps| == 4 && r.steps[3] == Begin(id) && Doubled(r, 3)
    ensures var s, key := r.states[4], c.taskOf(id);
            s.running[id] == 2 && CountsOf(s, key) == Some((2, 0, {id}))
  {
    var key := c.taskOf(id);
    var s0 := System({}, multiset{}, multiset{}, multiset{}, map k | k in c.registered :: {},
                     map k | k in c.registered :: 0, map k | k in c.registered :: 0);
    var s1 := s0.(scheduled := s0.scheduled + multiset{id});
    var s2 := s1.(scheduled := s1.scheduled + multiset{id});
    var s3 := Begun(s2, id, key);
    var s4 := Begun(s3, id, key);
    r := Extend(c, Run([s0], []), Admit(id), s1);
    r := Extend(c, r, Admit(id), s2);
    r := Extend(c, r, Begin(id), s3);
    r := Extend(c, r, Begin(id), s4);
  }

  /** The bodies begun and finished for a task, and its runs in flight. */
  function CountsOf(s: System, key: TaskKey): Option<(nat, nat, set<Id>)> {
    if key in s.begun && key in s.finished && key in s.inFlight then Some((s.begun[key], s.finished[key], s.inFlight[key]))
    else None
  }

  lemma Extend(c: Config, r: Run, step: Step, s: System) returns (r': Run)
    requires IsRun(c, r) && Next(c, r.states[|r.states| - 1], step, s)
    ensures IsRun(c, r') && r' == Run(r.states + [s], r.steps + [step])
  {
    r' := Run(r.states + [s], r.steps + [step]);
  }
}
