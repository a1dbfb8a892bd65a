/** `as_completed`: a generator that drains finished futures while callbacks, on other threads, add them.
    Every operation on the shared list, event and lock is one step. */
module AsCompleted {
  type Future = nat

  /** Where the generator is. */
  datatype Main =
    | Initial(rest: seq<Future>)       // yielding the futures that were final at the start
    | Registering(rest: seq<Future>)   // adding callbacks to the pending ones
    | Test                             // `while pending`
    | Waiting                          // on the event
    | Woken                            // the event was set; about to take the lock
    | Holding                          // holds the lock
    | Took(batch: seq<Future>)         // swapped the list for an empty one, still holds the lock
    | Yielding(batch: seq<Future>)
    | Exhausted

  datatype Lock = Free | ByMain | ByCallback(future: Future, appended: bool)

  datatype System = System(futures: set<Future>, pending: set<Future>, yielded: seq<Future>,
                           armed: set<Future>,         // registered callbacks that have not run yet
                           finished: seq<Future>, event: bool, lock: Lock, main: Main)

  datatype Step = MainStep | Fire(future: Future) | Append | SetEvent

  ghost predicate Next(s: System, c: Step, s': System) {
    match c
    case MainStep => MainNext(s, s')
    case Fire(f) => f in s.armed && s.lock.Free? && s' == s.(armed := s.armed - {f}, lock := ByCallback(f, false))
    case Append =>
      s.lock.ByCallback? && !s.lock.appended
      && s' == s.(finished := s.finished + [s.lock.future], lock := ByCallback(s.lock.future, true))
    case SetEvent => s.lock.ByCallback? && s.lock.appended && s' == s.(event := true, lock := Free)
  }

  ghost predicate MainNext(s: System, s': System) {
    match s.main
    case Initial(rest) =>
      if rest == [] then exists order :: Lists(order, s.pending) && s' == s.(main := Registering(order))
      else s' == s.(yielded := s.yielded + [rest[0]], main := Initial(rest[1..]))
    case Registering(rest) =>
      s' == if rest == [] then s.(main := Test) else s.(armed := s.armed + {rest[0]}, main := Registering(rest[1..]))
    case Test => s' == s.(main := if s.pending == {} then Exhausted else Waiting)
    case Waiting => s.event && s' == s.(main := Woken)
    case Woken => s.lock.Free? && s' == s.(lock := ByMain, main := Holding)
    case Holding => s' == s.(finished := [], main := Took(s.finished))
    case Took(batch) => s' == s.(event := false, lock := Free, main := Yielding(batch))
    case Yielding(batch) =>
      s' == if batch == [] then s.(main := Test)
            else s.(pending := s.pending - {batch[0]}, yielded := s.yielded + [batch[0]], main := Yielding(batch[1..]))
    case Exhausted => false
  }

  /** `order` lists the members of `fs`, each once. */
  ghost predicate Lists(order: seq<Future>, fs: set<Future>) { forall f :: Occurs(order, f) == In(f, fs) }

  /** How often `f` is in a list, and in a set. */
  function Occurs(fs: seq<Future>, f: Future): nat {
    if fs == [] then 0 else (if fs[0] == f then 1 else 0) + Occurs(fs[1..], f)
  }

  function In(f: Future, fs: set<Future>): nat { if f in fs then 1 else 0 }

  lemma {:induction false} OccursSnoc(fs: seq<Future>, x: Future, f: Future)
    ensures Occurs(fs + [x], f) == Occurs(fs, f) + if x == f then 1 else 0
  {
    if fs == [] {
      assert fs + [x] == [x];
    } else {
      assert (fs + [x])[1..] == fs[1..] + [x];
      OccursSnoc(fs[1..], x, f);
    }
  }

  /** `final` are the futures that have a final state when the generator starts. */
  ghost predicate Init(s: System, final: set<Future>) {
    && final <= s.futures && s.main.Initial? && Lists(s.main.rest, final)
    && s.pending == s.futures - final && s.yielded == [] && s.armed == {}
    && s.finished == [] && !s.event && s.lock.Free?
  }

  datatype Run = Run(states: seq<System>, steps: seq<Step>)

  ghost predicate IsRun(r: Run, final: set<Future>) {
    && |r.states| == |r.steps| + 1 && Init(r.states[0], final)
    && forall i :: 0 <= i < |r.steps| ==> Next(r.states[i], r.steps[i], r.states[i + 1])
  }

  function Before(m: Main): seq<Future> { if m.Initial? then m.rest else [] }
  function InBatch(m: Main): seq<Future> { match m case Took(b) => b case Yielding(b) => b case _ => [] }
  function InCallback(l: Lock, f: Future): nat { if l.ByCallback? && !l.appended && l.future == f then 1 else 0 }
  function Unregistered(s: System, f: Future): nat {
    match s.main
    case Initial(_) => In(f, s.pending)
    case Registering(rest) => Occurs(rest, f)
    case _ => 0
  }

  /** Every future is yielded, pending, or about to be yielded at the start: one of these, once. */
  ghost predicate Conserved(s: System) {
    forall f :: In(f, s.futures) == Occurs(s.yielded, f) + Occurs(Before(s.main), f) + In(f, s.pending)
  }

  /** Every pending future is in exactly one place on its way to being yielded. */
  ghost predicate Placed(s: System) {
    forall f :: In(f, s.pending) == Unregistered(s, f) + In(f, s.armed) + InCallback(s.lock, f)
                                    + Occurs(s.finished, f) + Occurs(InBatch(s.main), f)
  }

  /** The event agrees with the list whenever nobody holds the lock. */
  ghost predicate Signalled(s: System) {
    && (s.lock.Free? ==> (s.event <==> s.finished != []))
    && (s.lock.ByCallback? ==> (if s.lock.appended then s.finished != [] else s.event <==> s.finished != []))
    && (s.lock.ByMain? <==> s.main.Holding? || s.main.Took?)
    && (s.main.Woken? || s.main.Holding? || s.main.Took? ==> s.event)
    && (s.main.Holding? ==> s.finished != [])
    && (s.main.Took? ==> s.main.batch != [] && s.finished == [])
  }

  lemma StepConserves(s: System, c: Step, s': System)
    requires Conserved(s) && Placed(s) && Next(s, c, s')
    ensures Conserved(s')
  {
    forall f ensures In(f, s'.futures) == Occurs(s'.yielded, f) + Occurs(Before(s'.main), f) + In(f, s'.pending) {
      var before := In(f, s.pending);
      if c.MainStep? && s.main.Initial? && s.main.rest != [] { OccursSnoc(s.yielded, s.main.rest[0], f); }
      if c.MainStep? && s.main.Yielding? && s.main.batch != [] {
        OccursSnoc(s.yielded, s.main.batch[0], f);
        BatchPending(s, s.main.batch[0]);
      }
    }
  }

  lemma BatchPending(s: System, f: Future)
    requires Placed(s) && Occurs(InBatch(s.main), f) >= 1
    ensures f in s.pending && Occurs(InBatch(s.main), f) == 1
  {
    assert In(f, s.pending) <= 1;
  }

  lemma StepPlaces(s: System, c: Step, s': System)
    requires Placed(s) && Signalled(s) && Next(s, c, s')
    ensures Placed(s')
  {
    forall f
      ensures In(f, s'.pending) == Unregistered(s', f) + In(f, s'.armed) + InCallback(s'.lock, f)
                                   + Occurs(s'.finished, f) + Occurs(InBatch(s'.main), f)
    {
      assert In(f, s.pending) == Unregistered(s, f) + In(f, s.armed) + InCallback(s.lock, f)
                                 + Occurs(s.finished, f) + Occurs(InBatch(s.main), f);
      match c {
        case MainStep =>
          match s.main {
            case Initial(rest) => if rest == [] { assert Occurs(s'.main.rest, f) == In(f, s.pending); }
            case Registering(rest) =>
              if rest != [] {
                var g := rest[0];
                assert In(g, s.pending) == Occurs(rest, g) + In(g, s.armed) + InCallback(s.lock, g)
                                           + Occurs(s.finished, g) + Occurs(InBatch(s.main), g);
                assert g !in s.armed;
              }
            case Yielding(batch) => if batch != [] { BatchPending(s, batch[0]); }
            case _ =>
          }
        case Fire(g) => assert In(g, s.armed) == 1;
        case Append => OccursSnoc(s.finished, s.lock.future, f);
        case SetEvent =>
      }
    }
  }

  lemma StepSignals(s: System, c: Step, s': System)
    requires Signalled(s) && Next(s, c, s')
    ensures Signalled(s')
  {}

  lemma {:induction false} Invariants(r: Run, final: set<Future>, i: nat)
    requires IsRun(r, final) && i < |r.states|
    ensures var s := r.states[i]; Conserved(s) && Placed(s) && Signalled(s) && s.futures == r.states[0].futures
  {
    if i == 0 {
      var s := r.states[0];
      forall f ensures In(f, s.futures) == Occurs(s.yielded, f) + Occurs(Before(s.main), f) + In(f, s.pending) {
        assert Occurs(s.main.rest, f) == In(f, final);
      }
    } else {
      Invariants(r, final, i - 1);
      StepConserves(r.states[i - 1], r.steps[i - 1], r.states[i]);
      StepPlaces(r.states[i - 1], r.steps[i - 1], r.states[i]);
      StepSignals(r.states[i - 1], r.steps[i - 1], r.states[i]);
    }
  }

  /** No lost signal: whenever the lock is free the event is set exactly when the list has futures. */
  lemma NoLostSignal(r: Run, final: set<Future>, i: nat)
    requires IsRun(r, final) && i < |r.states| && r.states[i].lock.Free?
    ensures r.states[i].event <==> r.states[i].finished != []
  {
    Invariants(r, final, i);
  }

  /** No future is yielded twice, and once the initial ones are out, those yielded and those pending
      partition the given futures. */
  lemma YieldedAndPendingPartition(r: Run, final: set<Future>, i: nat, f: Future)
    requires IsRun(r, final) && i < |r.states| && !r.states[i].main.Initial?
    ensures var s := r.states[i];
            && Occurs(s.yielded, f) <= 1
            && (f in r.states[0].futures <==> f in s.yielded || f in s.pending)
            && !(f in s.yielded && f in s.pending)
  {
    Invariants(r, final, i);
    var s := r.states[i];
    assert In(f, s.futures) == Occurs(s.yielded, f) + In(f, s.pending);
    OccursMember(s.yielded, f);
  }

  lemma {:induction false} OccursMember(fs: seq<Future>, f: Future)
    ensures f in fs <==> Occurs(fs, f) >= 1
  {
    if fs != [] {
      assert fs == [fs[0]] + fs[1..];
      OccursMember(fs[1..], f);
    }
  }

  /** When the generator ends it has yielded every future exactly once. */
  lemma EachYieldedOnce(r: Run, final: set<Future>, i: nat)
    requires IsRun(r, final) && i < |r.states| && r.states[i].main.Exhausted?
    ensures Lists(r.states[i].yielded, r.states[0].futures)
  {
    Invariants(r, final, i);
    ExhaustedEmpty(r, final, i);
  }

  lemma {:induction false} ExhaustedEmpty(r: Run, final: set<Future>, i: nat)
    requires IsRun(r, final) && i < |r.states| && r.states[i].main.Exhausted?
    ensures r.states[i].pending == {}
  {
    if i > 0 && r.states[i - 1].main.Exhausted? { ExhaustedEmpty(r, final, i - 1); }
  }

  /** Every round yields: the batch the generator takes is never empty, and consists of pending futures,
      so each round strictly shrinks what is pending. */
  lemma EachRoundShrinks(r: Run, final: set<Future>, i: nat)
    requires IsRun(r, final) && i < |r.states| && r.states[i].main.Took?
    ensures var s := r.states[i];
            s.main.batch != [] && forall f :: f in s.main.batch ==> f in s.pending && Occurs(s.main.batch, f) == 1
  {
    Invariants(r, final, i);
    var s := r.states[i];
    forall f | f in s.main.batch ensures f in s.pending && Occurs(s.main.batch, f) == 1 {
      OccursMember(s.main.batch, f);
      BatchPending(s, f);
    }
  }

  /** No deadlock: if the generator waits, every callback has run and nobody holds the lock, then the
      event is set and it can go on. */
  lemma WaitEnds(r: Run, final: set<Future>, i: nat)
    requires IsRun(r, final) && i < |r.states|
    requires var s := r.states[i]; s.main.Waiting? && s.armed == {} && s.lock.Free?
    ensures r.states[i].event
  {
    Invariants(r, final, i);
    WaitingNonEmpty(r, final, i);
    var f :| f in r.states[i].pending;
    assert Occurs(r.states[i].finished, f) == 1;
  }

  lemma {:induction false} WaitingNonEmpty(r: Run, final: set<Future>, i: nat)
    requires IsRun(r, final) && i < |r.states| && r.states[i].main.Waiting?
    ensures r.states[i].pending != {}
  {
    if i > 0 && r.states[i - 1].main.Waiting? { WaitingNonEmpty(r, final, i - 1); }
  }
}
