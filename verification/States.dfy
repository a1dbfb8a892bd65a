/** Aggregating states, and finding the exception of an aggregated failure. */
module States {
  import opened Wrappers

  datatype StateType = SCHEDULED | PENDING | RUNNING | COMPLETED | FAILED | CANCELLED | CRASHED | PAUSED | CANCELLING

  /** What a state carries. `Group` is a list or tuple of states, `One` a single state. */
  datatype Data = Null | Raised(exn: Exn) | Text(text: string) | One(state: State) | Group(states: seq<State>) | Other

  datatype State = State(kind: StateType, message: Option<string>, data: Data, hasRunIds: bool)

  /** Exceptions: the user's own, or one of the wrappers. */
  datatype Exn = User(id: nat) | FailedRun(message: string) | CrashedRun(message: string) | CancelledRun(message: string)

  datatype Outcome<+T> = Ok(value: T) | NotFailed | NoneFailed | Unresolvable

  predicate Failing(k: StateType) { k == FAILED || k == CRASHED || k == CANCELLED }

  /* ---------- return_value_to_state ---------- */

  predicate AllCompleted(states: seq<State>) { forall i :: 0 <= i < |states| ==> states[i].kind == COMPLETED }
  predicate Any(states: seq<State>, k: StateType) { exists i :: 0 <= i < |states| && states[i].kind == k }

  /** The aggregate rule. */
  function Aggregate(states: seq<State>): StateType {
    if AllCompleted(states) then COMPLETED
    else if Any(states, CANCELLED) then CANCELLED
    else if Any(states, PAUSED) then PAUSED
    else FAILED
  }

  /** `StateGroup` counts the types first; the rule is then decided by comparing counts. */
  method AggregateByCounting(states: seq<State>) returns (k: StateType)
    ensures k == Aggregate(states)
  {
    var completed, cancelled, paused := 0, 0, 0;
    for i := 0 to |states|
      invariant 0 <= completed <= i && 0 <= cancelled && 0 <= paused
      invariant completed == i <==> forall j :: 0 <= j < i ==> states[j].kind == COMPLETED
      invariant cancelled > 0 <==> exists j :: 0 <= j < i && states[j].kind == CANCELLED
      invariant paused > 0 <==> exists j :: 0 <= j < i && states[j].kind == PAUSED
    {
      match states[i].kind {
        case COMPLETED => completed := completed + 1;
        case CANCELLED => cancelled := cancelled + 1;
        case PAUSED => paused := paused + 1;
        case _ =>
      }
    }
    if completed == |states| { return COMPLETED; }
    if cancelled > 0 { return CANCELLED; }
    if paused > 0 { return PAUSED; }
    return FAILED;
  }

  /** What user code returned: a state, a list or tuple of states (possibly empty), or anything else. */
  datatype Retval = AState(state: State) | ManyStates(states: seq<State>) | Plain

  /** The state a run enters for a return value. A state without run ids was made by hand and is used as
      it is; an empty list is plain data. */
  function ReturnValueToState(r: Retval): State {
    match r
    case AState(s) => if !s.hasRunIds then s else State(Aggregate([s]), None, One(s), false)
    case ManyStates(ss) => if ss == [] then State(COMPLETED, None, Group([]), false)
                           else State(Aggregate(ss), None, Group(ss), false)
    case Plain => State(COMPLETED, None, Other, false)
  }

  /** `set_state` fills in the run ids of the state a run entered. */
  function Entered(r: Retval): State { ReturnValueToState(r).(hasRunIds := true) }

  /* ---------- get_state_exception ---------- */

  function Wrap(k: StateType, message: string): Exn {
    match k case CRASHED => CrashedRun(message) case CANCELLED => CancelledRun(message) case _ => FailedRun(message)
  }

  function DefaultMessage(k: StateType): string {
    match k case CRASHED => "Run crashed." case CANCELLED => "Run cancelled." case _ => "Run failed."
  }

  /** `state.message or default`: an empty message counts as none. */
  function MessageOf(s: State): string {
    if s.message.Some? && s.message.value != "" then s.message.value else DefaultMessage(s.kind)
  }

  function GetStateException(s: State): Outcome<Exn>
    decreases s, 1
  {
    if !Failing(s.kind) then NotFailed
    else match s.data
      case Null => Ok(Wrap(s.kind, MessageOf(s)))
      case Raised(e) => Ok(e)
      case Text(t) => Ok(Wrap(s.kind, t))
      case One(inner) => GetStateException(inner)
      case Group(ss) => if ss == [] then Unresolvable else FirstFailure(ss)
      case Other => Unresolvable
  }

  function FirstFailure(ss: seq<State>): Outcome<Exn>
    decreases ss, 0
  {
    if ss == [] then NoneFailed
    else if Failing(ss[0].kind) then GetStateException(ss[0])
    else FirstFailure(ss[1..])
  }

  /** The exception of a state that failed by itself: the one it carries, or one of its own kind around the
      text it carries, its message, or a fixed text if it has neither. */
  lemma OwnException(s: State)
    requires Failing(s.kind) && (s.data.Null? || s.data.Raised? || s.data.Text?)
    ensures s.data.Raised? ==> GetStateException(s) == Ok(s.data.exn)
    ensures !s.data.Raised? ==>
            var text := if s.data.Text? then s.data.text
                        else if s.message.Some? && s.message.value != "" then s.message.value
                        else if s.kind == FAILED then "Run failed."
                        else if s.kind == CRASHED then "Run crashed." else "Run cancelled.";
            GetStateException(s) == Ok(if s.kind == FAILED then FailedRun(text)
                                       else if s.kind == CRASHED then CrashedRun(text) else CancelledRun(text))
  {}

  /** When there is no exception to give: a state of another kind is refused, and so is one that failed but
      carries a value, or no states at all. */
  lemma NoException(s: State)
    ensures s.kind !in {FAILED, CRASHED, CANCELLED} ==> GetStateException(s) == NotFailed
    ensures s.kind in {FAILED, CRASHED, CANCELLED} && (s.data.Other? || s.data == Group([])) ==> GetStateException(s) == Unresolvable
  {}

  /** A value that is not a state completes the run. A state made by hand is entered as it is; one that a run
      has entered before, or a group, counts by its kind, and is what the new state carries. */
  lemma ReturnedState(r: Retval)
    ensures r.Plain? || r == ManyStates([]) ==> ReturnValueToState(r).kind == COMPLETED
    ensures r.AState? && !r.state.hasRunIds ==> ReturnValueToState(r) == r.state
    ensures r.AState? && r.state.hasRunIds ==>
            var s := ReturnValueToState(r);
            && s.data == One(r.state)
            && s.kind == (if r.state.kind in {COMPLETED, CANCELLED, PAUSED} then r.state.kind else FAILED)
    ensures r.ManyStates? ==> ReturnValueToState(r).data == Group(r.states)
  {
    if r.AState? {
      WorstIsAggregate([r.state]);
      assert [r.state][0] == r.state && [r.state][1..] == [];
    }
  }

  /* ---------- Trees of groups ---------- */

  /** States returned by runs that returned states that runs entered, and so on: single states or
      non-empty groups all the way down to states that were not made from others. */
  datatype Tree = Leaf(state: State) | Single(child: Tree) | Many(children: seq<Tree>)

  predicate Grown(t: Tree)
    decreases t, 1
  {
    match t
    case Leaf(s) => s.hasRunIds
    case Single(c) => Grown(c)
    case Many(cs) => cs != [] && GrownAll(cs)
  }

  predicate GrownAll(ts: seq<Tree>)
    decreases ts, 0
  {
    ts == [] || (Grown(ts[0]) && GrownAll(ts[1..]))
  }

  /** The state entered at the root, aggregating level by level. */
  function Root(t: Tree): State
    decreases t, 1
  {
    match t
    case Leaf(s) => s
    case Single(c) => Entered(AState(Root(c)))
    case Many(cs) => Entered(ManyStates(Roots(cs)))
  }

  function Roots(ts: seq<Tree>): (r: seq<State>)
    ensures |r| == |ts|
    decreases ts, 0
  {
    if ts == [] then [] else [Root(ts[0])] + Roots(ts[1..])
  }

  function Leaves(t: Tree): seq<State>
    decreases t, 1
  {
    match t
    case Leaf(s) => [s]
    case Single(c) => Leaves(c)
    case Many(cs) => LeavesOf(cs)
  }

  function LeavesOf(ts: seq<Tree>): seq<State>
    decreases ts, 0
  {
    if ts == [] then [] else Leaves(ts[0]) + LeavesOf(ts[1..])
  }

  /* ---------- Aggregating level by level ---------- */

  /** The rule is a maximum: completed, then anything else, then paused, then cancelled. */
  function Severity(k: StateType): nat {
    match k case COMPLETED => 0 case PAUSED => 2 case CANCELLED => 3 case _ => 1
  }

  function Max(a: nat, b: nat): nat { if a < b then b else a }

  function Worst(ss: seq<State>): nat {
    if ss == [] then 0 else Max(Severity(ss[0].kind), Worst(ss[1..]))
  }

  lemma {:induction false} WorstIsAggregate(ss: seq<State>)
    ensures Worst(ss) == Severity(Aggregate(ss))
  {
    if ss != [] {
      var rest := ss[1..];
      WorstIsAggregate(rest);
      assert AllCompleted(ss) <==> ss[0].kind == COMPLETED && AllCompleted(rest);
      AnyCons(ss, CANCELLED);
      AnyCons(ss, PAUSED);
      NotBoth(rest);
    }
  }

  lemma AnyCons(ss: seq<State>, k: StateType)
    requires ss != []
    ensures Any(ss, k) <==> ss[0].kind == k || Any(ss[1..], k)
  {
    if i :| 0 <= i < |ss| && ss[i].kind == k { assert i > 0 ==> ss[1..][i - 1].kind == k; }
    if i :| 0 <= i < |ss[1..]| && ss[1..][i].kind == k { assert ss[i + 1].kind == k; }
  }

  lemma NotBoth(ss: seq<State>)
    ensures Any(ss, CANCELLED) || Any(ss, PAUSED) ==> !AllCompleted(ss)
  {}

  lemma {:induction false} WorstConcat(a: seq<State>, b: seq<State>)
    ensures Worst(a + b) == Max(Worst(a), Worst(b))
  {
    if a == [] {
      assert a + b == b;
    } else {
      assert (a + b)[1..] == a[1..] + b;
      WorstConcat(a[1..], b);
    }
  }

  lemma {:induction false} RootWorst(t: Tree)
    requires Grown(t)
    ensures Severity(Root(t).kind) == Worst(Leaves(t)) && Root(t).hasRunIds
    decreases t, 1
  {
    match t {
      case Leaf(s) =>
      case Single(c) =>
        RootWorst(c);
        WorstIsAggregate([Root(c)]);
      case Many(cs) =>
        RootsWorst(cs);
        WorstIsAggregate(Roots(cs));
    }
  }

  lemma {:induction false} RootsWorst(ts: seq<Tree>)
    requires GrownAll(ts)
    ensures Worst(Roots(ts)) == Worst(LeavesOf(ts))
    decreases ts, 0
  {
    if ts != [] {
      RootWorst(ts[0]);
      RootsWorst(ts[1..]);
      WorstConcat(Leaves(ts[0]), LeavesOf(ts[1..]));
      assert Roots(ts)[1..] == Roots(ts[1..]);
    }
  }

  /** Aggregating level by level gives the type that aggregating all the leaves at once gives, whatever
      states the leaves are in. */
  lemma AggregationFlattens(t: Tree)
    requires Grown(t) && !t.Leaf?
    ensures Root(t).kind == Aggregate(Leaves(t))
  {
    RootWorst(t);
    WorstIsAggregate(Leaves(t));
    var made := if t.Single? then [Root(t.child)] else Roots(t.children);
    assert Root(t).kind == Aggregate(made) by {
      if t.Single? { RootWorst(t.child); }
    }
  }

  /* ---------- Exceptions ---------- */

  /** A final state whose data, if it failed, is an exception, a string or nothing. */
  predicate Resolvable(s: State) {
    (s.kind == COMPLETED || Failing(s.kind)) && (Failing(s.kind) ==> s.data.Null? || s.data.Raised? || s.data.Text?)
  }

  predicate AllResolvable(ss: seq<State>) { ss == [] || (Resolvable(ss[0]) && AllResolvable(ss[1..])) }

  lemma {:induction false} ResolvableConcat(a: seq<State>, b: seq<State>)
    ensures AllResolvable(a + b) == (AllResolvable(a) && AllResolvable(b))
  {
    if a == [] {
      assert a + b == b;
    } else {
      assert (a + b)[1..] == a[1..] + b;
      ResolvableConcat(a[1..], b);
    }
  }

  /** The exception of the leftmost leaf that did not complete. */
  function LeftmostFailure(ss: seq<State>): Outcome<Exn> {
    if ss == [] then NoneFailed
    else if ss[0].kind == COMPLETED then LeftmostFailure(ss[1..])
    else match ss[0].data
      case Raised(e) => Ok(e)
      case Text(x) => Ok(Wrap(ss[0].kind, x))
      case _ => Ok(Wrap(ss[0].kind, MessageOf(ss[0])))
  }

  lemma {:induction false} LeftmostConcat(a: seq<State>, b: seq<State>)
    ensures LeftmostFailure(a + b) == if Worst(a) > 0 then LeftmostFailure(a) else LeftmostFailure(b)
  {
    if a == [] {
      assert a + b == b;
    } else {
      assert (a + b)[1..] == a[1..] + b;
      LeftmostConcat(a[1..], b);
    }
  }

  /** With resolvable leaves no group is paused, and the severity of a root decides whether it failed. */
  lemma {:induction false} RootFinal(t: Tree)
    requires Grown(t) && AllResolvable(Leaves(t))
    ensures Root(t).kind == COMPLETED || Failing(Root(t).kind)
  {
    RootWorst(t);
    NotPaused(Leaves(t));
    if !t.Leaf? { AggregationFlattens(t); }
  }

  lemma {:induction false} NotPaused(ss: seq<State>)
    requires AllResolvable(ss)
    ensures Worst(ss) != 2
  {
    if ss != [] { NotPaused(ss[1..]); }
  }

  /** Aggregation composes with extraction: for a root that did not complete, the search ends, never
      reports that nothing failed, and returns the exception of the leftmost leaf that did not. */
  lemma {:induction false} ExceptionOfLeftmost(t: Tree)
    requires Grown(t) && AllResolvable(Leaves(t)) && Root(t).kind != COMPLETED
    ensures GetStateException(Root(t)) == LeftmostFailure(Leaves(t)) && LeftmostFailure(Leaves(t)).Ok?
    decreases t, 1
  {
    RootFinal(t);
    match t {
      case Leaf(s) =>
      case Single(c) =>
        RootWorst(c);
        AggregationFlattens(t);
        WorstIsAggregate(Leaves(t));
        ExceptionOfLeftmost(c);
      case Many(cs) =>
        RootWorst(t);
        RootsWorst(cs);
        FirstOfLeftmost(cs);
    }
  }

  lemma {:induction false} FirstOfLeftmost(ts: seq<Tree>)
    requires GrownAll(ts) && AllResolvable(LeavesOf(ts)) && Worst(LeavesOf(ts)) > 0
    ensures FirstFailure(Roots(ts)) == LeftmostFailure(LeavesOf(ts)) && LeftmostFailure(LeavesOf(ts)).Ok?
    decreases ts, 0
  {
    if ts != [] {
      ResolvableConcat(Leaves(ts[0]), LeavesOf(ts[1..]));
      LeftmostConcat(Leaves(ts[0]), LeavesOf(ts[1..]));
      WorstConcat(Leaves(ts[0]), LeavesOf(ts[1..]));
      RootWorst(ts[0]);
      RootFinal(ts[0]);
      assert Roots(ts)[1..] == Roots(ts[1..]);
      if Failing(Root(ts[0]).kind) { ExceptionOfLeftmost(ts[0]); } else { FirstOfLeftmost(ts[1..]); }
    }
  }

  /** Outside final states the two do not fit together: a list with an unfinished state and no failed one
      aggregates to FAILED, and extraction reports that none failed. Exactly then: */
  lemma NoneFailedExactly(ss: seq<State>)
    requires ss != [] && Aggregate(ss) == FAILED
    requires forall i :: 0 <= i < |ss| && Failing(ss[i].kind) ==> GetStateException(ss[i]).Ok?
    ensures GetStateException(Entered(ManyStates(ss))) == NoneFailed
            <==> forall i :: 0 <= i < |ss| ==> ss[i].kind != FAILED && ss[i].kind != CRASHED
  {
    FirstFailureNone(ss);
    assert forall i :: 0 <= i < |ss| ==> ss[i].kind != CANCELLED;
  }

  lemma {:induction false} FirstFailureNone(ss: seq<State>)
    requires forall i :: 0 <= i < |ss| && Failing(ss[i].kind) ==> GetStateException(ss[i]).Ok?
    ensures FirstFailure(ss) == NoneFailed <==> forall i :: 0 <= i < |ss| ==> !Failing(ss[i].kind)
  {
    if ss != [] {
      assert forall i :: 0 <= i < |ss[1..]| ==> ss[1..][i] == ss[i + 1];
      FirstFailureNone(ss[1..]);
      if !Failing(ss[0].kind) && FirstFailure(ss[1..]) == NoneFailed {
        forall i | 0 <= i < |ss| ensures !Failing(ss[i].kind) { assert i > 0 ==> ss[i] == ss[1..][i - 1]; }
      }
    }
  }
}
