/** The retry loop of the synchronous task run engine, and the delays between attempts. */
module TaskEngine {
  import opened Wrappers

  datatype StateType = PENDING | RUNNING | SCHEDULED | COMPLETED | FAILED | CRASHED | CANCELLED | PAUSED | CANCELLING

  /** A task run state; `scheduled` says that it carries a scheduled time. */
  datatype State = State(kind: StateType, name: string, scheduled: bool)

  datatype Delays = NoDelay | Fixed(seconds: real) | Listed(list: seq<real>)
  {
    /** Python truthiness: no delay, a zero delay and an empty list all retry at once. */
    predicate Truthy() { match this case NoDelay => false case Fixed(s) => s != 0.0 case Listed(l) => l != [] }

    /** The delay chosen when `retries` retries were made before: the last one is repeated. */
    function Chosen(retries: nat): real
      requires Truthy()
    {
      match this
      case Fixed(s) => s
      case Listed(l) => l[if retries < |l| then retries else |l| - 1]
    }
  }

  /** What one pass through the loop body meets. */
  datatype Attempt =
    | Found                                      // the transaction was committed already: no user code
    | Returned(resolved: State)                  // user code returned; the state its value resolves to
    | Raised(accepted: bool, timedOut: bool)     // an exception, and what the retry condition says of it
    | Crashed                                    // a BaseException: escapes the loop

  /** Attempt `i` (from 0) leads to another one. */
  predicate Retried(attempt: nat -> Attempt, limit: int, i: nat) {
    attempt(i).Raised? && attempt(i).accepted && i < limit
  }

  /** How a run ends, by what its last attempt met. */
  predicate EndsAs(a: Attempt, s: State) {
    match a
    case Found => s.kind == COMPLETED && s.name == "Cached"
    case Returned(resolved) => s == resolved
    case Raised(_, timedOut) => s.kind == FAILED && (s.name == "TimedOut" <==> timedOut)
    case Crashed => s.kind == CRASHED
  }

  /** The delay before retry number `i`, counted from 0: none, the same each time, or the listed ones, of
      which the last repeats. An absent, zero or empty delay means to retry at once. */
  function DelayBefore(d: Delays, i: nat): Option<real> {
    match d
    case NoDelay => None
    case Fixed(s) => if s == 0.0 then None else Some(s)
    case Listed(l) => if l == [] then None else if i < |l| then Some(l[i]) else Some(l[|l| - 1])
  }

  /** Values returned by user code resolve to states that end the loop. */
  ghost predicate Resolves(attempt: nat -> Attempt) {
    forall i :: attempt(i).Returned? ==> attempt(i).resolved.kind != RUNNING && attempt(i).resolved.kind != SCHEDULED
  }

  function FinalState(a: Attempt): State {
    match a
    case Found => State(COMPLETED, "Cached", false)
    case Returned(s) => s
    case Raised(_, timedOut) => State(FAILED, if timedOut then "TimedOut" else "Failed", false)
    case Crashed => State(CRASHED, "Crashed", false)
  }

  class SyncTaskRunEngine {
    const limit: int        // task.retries
    const delays: Delays    // task.retry_delay_seconds
    var state: State
    var runCount: nat
    var retries: nat
    var waited: seq<real>   // the delays of the retries that were scheduled for later
    ghost var calls: seq<Attempt>   // the attempts so far

    constructor (limit: int, delays: Delays)
      ensures this.limit == limit && this.delays == delays
      ensures state == State(PENDING, "Pending", false) && runCount == retries == 0 && waited == [] && calls == []
    {
      this.limit, this.delays := limit, delays;
      state, runCount, retries, waited, calls := State(PENDING, "Pending", false), 0, 0, [], [];
    }

    predicate IsRunning()
      reads this
    {
      state.kind == RUNNING || state.kind == SCHEDULED
    }

    /** The counters agree with the state. */
    ghost predicate Counted()
      reads this
    {
      && (state.kind == RUNNING ==> runCount == retries + 1 && !state.scheduled)
      && (state.kind == SCHEDULED ==> state == State(SCHEDULED, "AwaitingRetry", true) && runCount == retries)
    }

    method SetState(s: State)
      modifies this`state, this`runCount
      ensures state == s && runCount == old(runCount) + if s.kind == RUNNING then 1 else 0
    {
      state := s;
      if s.kind == RUNNING { runCount := runCount + 1; }
    }

    method BeginRun(upstreamReady: bool)
      modifies this`state, this`runCount
      ensures state == if upstreamReady then State(RUNNING, "Running", false) else State(PENDING, "NotReady", false)
      ensures runCount == old(runCount) + if upstreamReady then 1 else 0
    {
      if !upstreamReady {
        SetState(State(PENDING, "NotReady", false));
        return;
      }
      SetState(State(RUNNING, "Running", false));
    }

    method WaitUntilReady()
      requires Counted() && IsRunning()
      modifies this`state, this`runCount
      ensures Counted() && state.kind == RUNNING
      ensures state.name == if !old(state).scheduled then old(state).name
                            else if old(state).name == "AwaitingRetry" then "Retrying" else "Running"
    {
      if state.scheduled {
        SetState(State(RUNNING, if state.name == "AwaitingRetry" then "Retrying" else "Running", false));
      }
    }

    /** The state entered for retry number `i`: delayed, with the delay noted, or running again at once. */
    ghost predicate Retrying(i: nat, before: seq<real>)
      reads this
    {
      match DelayBefore(delays, i)
      case Some(delay) => state == State(SCHEDULED, "AwaitingRetry", true) && waited == before + [delay]
      case None => state == State(RUNNING, "Retrying", false) && waited == before
    }

    method HandleRetry(accepted: bool) returns (again: bool)
      requires Counted() && state.kind == RUNNING
      modifies this`state, this`runCount, this`retries, this`waited
      ensures again <==> old(retries) < limit && accepted
      ensures again ==> Counted() && IsRunning() && retries == old(retries) + 1 && Retrying(old(retries), old(waited))
      ensures !again ==> unchanged(this)
    {
      if retries < limit && accepted {
        if delays.Truthy() {
          waited := waited + [delays.Chosen(retries)];
          SetState(State(SCHEDULED, "AwaitingRetry", true));
        } else {
          SetState(State(RUNNING, "Retrying", false));
        }
        retries := retries + 1;
        return true;
      }
      return false;
    }

    /** `handle_exception` and `handle_timeout`. */
    method HandleException(a: Attempt) returns (again: bool)
      requires a.Raised? && Counted() && state.kind == RUNNING
      modifies this`state, this`runCount, this`retries, this`waited
      ensures again <==> old(retries) < limit && a.accepted
      ensures again ==> Counted() && IsRunning() && retries == old(retries) + 1 && Retrying(old(retries), old(waited))
      ensures !again ==> EndsAs(a, state) && retries == old(retries) && runCount == old(runCount) && waited == old(waited)
    {
      again := HandleRetry(a.accepted);
      if !again { SetState(FinalState(a)); }
    }

    /** `run_task_sync`. `attempt(i)` is what pass `i` through the loop meets. */
    method RunTask(attempt: nat -> Attempt, upstreamReady: bool)
      requires runCount == retries == 0 && waited == [] && calls == [] && Resolves(attempt)
      modifies this
      ensures !upstreamReady ==> calls == [] && state == State(PENDING, "NotReady", false) && runCount == 0
      ensures upstreamReady ==>
        && 1 <= |calls| <= (if limit > 0 then limit else 0) + 1
        && calls == seq(|calls|, i requires 0 <= i => attempt(i))
        && (forall i :: 0 <= i < |calls| - 1 ==> Retried(attempt, limit, i))
        && !Retried(attempt, limit, |calls| - 1)
        && retries == |calls| - 1 && runCount == |calls|
        && EndsAs(attempt(|calls| - 1), state) && !IsRunning()
        && |waited| == (if DelayBefore(delays, 0).Some? then |calls| - 1 else 0)
        && (forall i :: 0 <= i < |waited| ==> DelayBefore(delays, i) == Some(waited[i]))
    {
      BeginRun(upstreamReady);
      while IsRunning()
        invariant Counted() && retries <= |calls|
        invariant !upstreamReady ==> !IsRunning() && calls == [] && state == State(PENDING, "NotReady", false) && runCount == 0
        invariant upstreamReady && IsRunning() ==> retries == |calls|
        invariant upstreamReady && !IsRunning() ==>
          && retries + 1 == |calls| == runCount
          && !Retried(attempt, limit, retries) && EndsAs(attempt(retries), state)
        invariant retries <= if limit > 0 then limit else 0
        invariant calls == seq(|calls|, i requires 0 <= i => attempt(i))
        invariant forall i :: 0 <= i < retries ==> Retried(attempt, limit, i)
        invariant |waited| == if DelayBefore(delays, 0).Some? then retries else 0
        invariant forall i :: 0 <= i < |waited| ==> DelayBefore(delays, i) == Some(waited[i])
        decreases limit - retries, IsRunning()
      {
        WaitUntilReady();
        var a := attempt(retries);
        calls := calls + [a];
        match a {
          case Raised(_, _) => var _ := HandleException(a);
          case Crashed => SetState(FinalState(a)); break;
          case _ => SetState(FinalState(a));
        }
      }
    }
  }
}
