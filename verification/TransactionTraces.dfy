/** The exact trace of a straight program: which hooks and writes run, and in which order. `BlockEvents` reads
    them off the text and the keys stored initially. A block runs what its body runs and then what belongs to
    the decision that it hands down: a commit runs the children first to last, the own hooks in order and
    then the write, a rollback the own hooks last to first and then the children last to first. The proof
    follows the trace through bodies, exits and resets; a rollback by a child that was rolled back comes
    where the exit of the parent would have put it, because nothing runs in between. */
module TransactionTraces {
  import opened Wrappers
  import opened TransactionModel
  import opened TransactionTolerance
  import opened TransactionOutcome

  /* ---------- Events of a tree ---------- */

  function HookEvents(id: nat, kind: HookKind, hooks: seq<Hook>): seq<Event> {
    seq(|hooks|, i requires 0 <= i < |hooks| => HookRun(id, kind, hooks[i], true))
  }

  function Backwards(hooks: seq<Hook>): seq<Hook> {
    seq(|hooks|, i requires 0 <= i < |hooks| => hooks[|hooks| - 1 - i])
  }

  function WriteEvents(id: nat, write: Option<(Key, Value)>): seq<Event> {
    if write.Some? then [Write(id, write.value.0, write.value.1, true)] else []
  }

  /** Committing a tree: the children first to last, then the own hooks in order, then the write. */
  function CommitEvents(o: Outcome): seq<Event>
    decreases o, 1
  {
    if o.Terminal() then []
    else CommitEventsAll(o.children) + (HookEvents(o.id, OnCommit, o.plan.onCommit) + WriteEvents(o.id, o.plan.write))
  }

  function CommitEventsAll(os: seq<Outcome>): seq<Event>
    decreases os, 0
  {
    if os == [] then [] else CommitEvents(os[0]) + CommitEventsAll(os[1..])
  }

  /** Rolling it back: the own hooks last to first, then the children last to first. */
  function RollbackEvents(o: Outcome): seq<Event>
    decreases o, 1
  {
    if o.Terminal() then []
    else HookEvents(o.id, OnRollback, Backwards(o.plan.onRollback)) + RollbackEventsAll(o.children)
  }

  function RollbackEventsAll(os: seq<Outcome>): seq<Event>
    decreases os, 0
  {
    if os == [] then [] else RollbackEventsAll(os[1..]) + RollbackEvents(os[0])
  }

  lemma {:induction false} RollbackEventsSnoc(os: seq<Outcome>, o: Outcome)
    ensures RollbackEventsAll(os + [o]) == RollbackEvents(o) + RollbackEventsAll(os)
  {
    if os == [] {
      assert os + [o] == [o] && [o][1..] == [];
      assert [] + RollbackEvents(o) == RollbackEvents(o) == RollbackEvents(o) + [];
    } else {
      assert (os + [o])[1..] == os[1..] + [o];
      RollbackEventsSnoc(os[1..], o);
      Regroup(RollbackEvents(o), RollbackEventsAll(os[1..]), RollbackEvents(os[0]));
    }
  }

  lemma {:induction false} ReversedIsBackwards(hooks: seq<Hook>)
    ensures Reversed(hooks) == Backwards(hooks)
  {
    if hooks != [] { ReversedIsBackwards(hooks[1..]); }
  }

  lemma {:induction false} HooksTraced(env: Env, id: nat, kind: HookKind, hooks: seq<Hook>, w: World)
    requires Calm(env)
    ensures RunHooks(env, id, kind, hooks, w).w.trace == w.trace + HookEvents(id, kind, hooks)
  {
    if hooks == [] {
      assert w.trace + [] == w.trace;
    } else {
      var e := HookRun(id, kind, hooks[0], true);
      HooksTraced(env, id, kind, hooks[1..], w.(trace := w.trace + [e]));
      assert HookEvents(id, kind, hooks) == [e] + HookEvents(id, kind, hooks[1..]);
      Regroup(w.trace, [e], HookEvents(id, kind, hooks[1..]));
    }
  }

  lemma {:induction false} RollbackTraced(env: Env, t: Txn, w: World)
    requires Calm(env)
    ensures Rollback(env, t, w).w.trace == w.trace + RollbackEvents(View(t))
    decreases t, 1
  {
    if t.Terminal() {
      assert w.trace + [] == w.trace;
    } else {
      var hooks := Reversed(t.rollbackHooks);
      ReversedIsBackwards(t.rollbackHooks);
      HooksSucceed(env, t.cfg.id, OnRollback, hooks, w);
      HooksTraced(env, t.cfg.id, OnRollback, hooks, w);
      RollbackAllTraced(env, t.children, RunHooks(env, t.cfg.id, OnRollback, hooks, w).w);
      Regroup(w.trace, HookEvents(t.cfg.id, OnRollback, hooks), RollbackEventsAll(Views(t.children)));
    }
  }

  lemma {:induction false} RollbackAllTraced(env: Env, ts: seq<Txn>, w: World)
    requires Calm(env)
    ensures RollbackAll(env, ts, w).w.trace == w.trace + RollbackEventsAll(Views(ts))
    decreases ts, 0
  {
    if ts == [] {
      assert w.trace + [] == w.trace;
    } else {
      var n := |ts| - 1;
      RollbackDecides(env, ts[n], w);
      RollbackTraced(env, ts[n], w);
      RollbackAllTraced(env, ts[..n], Rollback(env, ts[n], w).w);
      ViewsLast(ts);
      RollbackEventsSnoc(Views(ts[..n]), View(ts[n]));
      Regroup(w.trace, RollbackEvents(View(ts[n])), RollbackEventsAll(Views(ts[..n])));
    }
  }

  lemma ViewsLast(ts: seq<Txn>)
    requires ts != []
    ensures Views(ts) == Views(ts[..|ts| - 1]) + [View(ts[|ts| - 1])]
  {
    LastSplit(ts);
    ViewsAppend(ts[..|ts| - 1], [ts[|ts| - 1]]);
    OneView(ts[|ts| - 1]);
  }

  lemma LastSplit<T>(s: seq<T>)
    requires s != []
    ensures s == s[..|s| - 1] + [s[|s| - 1]]
  {}

  lemma OneView(t: Txn)
    ensures Views([t]) == [View(t)]
  {
    assert [t][1..] == [];
  }

  lemma {:induction false} CommitTraced(env: Env, t: Txn, w: World)
    requires Calm(env)
    ensures Commit(env, t, w).w.trace == w.trace + CommitEvents(View(t))
    decreases t, 1
  {
    if t.Terminal() {
      assert w.trace + [] == w.trace;
    } else {
      CommitAllTraced(env, t.children, w);
      CommitAllDecides(env, t.children, w);
      var cs := CommitAll(env, t.children, w);
      OwnTraced(env, t.(children := cs.ts), cs.w);
      var o := View(t);
      Regroup(w.trace, CommitEventsAll(o.children), HookEvents(o.id, OnCommit, o.plan.onCommit) + WriteEvents(o.id, o.plan.write));
    }
  }

  lemma OwnTraced(env: Env, t: Txn, w: World)
    requires Calm(env)
    ensures var p, r := PlanOf(t), Own(env, t, w);
            !r.raised && r.w.trace == w.trace + (HookEvents(t.cfg.id, OnCommit, p.onCommit) + WriteEvents(t.cfg.id, p.write))
  {
    var h := RunHooks(env, t.cfg.id, OnCommit, t.commitHooks, w);
    HooksSucceed(env, t.cfg.id, OnCommit, t.commitHooks, w);
    HooksTraced(env, t.cfg.id, OnCommit, t.commitHooks, w);
    var hooks, write := HookEvents(t.cfg.id, OnCommit, t.commitHooks), WriteEvents(t.cfg.id, PlanOf(t).write);
    assert hooks + [] == hooks;
    Regroup(w.trace, hooks, write);
  }

  lemma {:induction false} CommitAllTraced(env: Env, ts: seq<Txn>, w: World)
    requires Calm(env)
    ensures CommitAll(env, ts, w).w.trace == w.trace + CommitEventsAll(Views(ts))
    decreases ts, 0
  {
    if ts == [] {
      assert w.trace + [] == w.trace;
    } else {
      CommitDecides(env, ts[0], w);
      CommitTraced(env, ts[0], w);
      CommitAllTraced(env, ts[1..], Commit(env, ts[0], w).w);
      assert Views(ts)[1..] == Views(ts[1..]);
      Regroup(w.trace, CommitEvents(View(ts[0])), CommitEventsAll(Views(ts[1..])));
    }
  }

  /* ---------- Events of a program ---------- */

  /** The tree of a block at the end of its body, before anything decides it. */
  function Undecided(b: Block, a: Around, init: set<Key>): Outcome {
    Expected(b, a, init, None).(state := ACTIVE, children := ExpectedBody(b.body, Inside(b.cfg, a), init, None))
  }

  /** All that a block runs: what its body runs, and then what decides it. A block that found a record runs
      nothing of its own, an exception rolls it back, EAGER commits it, and `verdict` is the decision of
      the outermost block, or none. */
  function BlockEvents(b: Block, a: Around, init: set<Key>, verdict: Option<TransactionState>): seq<Event>
    decreases b, 1
  {
    BodyEvents(b.body, Inside(b.cfg, a), init) + DecisionEvents(b, a, init, verdict)
  }

  function DecisionEvents(b: Block, a: Around, init: set<Key>, verdict: Option<TransactionState>): seq<Event> {
    if Finds(b.cfg, init) then []
    else if Raises(b) then RollbackEvents(Undecided(b, a, init))
    else if Inside(b.cfg, a).mode == EAGER || verdict == Some(COMMITTED) then CommitEvents(Undecided(b, a, init))
    else if verdict == Some(ROLLED_BACK) then RollbackEvents(Undecided(b, a, init))
    else []
  }

  function BodyEvents(body: seq<Stmt>, a: Around, init: set<Key>): seq<Event>
    decreases body, 0
  {
    if body == [] then []
    else StmtEvents(body[0], a, init) + if StmtRaises(body[0]) then [] else BodyEvents(body[1..], a, init)
  }

  function StmtEvents(c: Stmt, a: Around, init: set<Key>): seq<Event>
    decreases c, 2
  {
    if c.Nested? then BlockEvents(c.block, a, init, None) else []
  }

  /* ---------- Running ---------- */

  /** The trace after the innermost open transaction `t` has become `t'`, with new children `added` that ran
      `events`; if it was rolled back on the way, that is on the trace too. */
  ghost predicate TraceAfter(t: Txn, before: seq<Event>, t': Txn, after: seq<Event>, added: seq<Outcome>, events: seq<Event>) {
    after == if t'.state == ROLLED_BACK
             then before + events + RollbackEvents(View(t').(state := ACTIVE, children := Views(t.children) + added))
             else before + events
  }

  lemma {:induction false} NestedTraced(env: Env, b: Block, s: State, init: set<Key>, avoid: set<Key>)
    requires Calm(env) && env.lockManager && Straight(b) && Foreseen(b, init, avoid) && init <= s.w.store.Keys <= avoid
    requires s.stack != [] && Ready(s.stack[|s.stack| - 1])
    ensures var n, x, a := |s.stack| - 1, RunBlock(env, b, s), AroundOf(s.stack);
            |x.s.stack| == n + 1
            && TraceAfter(s.stack[n], s.w.trace, x.s.stack[n], x.s.w.trace, [Expected(b, a, init, None)], BlockEvents(b, a, init, None))
    decreases b, 2
  {
    var k, a := |s.stack|, AroundOf(s.stack);
    BodyOfBlock(env, b, s, init, avoid);
    SettledTraced(env, b, s, init, avoid);
    var f := RunBody(env, b.body, k, Enter(env, b.cfg, s).s);
    var t := f.s.stack[k];
    assert f.s.stack[k - 1] == f.s.stack[..k][k - 1] == s.stack[k - 1];
    var r := if f.raised then Rollback(env, t, f.s.w) else Settle(env, k, t, f.s.w);
    SettledOutcome(env, b, a, init, k, t, f.s.w, f.raised);
    ResetTraced(env, k, Replace(f.s, k, r), s.w.trace, BlockEvents(b, a, init, None));
  }

  lemma ResetTraced(env: Env, k: nat, s: State, before: seq<Event>, events: seq<Event>)
    requires Calm(env) && 0 < k < |s.stack| && Ready(s.stack[k - 1]) && s.w.trace == before + events
    ensures var x := Reset(env, k, s);
            |x.s.stack| == k
            && TraceAfter(s.stack[k - 1], before, x.s.stack[k - 1], x.s.w.trace, [View(s.stack[k])], events)
  {
    var p, c := s.stack[k - 1], Resetting(s, k);
    var q := Adopting(p, c);
    assert View(c) == View(s.stack[k]);
    RollbackTraced(env, q, s.w);
    RollbackDecides(env, q, s.w);
    ViewsLast(q.children);
    assert q.children[..|q.children| - 1] == p.children;
    if !q.Terminal() {
      SameEvents(View(q), View(Rollback(env, q, s.w).t).(state := ACTIVE, children := View(q).children));
    }
  }

  lemma SameEvents(o: Outcome, u: Outcome)
    requires o.Terminal() == u.Terminal() && o.id == u.id && o.plan == u.plan && o.children == u.children
    ensures RollbackEvents(o) == RollbackEvents(u) && CommitEvents(o) == CommitEvents(u)
  {}

  /** The trace when a block has settled, before its `reset`. */
  lemma {:induction false} SettledTraced(env: Env, b: Block, s: State, init: set<Key>, avoid: set<Key>)
    requires Calm(env) && env.lockManager && Straight(b) && Foreseen(b, init, avoid) && init <= s.w.store.Keys <= avoid
    ensures var k, a := |s.stack|, AroundOf(s.stack);
            var f := RunBody(env, b.body, k, Enter(env, b.cfg, s).s);
            var t := f.s.stack[k];
            var r := if f.raised then Rollback(env, t, f.s.w) else Settle(env, k, t, f.s.w);
            r.w.trace == s.w.trace + BlockEvents(b, a, init, if k > 0 then None else Some(RootVerdict(b)))
    decreases b, 1
  {
    var k, a := |s.stack|, AroundOf(s.stack);
    BodyOfBlock(env, b, s, init, avoid);
    BodyOfBlockTraced(env, b, s, init, avoid);
    var f := RunBody(env, b.body, k, Enter(env, b.cfg, s).s);
    TracedOnExit(env, b, a, init, k, s.w.trace, f.s.stack[k], f.s.w);
  }

  /** The open transaction of `b` after its body, and the trace then. */
  ghost predicate AfterBody(b: Block, a: Around, init: set<Key>, before: seq<Event>, t: Txn, trace: seq<Event>) {
    trace == if t.state == ROLLED_BACK
             then before + BodyEvents(b.body, Inside(b.cfg, a), init) + RollbackEvents(Undecided(b, a, init))
             else before + BodyEvents(b.body, Inside(b.cfg, a), init)
  }

  lemma TracedOnExit(env: Env, b: Block, a: Around, init: set<Key>, k: nat, before: seq<Event>, t: Txn, w: World)
    requires Calm(env) && BodyDone(t, b, a, init) && AfterBody(b, a, init, before, t, w.trace) && (k == 0 ==> a == OUTERMOST)
    ensures var r := if Raises(b) then Rollback(env, t, w) else Settle(env, k, t, w);
            r.w.trace == before + BlockEvents(b, a, init, if k > 0 then None else Some(RootVerdict(b)))
  {
    RolledBackTraced(env, b, a, init, before, t, w);
    if !Raises(b) {
      CommittedTraced(env, b, a, init, before, t, w);
      CommitDecides(env, t, w);
    }
  }

  lemma RolledBackTraced(env: Env, b: Block, a: Around, init: set<Key>, before: seq<Event>, t: Txn, w: World)
    requires Calm(env) && BodyDone(t, b, a, init) && AfterBody(b, a, init, before, t, w.trace)
    ensures var u, events := Undecided(b, a, init), BodyEvents(b.body, Inside(b.cfg, a), init);
            Rollback(env, t, w).w.trace == before + (events + if t.found then [] else RollbackEvents(u))
  {
    var u, events := Undecided(b, a, init), BodyEvents(b.body, Inside(b.cfg, a), init);
    RollbackTraced(env, t, w);
    if !t.Terminal() { SameEvents(View(t), u); }
    assert w.trace + [] == w.trace && events + [] == events;
    Regroup(before, events, RollbackEvents(u));
  }

  lemma CommittedTraced(env: Env, b: Block, a: Around, init: set<Key>, before: seq<Event>, t: Txn, w: World)
    requires Calm(env) && BodyDone(t, b, a, init) && AfterBody(b, a, init, before, t, w.trace) && !Raises(b)
    ensures var u, events := Undecided(b, a, init), BodyEvents(b.body, Inside(b.cfg, a), init);
            && Commit(env, t, w).w.trace == before + (events + if t.found then [] else CommitEvents(u))
            && w.trace == before + (events + []) && (t.Terminal() <==> t.found)
  {
    var u, events := Undecided(b, a, init), BodyEvents(b.body, Inside(b.cfg, a), init);
    CommitTraced(env, t, w);
    if !t.Terminal() { SameEvents(View(t), u); }
    assert w.trace + [] == w.trace && events + [] == events;
    Regroup(before, events, CommitEvents(u));
  }

  lemma {:induction false} BodyOfBlockTraced(env: Env, b: Block, s: State, init: set<Key>, avoid: set<Key>)
    requires Calm(env) && env.lockManager && Straight(b) && Foreseen(b, init, avoid) && init <= s.w.store.Keys <= avoid
    ensures var k := |s.stack|;
            var f := RunBody(env, b.body, k, Enter(env, b.cfg, s).s);
            |f.s.stack| == k + 1 && AfterBody(b, AroundOf(s.stack), init, s.w.trace, f.s.stack[k], f.s.w.trace)
    decreases b, 0
  {
    var k, a, e := |s.stack|, AroundOf(s.stack), Enter(env, b.cfg, s);
    BodyOfBlock(env, b, s, init, avoid);
    var t0 := Opened(b.cfg, s);
    assert e.s.stack == s.stack + [t0] && AroundOf(e.s.stack) == Inside(b.cfg, a) && e.s.w.trace == s.w.trace;
    BodyTraced(env, b.body, e.s, init, avoid);
    var f := RunBody(env, b.body, k, e.s);
    InsideFromAfter(b, a, init, s.w.trace, t0, f.s.stack[k], f.s.w.trace);
  }

  lemma InsideFromAfter(b: Block, a: Around, init: set<Key>, before: seq<Event>, t0: Txn, t: Txn, trace: seq<Event>)
    requires t0.children == [] && BodyDone(t, b, a, init)
    requires TraceAfter(t0, before, t, trace, ExpectedBody(b.body, Inside(b.cfg, a), init, None), BodyEvents(b.body, Inside(b.cfg, a), init))
    ensures AfterBody(b, a, init, before, t, trace)
  {
    var own := ExpectedBody(b.body, Inside(b.cfg, a), init, None);
    assert Views(t0.children) == [] && [] + own == own;
    SameEvents(View(t).(state := ACTIVE, children := own), Undecided(b, a, init));
  }

  /** What the statements `body` do to the trace. */
  ghost predicate Traced(env: Env, body: seq<Stmt>, s: State, init: set<Key>)
    requires s.stack != []
  {
    var k, a := |s.stack| - 1, AroundOf(s.stack);
    var e := RunBody(env, body, k, s);
    |e.s.stack| == k + 1
    && TraceAfter(s.stack[k], s.w.trace, e.s.stack[k], e.s.w.trace, ExpectedBody(body, a, init, None), BodyEvents(body, a, init))
  }

  lemma {:induction false} BodyTraced(env: Env, body: seq<Stmt>, s: State, init: set<Key>, avoid: set<Key>)
    requires Calm(env) && env.lockManager && StraightBody(body) && ForeseenBody(body, init, avoid)
    requires init <= s.w.store.Keys <= avoid && s.stack != [] && Ready(s.stack[|s.stack| - 1])
    ensures Traced(env, body, s, init)
    decreases body, 0
  {
    if body == [] {
      assert s.w.trace + [] == s.w.trace;
    } else {
      StmtTraced(env, body[0], s, init, avoid);
      if StmtRaises(body[0]) {
        RaisedHere(env, body, s, init, avoid);
        EndsThere(body, AroundOf(s.stack), init);
      } else {
        NextRun(env, body[0], s, init, avoid);
        BodyTraced(env, body[1..], RunStmt(env, body[0], |s.stack| - 1, s).s, init, avoid + StmtStores(body[0]));
        LaterTraced(env, body, s, init);
      }
    }
  }

  lemma LaterTraced(env: Env, body: seq<Stmt>, s: State, init: set<Key>)
    requires body != [] && s.stack != [] && !StmtRaises(body[0])
    requires var k, a, e := |s.stack| - 1, AroundOf(s.stack), RunStmt(env, body[0], |s.stack| - 1, s);
             && !e.raised && |e.s.stack| == k + 1 && AroundOf(e.s.stack) == a
             && Ran(s.stack[k], e.s.stack[k], false, [body[0]], ExpectedStmt(body[0], a, init, None))
             && TraceAfter(s.stack[k], s.w.trace, e.s.stack[k], e.s.w.trace, ExpectedStmt(body[0], a, init, None), StmtEvents(body[0], a, init))
             && Traced(env, body[1..], e.s, init)
    ensures Traced(env, body, s, init)
  {
    var k, a, e := |s.stack| - 1, AroundOf(s.stack), RunStmt(env, body[0], |s.stack| - 1, s);
    var f := RunBody(env, body[1..], k, e.s);
    assert RunBody(env, body, k, s) == f;
    RestTraced(body, a, init, s.stack[k], s.w.trace, e.s.stack[k], e.s.w.trace, f.s.stack[k], f.s.w.trace);
  }

  lemma EndsThere(body: seq<Stmt>, a: Around, init: set<Key>)
    requires body != [] && StmtRaises(body[0])
    ensures ExpectedBody(body, a, init, None) == ExpectedStmt(body[0], a, init, None)
    ensures BodyEvents(body, a, init) == StmtEvents(body[0], a, init)
  {}

  lemma RestTraced(body: seq<Stmt>, a: Around, init: set<Key>, t: Txn, tr: seq<Event>, t1: Txn, tr1: seq<Event>, t2: Txn, tr2: seq<Event>)
    requires body != [] && !StmtRaises(body[0]) && Ran(t, t1, false, [body[0]], ExpectedStmt(body[0], a, init, None))
    requires TraceAfter(t, tr, t1, tr1, ExpectedStmt(body[0], a, init, None), StmtEvents(body[0], a, init))
    requires TraceAfter(t1, tr1, t2, tr2, ExpectedBody(body[1..], a, init, None), BodyEvents(body[1..], a, init))
    ensures TraceAfter(t, tr, t2, tr2, ExpectedBody(body, a, init, None), BodyEvents(body, a, init))
  {
    Regroup(Views(t.children), ExpectedStmt(body[0], a, init, None), ExpectedBody(body[1..], a, init, None));
    Regroup(tr, StmtEvents(body[0], a, init), BodyEvents(body[1..], a, init));
  }

  lemma {:induction false} StmtTraced(env: Env, c: Stmt, s: State, init: set<Key>, avoid: set<Key>)
    requires Calm(env) && env.lockManager && StraightStmt(c) && ForeseenStmt(c, init, avoid)
    requires init <= s.w.store.Keys <= avoid && s.stack != [] && Ready(s.stack[|s.stack| - 1])
    ensures var k, a := |s.stack| - 1, AroundOf(s.stack);
            var e := RunStmt(env, c, k, s);
            |e.s.stack| == k + 1
            && TraceAfter(s.stack[k], s.w.trace, e.s.stack[k], e.s.w.trace, ExpectedStmt(c, a, init, None), StmtEvents(c, a, init))
    decreases c, 2
  {
    if c.Nested? { NestedTraced(env, c.block, s, init, avoid); } else { assert s.w.trace + [] == s.w.trace; }
  }

  /** The exact trace. Under the conditions of the outcome theorem, a program runs exactly the hooks and writes
      that `BlockEvents` reads off its text and the keys stored initially, in that order. */
  lemma ProgramTrace(env: Env, b: Block, w: World, init: set<Key>)
    requires Quiet(env) && Safe(env, b) && Straight(b) && init <= w.store.Keys && Foreseen(b, init, w.store.Keys)
    ensures RunBlock(env, b, State([], w)).s.w.trace == w.trace + BlockEvents(b, OUTERMOST, init, Some(RootVerdict(b)))
  {
    var r := RootSettles(env, b, w, init);
    SettledTraced(Tolerant(env), b, State([], w), init, w.store.Keys);
  }

  /* ---------- The commit hooks that run are those of the committed ---------- */

  type Call = (nat, Hook)

  /** The commit hooks on a trace. */
  function CommitCalls(es: seq<Event>): multiset<Call> {
    if es == [] then multiset{}
    else (if es[0].HookRun? && es[0].kind == OnCommit then multiset{(es[0].txn, es[0].hook)} else multiset{}) + CommitCalls(es[1..])
  }

  function Calls(id: nat, hooks: seq<Hook>): multiset<Call> {
    if hooks == [] then multiset{} else multiset{(id, hooks[0])} + Calls(id, hooks[1..])
  }

  /** The commit hooks listed by the transactions of a tree that committed by themselves or from above. */
  function Listed(o: Outcome): multiset<Call>
    decreases o, 1
  {
    (if o.state == COMMITTED && !o.found then Calls(o.id, o.plan.onCommit) else multiset{}) + ListedAll(o.children)
  }

  function ListedAll(os: seq<Outcome>): multiset<Call>
    decreases os, 0
  {
    if os == [] then multiset{} else Listed(os[0]) + ListedAll(os[1..])
  }

  /** What found a record is decided. */
  predicate FoundDecided(o: Outcome)
    decreases o, 1
  {
    (o.found ==> o.Terminal()) && FoundAllDecided(o.children)
  }

  predicate FoundAllDecided(os: seq<Outcome>)
    decreases os, 0
  {
    os == [] || (FoundDecided(os[0]) && FoundAllDecided(os[1..]))
  }

  lemma {:induction false} CommitCallsAppend(es: seq<Event>, fs: seq<Event>)
    ensures CommitCalls(es + fs) == CommitCalls(es) + CommitCalls(fs)
  {
    if es == [] {
      assert es + fs == fs;
    } else {
      assert (es + fs)[1..] == es[1..] + fs;
      CommitCallsAppend(es[1..], fs);
    }
  }

  lemma {:induction false} ListedAppend(os: seq<Outcome>, us: seq<Outcome>)
    ensures ListedAll(os + us) == ListedAll(os) + ListedAll(us)
    ensures FoundAllDecided(os + us) == (FoundAllDecided(os) && FoundAllDecided(us))
  {
    if os == [] {
      assert os + us == us;
    } else {
      assert (os + us)[1..] == os[1..] + us;
      ListedAppend(os[1..], us);
    }
  }

  lemma {:induction false} HookCalls(id: nat, kind: HookKind, hooks: seq<Hook>)
    ensures CommitCalls(HookEvents(id, kind, hooks)) == if kind == OnCommit then Calls(id, hooks) else multiset{}
  {
    if hooks != [] {
      HookCalls(id, kind, hooks[1..]);
      assert HookEvents(id, kind, hooks)[1..] == HookEvents(id, kind, hooks[1..]);
    }
  }

  lemma {:induction false} CommittingCalls(o: Outcome)
    requires FoundDecided(o)
    ensures CommitCalls(CommitEvents(o)) + Listed(o) == Listed(Decided(o, COMMITTED))
    decreases o, 1
  {
    if !o.Terminal() {
      var hooks, write := HookEvents(o.id, OnCommit, o.plan.onCommit), WriteEvents(o.id, o.plan.write);
      CommittingAllCalls(o.children);
      HookCalls(o.id, OnCommit, o.plan.onCommit);
      CommitCallsAppend(hooks, write);
      assert write != [] ==> write[1..] == [];
      CommitCallsAppend(CommitEventsAll(o.children), hooks + write);
    }
  }

  lemma {:induction false} CommittingAllCalls(os: seq<Outcome>)
    requires FoundAllDecided(os)
    ensures CommitCalls(CommitEventsAll(os)) + ListedAll(os) == ListedAll(DecidedAll(os, COMMITTED))
    decreases os, 0
  {
    if os != [] {
      CommittingCalls(os[0]);
      CommittingAllCalls(os[1..]);
      CommitCallsAppend(CommitEvents(os[0]), CommitEventsAll(os[1..]));
      assert DecidedAll(os, COMMITTED)[1..] == DecidedAll(os[1..], COMMITTED);
    }
  }

  lemma {:induction false} RollingBackCalls(o: Outcome)
    ensures CommitCalls(RollbackEvents(o)) == multiset{} && Listed(Decided(o, ROLLED_BACK)) == Listed(o)
    decreases o, 1
  {
    if !o.Terminal() {
      RollingBackAllCalls(o.children);
      HookCalls(o.id, OnRollback, Backwards(o.plan.onRollback));
      CommitCallsAppend(HookEvents(o.id, OnRollback, Backwards(o.plan.onRollback)), RollbackEventsAll(o.children));
    }
  }

  lemma {:induction false} RollingBackAllCalls(os: seq<Outcome>)
    ensures CommitCalls(RollbackEventsAll(os)) == multiset{} && ListedAll(DecidedAll(os, ROLLED_BACK)) == ListedAll(os)
    decreases os, 0
  {
    if os != [] {
      RollingBackCalls(os[0]);
      RollingBackAllCalls(os[1..]);
      CommitCallsAppend(RollbackEventsAll(os[1..]), RollbackEvents(os[0]));
      assert DecidedAll(os, ROLLED_BACK)[1..] == DecidedAll(os[1..], ROLLED_BACK);
    }
  }

  lemma {:induction false} BlockCalls(b: Block, a: Around, init: set<Key>, verdict: Option<TransactionState>)
    requires verdict.Some? ==> verdict.value == COMMITTED || verdict.value == ROLLED_BACK
    ensures CommitCalls(BlockEvents(b, a, init, verdict)) == Listed(Expected(b, a, init, verdict))
    decreases b, 1
  {
    var inside := Inside(b.cfg, a);
    BodyCalls(b.body, inside, init);
    DecisionCalls(b, a, init);
    DecidedCalls(b, a, init, verdict, BodyEvents(b.body, inside, init));
  }

  lemma DecidedCalls(b: Block, a: Around, init: set<Key>, verdict: Option<TransactionState>, events: seq<Event>)
    requires verdict.Some? ==> verdict.value == COMMITTED || verdict.value == ROLLED_BACK
    requires var inside, u := Inside(b.cfg, a), Undecided(b, a, init);
            && CommitCalls(events) == ListedAll(ExpectedBody(b.body, inside, init, None))
            && CommitCalls(events + RollbackEvents(u)) == ListedAll(ExpectedBody(b.body, inside, init, Some(ROLLED_BACK)))
            && (!Finds(b.cfg, init) ==>
                  CommitCalls(events + CommitEvents(u))
                  == Calls(b.cfg.id, PlanFor(b, init).onCommit) + ListedAll(ExpectedBody(b.body, inside, init, Some(COMMITTED))))
    ensures CommitCalls(events + DecisionEvents(b, a, init, verdict)) == Listed(Expected(b, a, init, verdict))
  {
    var o, d, fate, u := Expected(b, a, init, verdict), DecisionEvents(b, a, init, verdict), FateInside(b, a, init, verdict), Undecided(b, a, init);
    ListedOnce(o);
    DecisionFate(b, a, init, verdict);
    assert o.children == ExpectedBody(b.body, Inside(b.cfg, a), init, fate) && o.plan == PlanFor(b, init);
    match fate {
      case None => assert events + d == events && Listed(o) == ListedAll(o.children);
      case Some(v) =>
        if v == COMMITTED {
          assert events + d == events + CommitEvents(u) && Listed(o) == Calls(o.id, o.plan.onCommit) + ListedAll(o.children);
        } else {
          assert events + d == events + RollbackEvents(u) && Listed(o) == ListedAll(o.children);
        }
    }
  }

  /** A block runs what belongs to the decision that it hands down. */
  lemma DecisionFate(b: Block, a: Around, init: set<Key>, verdict: Option<TransactionState>)
    requires verdict.Some? ==> verdict.value == COMMITTED || verdict.value == ROLLED_BACK
    ensures var d, u := DecisionEvents(b, a, init, verdict), Undecided(b, a, init);
            match FateInside(b, a, init, verdict)
            case None => d == [] && (OwnState(b, a, init, verdict) == COMMITTED <==> Finds(b.cfg, init))
            case Some(v) => !Finds(b.cfg, init) && OwnState(b, a, init, verdict) == v
                            && d == (if v == COMMITTED then CommitEvents(u) else RollbackEvents(u))
                            && (v == COMMITTED || v == ROLLED_BACK)
  {}

  lemma ListedOnce(o: Outcome)
    ensures Listed(o) == (if o.state == COMMITTED && !o.found then Calls(o.id, o.plan.onCommit) else multiset{}) + ListedAll(o.children)
  {}

  /** The calls of a block that did not find a record, by what decides it. */
  lemma DecisionCalls(b: Block, a: Around, init: set<Key>)
    requires var own := ExpectedBody(b.body, Inside(b.cfg, a), init, None);
             FoundAllDecided(own) && CommitCalls(BodyEvents(b.body, Inside(b.cfg, a), init)) == ListedAll(own)
    ensures var inside, events, u := Inside(b.cfg, a), BodyEvents(b.body, Inside(b.cfg, a), init), Undecided(b, a, init);
            && CommitCalls(events + RollbackEvents(u)) == ListedAll(ExpectedBody(b.body, inside, init, Some(ROLLED_BACK)))
            && (!Finds(b.cfg, init) ==>
                  CommitCalls(events + CommitEvents(u))
                  == Calls(b.cfg.id, PlanFor(b, init).onCommit) + ListedAll(ExpectedBody(b.body, inside, init, Some(COMMITTED))))
  {
    var inside, u := Inside(b.cfg, a), Undecided(b, a, init);
    CommitCallsAppend(BodyEvents(b.body, inside, init), RollbackEvents(u));
    CommitCallsAppend(BodyEvents(b.body, inside, init), CommitEvents(u));
    RollingBackAllCalls(u.children);
    RollingBackCalls(u);
    ExpectedBodyDecided(b.body, inside, init, ROLLED_BACK);
    ExpectedBodyDecided(b.body, inside, init, COMMITTED);
    if !Finds(b.cfg, init) { CommittingCalls(u); }
  }

  lemma {:induction false} BodyCalls(body: seq<Stmt>, a: Around, init: set<Key>)
    ensures CommitCalls(BodyEvents(body, a, init)) == ListedAll(ExpectedBody(body, a, init, None))
    ensures FoundAllDecided(ExpectedBody(body, a, init, None))
    decreases body, 0
  {
    if body != [] {
      StmtCalls(body[0], a, init);
      var rest := if StmtRaises(body[0]) then [] else ExpectedBody(body[1..], a, init, None);
      var more := if StmtRaises(body[0]) then [] else BodyEvents(body[1..], a, init);
      if !StmtRaises(body[0]) { BodyCalls(body[1..], a, init); }
      CommitCallsAppend(StmtEvents(body[0], a, init), more);
      ListedAppend(ExpectedStmt(body[0], a, init, None), rest);
    }
  }

  lemma {:induction false} StmtCalls(c: Stmt, a: Around, init: set<Key>)
    ensures CommitCalls(StmtEvents(c, a, init)) == ListedAll(ExpectedStmt(c, a, init, None))
    ensures FoundAllDecided(ExpectedStmt(c, a, init, None))
    decreases c, 2
  {
    if c.Nested? {
      BlockCalls(c.block, a, init, None);
      FoundDecidedStmt(c, a, init, None);
      assert [Expected(c.block, a, init, None)][1..] == [];
    }
  }

  lemma {:induction false} FoundDecidedText(body: seq<Stmt>, a: Around, init: set<Key>, fate: Option<TransactionState>)
    ensures FoundAllDecided(ExpectedBody(body, a, init, fate))
    decreases body, 0
  {
    if body != [] {
      FoundDecidedStmt(body[0], a, init, fate);
      var rest := if StmtRaises(body[0]) then [] else ExpectedBody(body[1..], a, init, fate);
      if !StmtRaises(body[0]) { FoundDecidedText(body[1..], a, init, fate); }
      ListedAppend(ExpectedStmt(body[0], a, init, fate), rest);
    }
  }

  lemma {:induction false} FoundDecidedStmt(c: Stmt, a: Around, init: set<Key>, fate: Option<TransactionState>)
    ensures FoundAllDecided(ExpectedStmt(c, a, init, fate))
    decreases c, 2
  {
    if c.Nested? {
      FoundDecidedText(c.block.body, Inside(c.block.cfg, a), init, FateInside(c.block, a, init, fate));
      assert [Expected(c.block, a, init, fate)][1..] == [];
    }
  }

  /** Under the same conditions the commit hooks that a program runs are, with repetitions, exactly those that
      the transactions of the finished tree list which committed without having found a record. */
  lemma CommitHooksOfCommitted(env: Env, b: Block, w: World, init: set<Key>)
    requires Quiet(env) && Safe(env, b) && Straight(b) && init <= w.store.Keys && Foreseen(b, init, w.store.Keys)
    ensures var x := RunBlock(env, b, State([], w));
            && |w.trace| <= |x.s.w.trace| && x.txn.Some?
            && CommitCalls(x.s.w.trace[|w.trace|..]) == Listed(View(x.txn.value))
  {
    ProgramTrace(env, b, w, init);
    OutcomeTheorem(env, b, w, init);
    BlockCalls(b, OUTERMOST, init, Some(RootVerdict(b)));
    assert (w.trace + BlockEvents(b, OUTERMOST, init, Some(RootVerdict(b))))[|w.trace|..]
        == BlockEvents(b, OUTERMOST, init, Some(RootVerdict(b)));
  }
}
