/** When nothing is raised by the release of a lock: with a lock manager that tolerates the release of a
    lock that is not held, and, whatever the lock manager, in programs that take no locks. */
module TransactionTolerance {
  import opened Wrappers
  import opened TransactionModel

  /* ---------- Tolerant lock managers: nothing raises, the stack discipline holds ---------- */

  lemma {:induction false} RollbackNeverRaises(env: Env, t: Txn, w: World)
    requires !env.strict
    ensures !Rollback(env, t, w).raised
  {}

  lemma {:induction false} CommitNeverRaises(env: Env, t: Txn, w: World)
    requires !env.strict
    ensures !Commit(env, t, w).raised
  {
    if !t.Terminal() {
      var a := Attempt(env, t, w);
      RollbackNeverRaises(env, a.t, a.w);
    }
  }

  lemma SettleNeverRaises(env: Env, k: nat, t: Txn, w: World)
    requires !env.strict
    ensures !Settle(env, k, t, w).raised
  {
    CommitNeverRaises(env, t, w);
    RollbackNeverRaises(env, t, w);
  }

  lemma ExitPops(env: Env, k: nat, s: State, exc: bool)
    requires !env.strict && k < |s.stack|
    ensures var x := Exit(env, k, s, exc); |x.s.stack| == k && x.txn.Some?
  {
    RollbackNeverRaises(env, s.stack[k], s.w);
    SettleNeverRaises(env, k, s.stack[k], s.w);
  }

  lemma {:induction false} BodyKeepsStack(env: Env, body: seq<Stmt>, k: nat, s: State)
    requires !env.strict && |s.stack| == k + 1
    ensures |RunBody(env, body, k, s).s.stack| == k + 1
    decreases body, 0
  {
    if body != [] {
      StmtKeepsStack(env, body[0], k, s);
      var e := RunStmt(env, body[0], k, s);
      if !e.raised { BodyKeepsStack(env, body[1..], k, e.s); }
    }
  }

  lemma {:induction false} StmtKeepsStack(env: Env, c: Stmt, k: nat, s: State)
    requires !env.strict && |s.stack| == k + 1
    ensures |RunStmt(env, c, k, s).s.stack| == k + 1
    decreases c, 2
  {
    match c {
      case Nested(b) => BlockKeepsStack(env, b, s);
      case Guarded(b) => BlockKeepsStack(env, b, s);
      case _ =>
    }
  }

  lemma {:induction false} BlockKeepsStack(env: Env, b: Block, s: State)
    requires !env.strict
    ensures var x := RunBlock(env, b, s);
            |x.s.stack| == |s.stack| && (x.txn.None? <==> Enter(env, b.cfg, s).raised)
    decreases b, 1
  {
    var e := Enter(env, b.cfg, s);
    if !e.raised {
      BodyKeepsStack(env, b.body, |s.stack|, e.s);
      var f := RunBody(env, b.body, |s.stack|, e.s);
      ExitPops(env, |s.stack|, f.s, f.raised);
    }
  }

  /* ---------- Programs that take no locks ---------- */

  /** What a block inherits. */
  datatype Around = Around(mode: CommitMode, isolation: IsolationLevel)

  const OUTERMOST := Around(LAZY, READ_COMMITTED)

  /** What the blocks in a block with configuration `c` inherit. */
  function Inside(c: Config, a: Around): Around {
    Around(if c.mode.Some? then c.mode.value else a.mode, if c.isolation.Some? then c.isolation.value else a.isolation)
  }

  function AroundOf(stack: seq<Txn>): Around {
    if stack == [] then OUTERMOST else Around(stack[|stack| - 1].mode, stack[|stack| - 1].isolation)
  }

  predicate Locks(c: Config, a: Around) { c.Keyed() && Inside(c, a).isolation == SERIALIZABLE }

  /** No block of the program locks. */
  predicate Lockless(b: Block, a: Around)
    decreases b, 1
  {
    !Locks(b.cfg, a) && LocklessBody(b.body, Inside(b.cfg, a))
  }

  predicate LocklessBody(body: seq<Stmt>, a: Around)
    decreases body, 0
  {
    body == [] || (LocklessStmt(body[0], a) && LocklessBody(body[1..], a))
  }

  predicate LocklessStmt(c: Stmt, a: Around)
    decreases c, 2
  {
    c.Nested? || c.Guarded? ==> Lockless(c.block, a)
  }

  /** The same surroundings with a lock manager, and one that tolerates everything. */
  function Tolerant(env: Env): Env { env.(strict := false, lockManager := true) }

  predicate Unlocked(t: Txn)
    decreases t, 1
  {
    !t.Locking() && UnlockedAll(t.children)
  }

  predicate UnlockedAll(ts: seq<Txn>)
    decreases ts, 0
  {
    ts == [] || (Unlocked(ts[0]) && UnlockedAll(ts[1..]))
  }

  lemma {:induction false} UnlockedAppend(ts: seq<Txn>, us: seq<Txn>)
    ensures UnlockedAll(ts + us) == (UnlockedAll(ts) && UnlockedAll(us))
  {
    if ts == [] {
      assert ts + us == us;
    } else {
      assert (ts + us)[1..] == ts[1..] + us;
      UnlockedAppend(ts[1..], us);
    }
  }

  lemma OneUnlocked(t: Txn)
    ensures UnlockedAll([t]) == Unlocked(t)
  {
    assert [t][1..] == [];
  }

  lemma {:induction false} HooksIndependent(env: Env, id: nat, kind: HookKind, hooks: seq<Hook>, w: World)
    ensures RunHooks(env, id, kind, hooks, w) == RunHooks(Tolerant(env), id, kind, hooks, w)
  {
    if hooks != [] {
      var bad := env.fails(w.trace, HookRun(id, kind, hooks[0], true));
      HooksIndependent(env, id, kind, hooks[1..], w.(trace := w.trace + [HookRun(id, kind, hooks[0], !bad)]));
    }
  }

  lemma {:induction false} RollbackIndependent(env: Env, t: Txn, w: World)
    requires Unlocked(t)
    ensures var r := Rollback(env, t, w); r == Rollback(Tolerant(env), t, w) && Unlocked(r.t)
    decreases t, 1
  {
    if !t.Terminal() {
      HooksIndependent(env, t.cfg.id, OnRollback, Reversed(t.rollbackHooks), w);
      RollbackAllIndependent(env, t.children, RunHooks(env, t.cfg.id, OnRollback, Reversed(t.rollbackHooks), w).w);
    }
  }

  lemma {:induction false} RollbackAllIndependent(env: Env, ts: seq<Txn>, w: World)
    requires UnlockedAll(ts)
    ensures var r := RollbackAll(env, ts, w); r == RollbackAll(Tolerant(env), ts, w) && UnlockedAll(r.ts)
    decreases ts, 0
  {
    if ts != [] {
      var n := |ts| - 1;
      var front, last := ts[..n], ts[n];
      assert ts == front + [last];
      UnlockedAppend(front, [last]);
      OneUnlocked(last);
      RollbackIndependent(env, last, w);
      var r := Rollback(env, last, w);
      RollbackAllIndependent(env, front, r.w);
      OneUnlocked(r.t);
      UnlockedAppend(front, [r.t]);
      UnlockedAppend(RollbackAll(env, front, r.w).ts, [r.t]);
    }
  }

  lemma {:induction false} CommitIndependent(env: Env, t: Txn, w: World)
    requires Unlocked(t)
    ensures var r := Commit(env, t, w); r == Commit(Tolerant(env), t, w) && Unlocked(r.t)
    decreases t, 1
  {
    if !t.Terminal() {
      CommitAllIndependent(env, t.children, w);
      var cs := CommitAll(env, t.children, w);
      HooksIndependent(env, t.cfg.id, OnCommit, t.commitHooks, cs.w);
      var a := Attempt(env, t, w);
      assert a == Attempt(Tolerant(env), t, w) && Unlocked(a.t);
      if a.raised { RollbackIndependent(env, a.t, a.w); }
    }
  }

  lemma {:induction false} CommitAllIndependent(env: Env, ts: seq<Txn>, w: World)
    requires UnlockedAll(ts)
    ensures var r := CommitAll(env, ts, w); r == CommitAll(Tolerant(env), ts, w) && UnlockedAll(r.ts)
    decreases ts, 0
  {
    if ts != [] {
      CommitIndependent(env, ts[0], w);
      var first := Commit(env, ts[0], w);
      CommitAllIndependent(env, ts[1..], first.w);
      OneUnlocked(first.t);
      UnlockedAppend([first.t], ts[1..]);
      UnlockedAppend([first.t], CommitAll(env, ts[1..], first.w).ts);
    }
  }

  lemma ResetIndependent(env: Env, k: nat, s: State)
    requires |s.stack| == k + 1 && UnlockedAll(s.stack)
    ensures var x := Reset(env, k, s); x == Reset(Tolerant(env), k, s) && UnlockedAll(x.s.stack)
  {
    var t := Resetting(s, k);
    assert s.stack == s.stack[..k] + [s.stack[k]];
    UnlockedAppend(s.stack[..k], [s.stack[k]]);
    OneUnlocked(s.stack[k]);
    if k > 0 {
      var left, p := s.stack[..k - 1], s.stack[k - 1];
      assert s.stack[..k] == left + [p];
      UnlockedAppend(left, [p]);
      OneUnlocked(p);
      UnlockedAppend(p.children, [t]);
      OneUnlocked(t);
      var q := Adopting(p, t);
      RollbackIndependent(env, q, s.w);
      OneUnlocked(q);
      OneUnlocked(Rollback(env, q, s.w).t);
      UnlockedAppend(left, [q]);
      UnlockedAppend(left, [Rollback(env, q, s.w).t]);
    }
  }

  lemma ExitIndependent(env: Env, k: nat, s: State, exc: bool)
    requires |s.stack| == k + 1 && UnlockedAll(s.stack)
    ensures var x := Exit(env, k, s, exc); x == Exit(Tolerant(env), k, s, exc) && UnlockedAll(x.s.stack)
  {
    var t := s.stack[k];
    TopUnlocked(s.stack);
    RollbackIndependent(env, t, s.w);
    CommitIndependent(env, t, s.w);
    SettleNeverRaises(Tolerant(env), k, t, s.w);
    RollbackNeverRaises(Tolerant(env), t, s.w);
    var r := if exc then Rollback(env, t, s.w) else Settle(env, k, t, s.w);
    SettleIndependent(env, k, t, s.w);
    TopReplaced(s.stack, r.t);
    ResetIndependent(env, k, Replace(s, k, r));
  }

  lemma SettleIndependent(env: Env, k: nat, t: Txn, w: World)
    requires Unlocked(t)
    ensures Settle(env, k, t, w) == Settle(Tolerant(env), k, t, w) && Unlocked(Settle(env, k, t, w).t)
  {
    RollbackIndependent(env, t, w);
    CommitIndependent(env, t, w);
  }

  lemma TopUnlocked(stack: seq<Txn>)
    requires stack != [] && UnlockedAll(stack)
    ensures Unlocked(stack[|stack| - 1]) && UnlockedAll(stack[..|stack| - 1])
  {
    var k := |stack| - 1;
    assert stack == stack[..k] + [stack[k]];
    UnlockedAppend(stack[..k], [stack[k]]);
    OneUnlocked(stack[k]);
  }

  lemma TopReplaced(stack: seq<Txn>, t: Txn)
    requires stack != [] && UnlockedAll(stack) && Unlocked(t)
    ensures UnlockedAll(stack[|stack| - 1 := t])
  {
    var k := |stack| - 1;
    TopUnlocked(stack);
    OneUnlocked(t);
    UnlockedAppend(stack[..k], [t]);
    assert stack[k := t] == stack[..k] + [t];
  }

  /** What blocks inside an open transaction inherit does not change. */
  lemma StmtKeepsAround(env: Env, c: Stmt, k: nat, s: State)
    requires !env.strict && |s.stack| == k + 1
    ensures AroundOf(RunStmt(env, c, k, s).s.stack) == AroundOf(s.stack)
  {
    StmtKeepsStack(env, c, k, s);
    var t := s.stack[k];
    var a := Attempt(env, t, s.w);
    assert a.t.mode == t.mode && a.t.isolation == t.isolation;
    assert Rollback(env, a.t, a.w).t.mode == t.mode && Rollback(env, a.t, a.w).t.isolation == t.isolation;
    assert Rollback(env, t, s.w).t.mode == t.mode && Rollback(env, t, s.w).t.isolation == t.isolation;
    if c.Nested? || c.Guarded? { BlockKeepsAround(env, c.block, s); }
  }

  lemma BlockKeepsAround(env: Env, b: Block, s: State)
    requires !env.strict && s.stack != []
    ensures AroundOf(RunBlock(env, b, s).s.stack) == AroundOf(s.stack)
  {
    var n := |s.stack| - 1;
    var e := Enter(env, b.cfg, s);
    BlockKeepsStack(env, b, s);
    if !e.raised {
      BodyKeepsStack(env, b.body, n + 1, e.s);
      var f := RunBody(env, b.body, n + 1, e.s);
      assert f.s.stack[n] == f.s.stack[..n + 1][n] == s.stack[n];
      ExitPops(env, n + 1, f.s, f.raised);
      ExitKeepsParent(env, n + 1, f.s, f.raised);
    }
  }

  lemma ExitKeepsParent(env: Env, k: nat, s: State, exc: bool)
    requires !env.strict && 0 < k < |s.stack|
    ensures var x := Exit(env, k, s, exc);
            |x.s.stack| == k && x.s.stack[k - 1].mode == s.stack[k - 1].mode && x.s.stack[k - 1].isolation == s.stack[k - 1].isolation
  {
    ExitPops(env, k, s, exc);
    var r := if exc then Rollback(env, s.stack[k], s.w) else Settle(env, k, s.stack[k], s.w);
    var s1 := Replace(s, k, r);
    var q := Adopting(s1.stack[k - 1], Resetting(s1, k));
    assert Rollback(env, q, r.w).t.mode == q.mode && Rollback(env, q, r.w).t.isolation == q.isolation;
  }

  /** A program that takes no locks does the same under every lock manager, and without one. */
  lemma {:induction false} BlockIndependent(env: Env, b: Block, s: State)
    requires Lockless(b, AroundOf(s.stack)) && UnlockedAll(s.stack)
    ensures var x := RunBlock(env, b, s); x == RunBlock(Tolerant(env), b, s) && UnlockedAll(x.s.stack)
    decreases b, 1
  {
    var k := |s.stack|;
    var t := Opened(b.cfg, s);
    var e := Enter(env, b.cfg, s);
    OneUnlocked(t);
    UnlockedAppend(s.stack, [t]);
    BodyIndependent(env, b.body, k, e.s);
    BodyKeepsStack(Tolerant(env), b.body, k, e.s);
    var f := RunBody(env, b.body, k, e.s);
    ExitIndependent(env, k, f.s, f.raised);
  }

  lemma {:induction false} BodyIndependent(env: Env, body: seq<Stmt>, k: nat, s: State)
    requires |s.stack| == k + 1 && LocklessBody(body, AroundOf(s.stack)) && UnlockedAll(s.stack)
    ensures var e := RunBody(env, body, k, s); e == RunBody(Tolerant(env), body, k, s) && UnlockedAll(e.s.stack)
    decreases body, 0
  {
    if body != [] {
      StmtIndependent(env, body[0], k, s);
      StmtKeepsStack(Tolerant(env), body[0], k, s);
      StmtKeepsAround(Tolerant(env), body[0], k, s);
      var e := RunStmt(env, body[0], k, s);
      if !e.raised {
        BodyIndependent(env, body[1..], k, e.s);
      }
    }
  }

  lemma {:induction false} StmtIndependent(env: Env, c: Stmt, k: nat, s: State)
    requires |s.stack| == k + 1 && LocklessStmt(c, AroundOf(s.stack)) && UnlockedAll(s.stack)
    ensures var e := RunStmt(env, c, k, s);
            e == RunStmt(Tolerant(env), c, k, s) && UnlockedAll(e.s.stack)
    decreases c, 2
  {
    var t := s.stack[k];
    TopUnlocked(s.stack);
    match c {
      case Nested(b) => BlockIndependent(env, b, s);
      case Guarded(b) => BlockIndependent(env, b, s);
      case Stage(v, onRollback, onCommit) => TopReplaced(s.stack, StageIn(t, v, onRollback, onCommit));
      case CallCommit => CommitIndependent(env, t, s.w); TopReplaced(s.stack, Commit(env, t, s.w).t);
      case CallRollback => RollbackIndependent(env, t, s.w); TopReplaced(s.stack, Rollback(env, t, s.w).t);
      case Raise =>
    }
  }

  /** Nothing that the block does to locks can raise. */
  predicate Harmless(env: Env, b: Block, s: State) {
    !env.strict || (Lockless(b, AroundOf(s.stack)) && UnlockedAll(s.stack))
  }

  /** Whatever hooks and writes do, and whatever a body catches, a block leaves exactly the
      transactions open that were open before it, and its body leaves exactly one more: the previous
      active transaction is restored by the exit of the transaction that replaced it. */
  lemma ActiveRestored(env: Env, b: Block, s: State)
    requires Harmless(env, b, s)
    ensures var x := RunBlock(env, b, s);
            |x.s.stack| == |s.stack| && (x.txn.None? <==> Enter(env, b.cfg, s).raised)
    ensures var e := Enter(env, b.cfg, s);
            !e.raised ==> |RunBody(env, b.body, |s.stack|, e.s).s.stack| == |s.stack| + 1
  {
    var e := Enter(env, b.cfg, s);
    var tolerant := if env.strict then Tolerant(env) else env;
    BlockKeepsStack(tolerant, b, s);
    if !e.raised { BodyKeepsStack(tolerant, b.body, |s.stack|, e.s); }
    if env.strict {
      BlockIndependent(env, b, s);
      OneUnlocked(Opened(b.cfg, s));
      UnlockedAppend(s.stack, [Opened(b.cfg, s)]);
      BodyIndependent(env, b.body, |s.stack|, e.s);
    }
  }

  /** The configuration error: a block is refused, with nothing opened and nothing changed, if it would lock
      and there is no lock manager; and when no release can raise, only then does it leave no transaction. */
  lemma RefusedWithoutManager(env: Env, b: Block, s: State)
    ensures Locks(b.cfg, AroundOf(s.stack)) && !env.lockManager ==> RunBlock(env, b, s) == Exited(s, true, None)
    ensures Harmless(env, b, s) && RunBlock(env, b, s).txn.None? ==> Locks(b.cfg, AroundOf(s.stack)) && !env.lockManager
  {
    if Harmless(env, b, s) { ActiveRestored(env, b, s); }
  }

  /** A lock manager that tolerates everything, or a program that takes no locks. */
  predicate Safe(env: Env, b: Block) { (!env.strict && env.lockManager) || Lockless(b, OUTERMOST) }

  lemma SafeRun(env: Env, b: Block, w: World)
    requires Safe(env, b)
    ensures RunBlock(env, b, State([], w)) == RunBlock(Tolerant(env), b, State([], w))
  {
    if env.strict || !env.lockManager { BlockIndependent(env, b, State([], w)); } else { assert Tolerant(env) == env; }
  }
}
