/** What changes when the lock manager raises on the release of a lock that is not held, as the memory
    and the file lock managers of the repository do. */
module TransactionStrict {
  import opened Wrappers
  import opened TransactionModel
  import opened TransactionTolerance
  import opened TransactionOutcome

  /** No hook and no write fails. */
  ghost predicate Smooth(env: Env) { env.strict && env.lockManager && Quiet(env) }

  function LockKeys(t: Txn): set<Key>
    decreases t, 1
  {
    (if t.Locking() then {t.cfg.key} else {}) + LockKeysAll(t.children)
  }

  function LockKeysAll(ts: seq<Txn>): set<Key>
    decreases ts, 0
  {
    if ts == [] then {} else LockKeys(ts[0]) + LockKeysAll(ts[1..])
  }

  /** No two SERIALIZABLE transactions of the tree share a key. */
  predicate Distinct(t: Txn)
    decreases t, 1
  {
    (t.Locking() ==> t.cfg.key !in LockKeysAll(t.children)) && DistinctAll(t.children)
  }

  predicate DistinctAll(ts: seq<Txn>)
    decreases ts, 0
  {
    ts == [] || (Distinct(ts[0]) && DistinctAll(ts[1..]) && LockKeys(ts[0]) !! LockKeysAll(ts[1..]))
  }

  /** Every undecided SERIALIZABLE transaction that commit or rollback can reach holds its lock. */
  predicate Holds(t: Txn, held: set<Key>)
    decreases t, 1
  {
    t.Terminal() || ((t.Locking() ==> t.cfg.key in held) && HoldsAll(t.children, held))
  }

  predicate HoldsAll(ts: seq<Txn>, held: set<Key>)
    decreases ts, 0
  {
    ts == [] || (Holds(ts[0], held) && HoldsAll(ts[1..], held))
  }

  /** A decided SERIALIZABLE transaction that gave its lock back: releasing it again raises. */
  predicate Spent(t: Txn, held: set<Key>) { t.Terminal() && t.Locking() && t.cfg.key !in held }

  ghost predicate AnySpent(ts: seq<Txn>, held: set<Key>) { exists i :: 0 <= i < |ts| && Spent(ts[i], held) }

  lemma {:induction false} Append(ts: seq<Txn>, us: seq<Txn>, held: set<Key>)
    ensures LockKeysAll(ts + us) == LockKeysAll(ts) + LockKeysAll(us)
    ensures DistinctAll(ts + us) == (DistinctAll(ts) && DistinctAll(us) && LockKeysAll(ts) !! LockKeysAll(us))
    ensures HoldsAll(ts + us, held) == (HoldsAll(ts, held) && HoldsAll(us, held))
  {
    if ts == [] {
      assert ts + us == us;
    } else {
      assert (ts + us)[1..] == ts[1..] + us;
      Append(ts[1..], us, held);
    }
  }

  lemma Single(t: Txn, held: set<Key>)
    ensures LockKeysAll([t]) == LockKeys(t) && DistinctAll([t]) == Distinct(t) && HoldsAll([t], held) == Holds(t, held)
  {
    assert [t][1..] == [];
  }

  lemma {:induction false} StillHolds(t: Txn, held: set<Key>, held': set<Key>, gone: set<Key>)
    requires Holds(t, held) && held - gone <= held' && gone !! LockKeys(t)
    ensures Holds(t, held')
    decreases t, 1
  {
    if !t.Terminal() { StillHoldsAll(t.children, held, held', gone); }
  }

  lemma {:induction false} StillHoldsAll(ts: seq<Txn>, held: set<Key>, held': set<Key>, gone: set<Key>)
    requires HoldsAll(ts, held) && held - gone <= held' && gone !! LockKeysAll(ts)
    ensures HoldsAll(ts, held')
    decreases ts, 0
  {
    if ts != [] {
      StillHolds(ts[0], held, held', gone);
      StillHoldsAll(ts[1..], held, held', gone);
    }
  }

  lemma {:induction false} SmoothHooks(env: Env, id: nat, kind: HookKind, hooks: seq<Hook>, w: World)
    requires Smooth(env)
    ensures var h := RunHooks(env, id, kind, hooks, w); !h.raised && h.w.held == w.held
  {
    if hooks != [] {
      var bad := env.fails(w.trace, HookRun(id, kind, hooks[0], true));
      SmoothHooks(env, id, kind, hooks[1..], w.(trace := w.trace + [HookRun(id, kind, hooks[0], !bad)]));
    }
  }

  /** What a commit or rollback may do to the locks: only those of the tree are given back. */
  ghost predicate Frees(t: Txn, w: World, t': Txn, w': World) {
    LockKeys(t') == LockKeys(t) && Distinct(t') && w.held - LockKeys(t) <= w'.held <= w.held
  }

  ghost predicate FreesAll(ts: seq<Txn>, w: World, ts': seq<Txn>, w': World) {
    && LockKeysAll(ts') == LockKeysAll(ts) && DistinctAll(ts') && HoldsAll(ts', w'.held)
    && w.held - LockKeysAll(ts) <= w'.held <= w.held
  }

  lemma {:induction false} RollbackStrict(env: Env, t: Txn, w: World)
    requires Smooth(env) && Distinct(t) && Holds(t, w.held)
    ensures var r := Rollback(env, t, w);
            !r.raised && r.t.state == (if t.Terminal() then t.state else ROLLED_BACK) && Frees(t, w, r.t, r.w)
    decreases t, 1
  {
    if !t.Terminal() {
      SmoothHooks(env, t.cfg.id, OnRollback, Reversed(t.rollbackHooks), w);
      RollbackAllStrict(env, t.children, RunHooks(env, t.cfg.id, OnRollback, Reversed(t.rollbackHooks), w).w);
    }
  }

  lemma {:induction false} RollbackAllStrict(env: Env, ts: seq<Txn>, w: World)
    requires Smooth(env) && DistinctAll(ts) && HoldsAll(ts, w.held)
    ensures var r := RollbackAll(env, ts, w); !r.raised && FreesAll(ts, w, r.ts, r.w)
    decreases ts, 0
  {
    if ts != [] {
      var n := |ts| - 1;
      var front, last := ts[..n], ts[n];
      assert ts == front + [last];
      Append(front, [last], w.held);
      Single(last, w.held);
      RollbackStrict(env, last, w);
      var r := Rollback(env, last, w);
      StillHoldsAll(front, w.held, r.w.held, LockKeys(last));
      RollbackAllStrict(env, front, r.w);
      var rest := RollbackAll(env, front, r.w);
      Single(r.t, rest.w.held);
      Append(rest.ts, [r.t], rest.w.held);
    }
  }

  lemma {:induction false} CommitAllStrict(env: Env, ts: seq<Txn>, w: World)
    requires Smooth(env) && DistinctAll(ts) && HoldsAll(ts, w.held)
    ensures var r := CommitAll(env, ts, w); (r.raised <==> AnySpent(ts, w.held)) && FreesAll(ts, w, r.ts, r.w)
    decreases ts, 0
  {
    if ts != [] {
      var first := Commit(env, ts[0], w);
      if !ts[0].Terminal() { CommitStrict(env, ts[0], w); }
      assert Frees(ts[0], w, first.t, first.w) && first.t.Terminal() && (first.raised <==> Spent(ts[0], w.held));
      StillHoldsAll(ts[1..], w.held, first.w.held, LockKeys(ts[0]));
      var rest := if first.raised then Results(ts[1..], first.w, true) else CommitAll(env, ts[1..], first.w);
      if !first.raised {
        CommitAllStrict(env, ts[1..], first.w);
        SpentLater(ts, w.held, first.w.held);
      }
      Single(first.t, rest.w.held);
      Append([first.t], rest.ts, rest.w.held);
    }
  }

  lemma SpentLater(ts: seq<Txn>, held: set<Key>, held': set<Key>)
    requires ts != [] && !Spent(ts[0], held) && DistinctAll(ts) && held - LockKeys(ts[0]) <= held' <= held
    ensures AnySpent(ts[1..], held') == AnySpent(ts, held)
  {
    forall i | 0 <= i < |ts| - 1 ensures Spent(ts[1..][i], held') == Spent(ts[i + 1], held) {
      KeyAmong(ts[1..], i);
    }
    if AnySpent(ts, held) {
      var i :| 0 <= i < |ts| && Spent(ts[i], held);
      assert Spent(ts[1..][i - 1], held');
    }
  }

  lemma {:induction false} KeyAmong(ts: seq<Txn>, i: nat)
    requires i < |ts|
    ensures LockKeys(ts[i]) <= LockKeysAll(ts)
  {
    if i > 0 { KeyAmong(ts[1..], i - 1); }
  }

  /** With a lock manager that raises, although no hook and no write fails, the commit of an undecided
      transaction commits it if and only if none of its children is a decided SERIALIZABLE one that has
      already given its lock back; otherwise it is rolled back. */
  lemma {:induction false} CommitStrict(env: Env, t: Txn, w: World)
    requires Smooth(env) && Distinct(t) && Holds(t, w.held) && !t.Terminal()
    ensures var r := Commit(env, t, w);
            && (r.t.state == COMMITTED <==> !AnySpent(t.children, w.held))
            && (r.t.state == ROLLED_BACK <==> AnySpent(t.children, w.held))
            && !r.raised && r.ret == (r.t.state == COMMITTED) && Frees(t, w, r.t, r.w)
    decreases t, 1
  {
    var cs := CommitAll(env, t.children, w);
    CommitAllStrict(env, t.children, w);
    var t1 := t.(children := cs.ts);
    if cs.raised { RollbackStrict(env, t1, cs.w); } else { OwnStrict(env, t1, cs.w); }
  }

  lemma OwnStrict(env: Env, t: Txn, w: World)
    requires Smooth(env) && (t.Locking() ==> t.cfg.key in w.held)
    ensures var r := Own(env, t, w);
            && !r.raised && r.ret && r.t == t.(state := COMMITTED)
            && r.w.held == w.held - if t.Locking() then {t.cfg.key} else {}
  {
    SmoothHooks(env, t.cfg.id, OnCommit, t.commitHooks, w);
  }

  /** With such a manager an exit raises before `reset`, and leaves its transaction active, if and only if
      the body ended normally and the transaction, having given its lock back, is committed once more. */
  lemma ExitStrict(env: Env, k: nat, s: State, exc: bool)
    requires Smooth(env) && k < |s.stack| && Distinct(s.stack[k]) && Holds(s.stack[k], s.w.held)
    ensures var t, x := s.stack[k], Exit(env, k, s, exc);
            && (x.txn.None? <==> !exc && Spent(t, s.w.held) && (t.mode == EAGER || (k == 0 && t.mode == LAZY)))
            && (x.txn.None? ==> x.raised && k < |x.s.stack|)
            && (x.txn.Some? ==> |x.s.stack| == k)
  {
    var t := s.stack[k];
    RollbackStrict(env, t, s.w);
    if !t.Terminal() { CommitStrict(env, t, s.w); }
  }

  /** A release that raises below spoils only what `rollback` returns: both transactions are rolled back. */
  lemma ReleaseBelowRaises(env: Env, t: Txn, c: Txn, w: World)
    requires Smooth(env) && !t.Terminal() && t.children == [c] && (t.Locking() ==> t.cfg.key in w.held)
    requires !c.Terminal() && c.children == [] && c.Locking() && c.cfg.key !in w.held
    ensures var r := Rollback(env, t, w);
            r.t.state == ROLLED_BACK && r.t.children == [Back(c)] && !r.ret && !r.raised
  {
    SmoothHooks(env, t.cfg.id, OnRollback, Reversed(t.rollbackHooks), w);
    var h := RunHooks(env, t.cfg.id, OnRollback, Reversed(t.rollbackHooks), w);
    SmoothHooks(env, c.cfg.id, OnRollback, Reversed(c.rollbackHooks), h.w);
    var k := RunHooks(env, c.cfg.id, OnRollback, Reversed(c.rollbackHooks), h.w);
    assert RollbackAll(env, [], k.w) == Results([], k.w, false);
    var r := Rollback(env, c, h.w);
    assert r.raised && r.t == Back(c).(children := []) == Back(c);
    assert [c][..0] == [] && RollbackAll(env, [c], h.w) == Results([] + [r.t], r.w, true);
  }

  /* ---------- Concrete programs on which the promises above fail ---------- */

  const LAZY_PARENT := Config(0, "", false, Some(LAZY), None, false, true)
  const EAGER_CHILD := Config(1, "k", true, Some(EAGER), Some(SERIALIZABLE), false, true)

  /** An EAGER SERIALIZABLE block inside a LAZY one. */
  const EAGER_IN_LAZY := Block(LAZY_PARENT, [Nested(Block(EAGER_CHILD, []))])

  /** The outer transaction once it has been entered, and the inner one once it has exited. */
  const OUTER := Txn(LAZY_PARENT, LAZY, READ_COMMITTED, ACTIVE, Plain(Nothing), [], [], [], false, false, None)
  const INNER := Txn(EAGER_CHILD, EAGER, SERIALIZABLE, COMMITTED, Plain(Nothing), [], [], [], false, false,
                     Some(Closing(COMMITTED, false, false)))

  lemma InnerCommits(env: Env, w: World)
    requires Smooth(env) && w.store == map[] && w.held == {}
    ensures var x := RunBlock(env, Block(EAGER_CHILD, []), State([OUTER], w));
            x.s.stack == [OUTER.(children := [INNER])] && !x.raised && x.s.w.held == {}
  {
    var s := State([OUTER], w);
    var e := Enter(env, EAGER_CHILD, s);
    var t := INNER.(state := ACTIVE, closing := None);
    assert e.s.stack == [OUTER, t];
    var c := Commit(env, t, e.s.w);
    assert c.t == t.(state := COMMITTED) && c.w.held == {} && !c.raised;
    var s1 := Replace(e.s, 1, c);
    assert RunBody(env, [], 1, e.s) == Exec(e.s, false);
    var q := Settle(env, 1, t, e.s.w);
    assert q == c;
    var x := Reset(env, 1, s1);
    assert Resetting(s1, 1) == INNER;
    assert [] + [INNER] == [INNER];
    assert x.s.stack == s1.stack[..0] + [OUTER.(children := [INNER])];
    assert Exit(env, 1, e.s, false).s == x.s;
  }

  /** Nothing fails, yet the outer block is rolled back after its inner one was committed: the inner
      lock is released twice. With a tolerant manager both are committed. */
  lemma EagerChildUndoesParent(env: Env)
    requires Smooth(env)
    ensures var x := RunBlock(env, EAGER_IN_LAZY, State([], World(map[], {}, [])));
            && !x.raised && x.txn.Some? && x.txn.value.state == ROLLED_BACK
            && x.txn.value.children == [INNER] && INNER.state == COMMITTED
            && Expected(EAGER_IN_LAZY, OUTERMOST, {}, Some(COMMITTED)).state == COMMITTED
  {
    var s0 := State([], World(map[], {}, []));
    var e0 := Enter(env, LAZY_PARENT, s0);
    assert e0.s.stack == [OUTER];
    InnerCommits(env, e0.s.w);
    var body := EAGER_IN_LAZY.body;
    assert body[0] == Nested(Block(EAGER_CHILD, [])) && body[1..] == [];
    assert !BodyRaises([]) && !StmtRaises(body[0]) && !Raises(EAGER_IN_LAZY);
    var p := OUTER.(children := [INNER]);
    var s1 := RunBlock(env, Block(EAGER_CHILD, []), e0.s).s;
    assert RunStmt(env, body[0], 0, e0.s) == Exec(s1, false);
    assert RunBody(env, body, 0, e0.s) == Exec(s1, false);
    OuterUndone(env, p, s1.w);
    assert Exit(env, 0, s1, false).txn == Some(Closed(Commit(env, p, s1.w).t, false));
  }

  lemma OuterUndone(env: Env, p: Txn, w: World)
    requires Smooth(env) && w.held == {} && p == OUTER.(children := [INNER])
    ensures var r := Commit(env, p, w); !r.raised && r.t.state == ROLLED_BACK && r.t.children == [INNER]
  {
    assert INNER.Locking() && INNER.Terminal();
    var cs := CommitAll(env, [INNER], w);
    assert Commit(env, INNER, w).raised;
    assert [INNER][1..] == [] && cs.raised && cs.ts == [INNER];
    assert Attempt(env, p, w).raised && Attempt(env, p, w).t == p;
    assert [INNER][..0] == [] && RollbackAll(env, [INNER], cs.w).ts == [INNER];
  }

  /** Every SERIALIZABLE LAZY or EAGER block that finds nothing stored, rolls itself back and ends
      normally: its `__exit__` raises before the context variable is reset, and it stays active. */
  lemma ExitWithoutReset(env: Env, c: Config, w: World)
    requires Smooth(env) && c.Keyed() && c.isolation == Some(SERIALIZABLE) && c.mode != Some(OFF)
    requires c.overwrite || c.key !in w.store
    ensures var x := RunBlock(env, Block(c, [CallRollback]), State([], w));
            x.raised && x.txn == None && |x.s.stack| == 1 && x.s.stack[0].state == ROLLED_BACK
  {
    var e := Enter(env, c, State([], w));
    var t := e.s.stack[0];
    assert t.state == ACTIVE && t.children == [] && t.Locking();
    RollbackStrict(env, t, e.s.w);
    var r := Rollback(env, t, e.s.w);
    assert r.t == Back(t) && c.key !in r.w.held;
    assert [CallRollback][1..] == [];
    assert RunBody(env, [CallRollback], 0, e.s) == Exec(State([r.t], r.w), false);
  }
}
