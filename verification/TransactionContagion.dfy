/** Rollback is contagious upwards. */
module TransactionContagion {
  import opened Wrappers
  import opened TransactionModel

  /** Some child was rolled back when it was reset, under a parent that was committed already. */
  predicate Shielded(t: Txn) { AnyShielded(t.children) }

  predicate AnyShielded(ts: seq<Txn>) {
    ts != [] && ((ts[0].WasRolledBack() && ts[0].closing.value.shielded) || AnyShielded(ts[1..]))
  }

  /** In a finished tree: a transaction with a child that was rolled back at its reset was itself rolled
      back at its own reset, unless it was revived or shielded; and one rolled back at its reset has stayed
      so. When no body calls `commit` (`free`), only one that found a record at `begin` is shielded. */
  predicate Sound(t: Txn, free: bool)
    decreases t, 1
  {
    SoundAll(t.children, free) && (t.closing.Some? ==> SoundClosing(t, t.closing.value, free))
  }

  predicate SoundClosing(t: Txn, c: Closing, free: bool) {
    && (Poisoned(t) ==> (c.state == ROLLED_BACK <==> !c.revived && !Shielded(t)))
    && (c.state == ROLLED_BACK ==> t.state == ROLLED_BACK)
    && (free && Shielded(t) ==> t.found)
  }

  predicate SoundAll(ts: seq<Txn>, free: bool)
    decreases ts, 0
  {
    ts == [] || (Sound(ts[0], free) && SoundAll(ts[1..], free))
  }

  lemma {:induction false} SoundAllAppend(ts: seq<Txn>, us: seq<Txn>, free: bool)
    ensures SoundAll(ts + us, free) == (SoundAll(ts, free) && SoundAll(us, free))
    ensures AnyRolledBack(ts + us) == (AnyRolledBack(ts) || AnyRolledBack(us))
    ensures AnyShielded(ts + us) == (AnyShielded(ts) || AnyShielded(us))
  {
    if ts == [] {
      assert ts + us == us;
    } else {
      assert (ts + us)[1..] == ts[1..] + us;
      SoundAllAppend(ts[1..], us, free);
    }
  }

  /** `t'` is `t` after commits and rollbacks: its record of resets is the same, still sound below. */
  ghost predicate Kept(t: Txn, t': Txn, free: bool) {
    && t'.closing == t.closing && t'.found == t.found && t'.cfg == t.cfg && t'.mode == t.mode
    && (t.Terminal() ==> t'.state == t.state)
    && Poisoned(t') == Poisoned(t) && Shielded(t') == Shielded(t)
    && (SoundAll(t.children, free) ==> SoundAll(t'.children, free))
  }

  ghost predicate KeptAll(ts: seq<Txn>, ts': seq<Txn>, free: bool) {
    && AnyRolledBack(ts') == AnyRolledBack(ts) && AnyShielded(ts') == AnyShielded(ts)
    && (SoundAll(ts, free) ==> SoundAll(ts', free))
  }

  lemma {:induction false} RollbackKeeps(env: Env, t: Txn, w: World, free: bool)
    ensures Kept(t, Rollback(env, t, w).t, free)
    decreases t, 1
  {
    if !t.Terminal() {
      RollbackAllKeeps(env, t.children, RunHooks(env, t.cfg.id, OnRollback, Reversed(t.rollbackHooks), w).w, free);
    }
  }

  lemma {:induction false} RollbackAllKeeps(env: Env, ts: seq<Txn>, w: World, free: bool)
    ensures KeptAll(ts, RollbackAll(env, ts, w).ts, free)
    decreases ts, 0
  {
    if ts != [] {
      var n := |ts| - 1;
      var last := Rollback(env, ts[n], w);
      RollbackKeeps(env, ts[n], w, free);
      KeptOne(ts[n], last.t, free);
      assert ts == ts[..n] + [ts[n]];
      SoundAllAppend(ts[..n], [ts[n]], free);
      SoundAllAppend(ts[..n], [last.t], free);
      if !last.raised {
        RollbackAllKeeps(env, ts[..n], last.w, free);
        SoundAllAppend(RollbackAll(env, ts[..n], last.w).ts, [last.t], free);
      }
    }
  }

  lemma KeptOne(t: Txn, t': Txn, free: bool)
    requires Kept(t, t', free)
    ensures KeptAll([t], [t'], free)
  {
    assert [t][1..] == [] && [t'][1..] == [] && SoundAll([], free);
    if SoundAll([t], free) {
      assert Sound(t, free) && SoundAll(t.children, free);
      assert Sound(t', free) && [t'][0] == t';
    }
  }

  lemma {:induction false} CommitKeeps(env: Env, t: Txn, w: World, free: bool)
    ensures Kept(t, Commit(env, t, w).t, free)
    decreases t, 2
  {
    if !t.Terminal() {
      AttemptKeeps(env, t, w, free);
      var a := Attempt(env, t, w);
      if a.raised { RollbackKeeps(env, a.t, a.w, free); }
    }
  }

  lemma {:induction false} AttemptKeeps(env: Env, t: Txn, w: World, free: bool)
    requires !t.Terminal()
    ensures Kept(t, Attempt(env, t, w).t, free)
    decreases t, 1
  {
    CommitAllKeeps(env, t.children, w, free);
  }

  lemma {:induction false} CommitAllKeeps(env: Env, ts: seq<Txn>, w: World, free: bool)
    ensures KeptAll(ts, CommitAll(env, ts, w).ts, free)
    decreases ts, 0
  {
    if ts != [] {
      var first := Commit(env, ts[0], w);
      CommitKeeps(env, ts[0], w, free);
      KeptOne(ts[0], first.t, free);
      assert ts == [ts[0]] + ts[1..];
      SoundAllAppend([ts[0]], ts[1..], free);
      if first.raised {
        SoundAllAppend([first.t], ts[1..], free);
      } else {
        CommitAllKeeps(env, ts[1..], first.w, free);
        SoundAllAppend([first.t], CommitAll(env, ts[1..], first.w).ts, free);
      }
    }
  }

  /* ---------- Programs ---------- */

  /** Rollback hooks do not raise; commit hooks, writes and lock releases may. */
  ghost predicate RollbacksRun(env: Env) {
    forall h, id, hook :: !env.fails(h, HookRun(id, OnRollback, hook, true))
  }

  /** No body calls `commit`. */
  predicate CommitFree(b: Block)
    decreases b, 1
  {
    CommitFreeBody(b.body)
  }

  predicate CommitFreeBody(body: seq<Stmt>)
    decreases body, 0
  {
    body == [] || (CommitFreeStmt(body[0]) && CommitFreeBody(body[1..]))
  }

  predicate CommitFreeStmt(c: Stmt)
    decreases c, 2
  {
    !c.CallCommit? && (Opens(c) ==> CommitFree(c.block))
  }

  predicate Opens(c: Stmt) { c.Nested? || c.Guarded? }

  lemma {:induction false} HooksRun(env: Env, id: nat, hooks: seq<Hook>, w: World)
    requires RollbacksRun(env)
    ensures !RunHooks(env, id, OnRollback, hooks, w).raised
  {
    if hooks != [] {
      var bad := env.fails(w.trace, HookRun(id, OnRollback, hooks[0], true));
      HooksRun(env, id, hooks[1..], w.(trace := w.trace + [HookRun(id, OnRollback, hooks[0], !bad)]));
    }
  }

  /** A transaction with a child reset rolled back is rolled back, revived or shielded. */
  ghost predicate Fair(t: Txn, free: bool) {
    && SoundAll(t.children, free) && (free && Shielded(t) ==> t.found)
    && (Poisoned(t) ==> (t.state == ROLLED_BACK <==> !t.revived && !Shielded(t)))
  }

  /** What else an open transaction satisfies between the statements of its body. */
  ghost predicate Good(t: Txn, free: bool) {
    && Fair(t, free) && (t.state == ROLLED_BACK ==> !t.revived) && (Shielded(t) ==> t.state == COMMITTED)
    && (free ==> (t.found <==> t.state == COMMITTED))
  }

  lemma RollbackGood(env: Env, t: Txn, w: World, free: bool)
    requires RollbacksRun(env) && Good(t, free)
    ensures Good(Rollback(env, t, w).t, free)
  {
    RollbackKeeps(env, t, w, free);
    HooksRun(env, t.cfg.id, Reversed(t.rollbackHooks), w);
  }

  lemma CommitFair(env: Env, t: Txn, w: World, free: bool)
    requires RollbacksRun(env) && Good(t, free)
    ensures var t' := Commit(env, t, w).t; Fair(t', free) && (!free ==> Good(t', free))
  {
    CommitKeeps(env, t, w, free);
    if !t.Terminal() {
      var a := Attempt(env, t, w);
      if a.raised { HooksRun(env, t.cfg.id, Reversed(t.rollbackHooks), a.w); }
    }
  }

  /** The parent takes over a child that has just been closed, and is rolled back if the child was. */
  lemma AdoptGood(env: Env, p: Txn, t: Txn, w: World, free: bool)
    requires RollbacksRun(env) && Good(p, free) && Sound(t, free)
    requires t.closing == Some(Closing(t.state, t.revived, p.state == COMMITTED))
    ensures var q := Adopting(p, t);
            Good(if t.state == ROLLED_BACK then Rollback(env, q, w).t else q, free)
  {
    var q := Adopting(p, t);
    assert [t][1..] == [];
    SoundAllAppend(p.children, [t], free);
    if t.state == ROLLED_BACK {
      RollbackKeeps(env, q, w, free);
      HooksRun(env, q.cfg.id, Reversed(q.rollbackHooks), w);
    }
  }

  lemma ResetGood(env: Env, k: nat, s: State, free: bool)
    requires RollbacksRun(env) && k < |s.stack| && Fair(s.stack[k], free)
    ensures var x := Reset(env, k, s);
            Sound(x.txn.value, free) && (k > 0 && Good(s.stack[k - 1], free) ==> Good(x.s.stack[k - 1], free))
  {
    if k > 0 && Good(s.stack[k - 1], free) { AdoptGood(env, s.stack[k - 1], Resetting(s, k), s.w, free); }
  }

  lemma ExitGood(env: Env, k: nat, s: State, exc: bool, free: bool)
    requires RollbacksRun(env) && k < |s.stack| && Good(s.stack[k], free)
    ensures var x := Exit(env, k, s, exc);
            && (x.txn.Some? ==> Sound(x.txn.value, free))
            && (k > 0 && Good(s.stack[k - 1], free) ==> Good(x.s.stack[k - 1], free))
  {
    var t := s.stack[k];
    RollbackGood(env, t, s.w, free);
    CommitFair(env, t, s.w, free);
    var r := if exc then Rollback(env, t, s.w) else Settle(env, k, t, s.w);
    assert Fair(r.t, free);
    if !r.raised { ResetGood(env, k, Replace(s, k, r), free); }
  }

  lemma {:induction false} BlockGood(env: Env, b: Block, s: State, free: bool)
    requires RollbacksRun(env) && (free ==> CommitFree(b))
    ensures var x, n := RunBlock(env, b, s), |s.stack| - 1;
            && (x.txn.Some? ==> Sound(x.txn.value, free))
            && (s.stack != [] && Good(s.stack[n], free) ==> Good(x.s.stack[n], free))
    decreases b, 1
  {
    var k := |s.stack|;
    var e := Enter(env, b.cfg, s);
    if !e.raised {
      BodyGood(env, b.body, k, e.s, free);
      var f := RunBody(env, b.body, k, e.s);
      assert k > 0 ==> f.s.stack[k - 1] == f.s.stack[..k][k - 1] == s.stack[k - 1];
      ExitGood(env, k, f.s, f.raised, free);
    }
  }

  lemma {:induction false} BodyGood(env: Env, body: seq<Stmt>, k: nat, s: State, free: bool)
    requires RollbacksRun(env) && k < |s.stack| && (free ==> CommitFreeBody(body)) && Good(s.stack[k], free)
    ensures Good(RunBody(env, body, k, s).s.stack[k], free)
    decreases body, 0
  {
    if body != [] {
      StmtGood(env, body[0], k, s, free);
      var e := RunStmt(env, body[0], k, s);
      if !e.raised { BodyGood(env, body[1..], k, e.s, free); }
    }
  }

  lemma {:induction false} StmtGood(env: Env, c: Stmt, k: nat, s: State, free: bool)
    requires RollbacksRun(env) && k < |s.stack| && (free ==> CommitFreeStmt(c)) && Good(s.stack[k], free)
    ensures Good(RunStmt(env, c, k, s).s.stack[k], free)
    decreases c, 2
  {
    if Opens(c) {
      BlockGood(env, c.block, s, free);
      BlockBelow(env, c.block, k, s);
    } else {
      OwnStmtGood(env, c, k, s, free);
    }
  }

  lemma BlockBelow(env: Env, b: Block, k: nat, s: State)
    requires k < |s.stack|
    ensures var x := RunBlock(env, b, s); k < |x.s.stack| && (k < |s.stack| - 1 ==> x.s.stack[k] == s.stack[k])
  {
    var x, n := RunBlock(env, b, s), |s.stack| - 1;
    assert k < n ==> x.s.stack[k] == x.s.stack[..n][k] == s.stack[k];
  }

  lemma OwnStmtGood(env: Env, c: Stmt, k: nat, s: State, free: bool)
    requires RollbacksRun(env) && k < |s.stack| && !Opens(c) && (free ==> !c.CallCommit?) && Good(s.stack[k], free)
    ensures Good(RunStmt(env, c, k, s).s.stack[k], free)
  {
    CommitFair(env, s.stack[k], s.w, free);
    RollbackGood(env, s.stack[k], s.w, free);
  }

  /** Upward contagion, for every program, with stages and nested blocks in any order, whatever commit hooks,
      writes and lock releases do and whatever exceptions bodies swallow. At every node of the finished
      tree that has a child rolled back at its reset: it was itself rolled back at its reset, and has stayed
      so, if and only if it was not revived (staged after the last such reset and not rolled back again) and
      not shielded (committed before one). Where no body calls `commit` only what was found committed at
      `begin` is shielded. */
  lemma Contagion(env: Env, b: Block, s: State)
    requires RollbacksRun(env)
    ensures var x := RunBlock(env, b, s); x.txn.Some? ==> Sound(x.txn.value, CommitFree(b))
  {
    BlockGood(env, b, s, CommitFree(b));
  }

  /** A LAZY block without a key whose body swallows the exception of a nested block, and then stages. */
  function StagesLate(inner: Config, value: Staged): Block {
    Block(Config(0, "", false, Some(LAZY), None, false, true), [Guarded(Block(inner, [Raise])), Stage(value, [], [])])
  }

  /** Staging late is what contagion does not survive: `stage` takes a rolled-back transaction back to
      STAGED, and it is then committed above a child that was, and stays, rolled back. */
  lemma LateStageRevives(env: Env, inner: Config, value: Staged, w: World)
    requires !env.strict && env.lockManager && RollbacksRun(env) && (inner.Keyed() ==> inner.key !in w.store)
    ensures var x := RunBlock(env, StagesLate(inner, value), State([], w));
            && !x.raised && x.txn.Some? && x.txn.value.state == COMMITTED
            && Poisoned(x.txn.value) && x.txn.value.revived
            && |x.txn.value.children| == 1 && x.txn.value.children[0].state == ROLLED_BACK
  {
    var b := StagesLate(inner, value);
    var outer := Enter(env, b.cfg, State([], w)).s;
    SwallowedRollback(env, inner, outer);
    var s := RunBlock(env, Block(inner, [Raise]), outer).s;
    var t := StageIn(s.stack[0], value, [], []);
    var staged := State([t], s.w);
    assert s.stack[0 := t] == [t];
    assert b.body[0] == Guarded(Block(inner, [Raise])) && b.body[1..] == [Stage(value, [], [])];
    assert [Stage(value, [], [])][1..] == [];
    assert RunBody(env, [Stage(value, [], [])], 0, s) == Exec(staged, false);
    assert RunBody(env, b.body, 0, outer) == Exec(staged, false);
    CommitsAbove(env, t, s.w);
    assert Poisoned(t);
  }

  lemma CommitsAbove(env: Env, t: Txn, w: World)
    requires !env.strict && !t.Terminal() && !t.cfg.Keyed() && t.commitHooks == []
    requires |t.children| == 1 && t.children[0].Terminal()
    ensures var c := Commit(env, t, w); c.t == t.(state := COMMITTED) && !c.raised
  {
    var first := Commit(env, t.children[0], w);
    assert CommitAll(env, [], first.w) == Results([], first.w, false);
    assert t.children[1..] == [];
    assert CommitAll(env, t.children, w) == Results([first.t] + [], first.w, false);
    assert [first.t] + [] == t.children && t.(children := t.children) == t;
    assert Attempt(env, t, w).t == t.(state := COMMITTED);
  }

  /** A block inside the outermost one raises: both are rolled back. */
  lemma SwallowedRollback(env: Env, inner: Config, s: State)
    requires !env.strict && env.lockManager && RollbacksRun(env) && (inner.Keyed() ==> inner.key !in s.w.store)
    requires |s.stack| == 1 && !s.stack[0].Terminal() && !s.stack[0].Locking()
    requires s.stack[0].children == [] && s.stack[0].rollbackHooks == []
    ensures var x := RunBlock(env, Block(inner, [Raise]), s);
            && |x.s.stack| == 1 && |x.s.stack[0].children| == 1
            && x.s.stack[0] == Back(s.stack[0]).(children := x.s.stack[0].children)
            && x.s.stack[0].children[0].state == ROLLED_BACK && x.s.stack[0].children[0].WasRolledBack()
  {
    var open := Enter(env, inner, s).s;
    assert [Raise][1..] == [] && RunBody(env, [Raise], 1, open) == Exec(open, true);
    var r := Rollback(env, open.stack[1], open.w);
    assert r.t.state == ROLLED_BACK && !r.raised;
    assert Replace(open, 1, r).stack == [s.stack[0], r.t];
    var child := Closed(r.t, false);
    var p := s.stack[0].(children := [] + [child]);
    assert p.children == [child] && [child][..0] == [];
    assert RollbackAll(env, [child], r.w).ts == [child];
    assert Rollback(env, p, r.w).t == Back(p);
  }
}
