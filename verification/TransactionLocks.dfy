/** Which locks a program can leave held. */
module TransactionLocks {
  import opened Wrappers
  import opened TransactionModel
  import opened TransactionTolerance
  import opened TransactionOutcome

  /** The keys whose lock a tree may still hold: those of SERIALIZABLE transactions that were neither
      rolled back nor committed, and of those that found themselves committed at `begin`. */
  function Live(t: Txn): set<Key>
    decreases t, 1
  {
    Own(t) + LiveAll(t.children)
  }

  function Own(t: Txn): set<Key> {
    if t.Locking() && t.state != ROLLED_BACK && (t.state == COMMITTED ==> t.found) then {t.cfg.key} else {}
  }

  function LiveAll(ts: seq<Txn>): set<Key>
    decreases ts, 0
  {
    if ts == [] then {} else Live(ts[0]) + LiveAll(ts[1..])
  }

  lemma {:induction false} LiveAllAppend(ts: seq<Txn>, us: seq<Txn>)
    ensures LiveAll(ts + us) == LiveAll(ts) + LiveAll(us)
  {
    if ts == [] {
      assert ts + us == us;
    } else {
      assert (ts + us)[1..] == ts[1..] + us;
      LiveAllAppend(ts[1..], us);
    }
  }

  lemma {:induction false} RollbackAccounts(env: Env, t: Txn, w: World, rest: set<Key>)
    requires w.held <= rest + Live(t)
    ensures var r := Rollback(env, t, w); r.w.held <= rest + Live(r.t)
    decreases t, 1
  {
    if !t.Terminal() {
      HooksKeepStore(env, t.cfg.id, OnRollback, Reversed(t.rollbackHooks), w);
      var h := RunHooks(env, t.cfg.id, OnRollback, Reversed(t.rollbackHooks), w);
      RollbackAllAccounts(env, t.children, h.w, rest + Own(t));
    }
  }

  lemma {:induction false} RollbackAllAccounts(env: Env, ts: seq<Txn>, w: World, rest: set<Key>)
    requires w.held <= rest + LiveAll(ts)
    ensures var r := RollbackAll(env, ts, w); r.w.held <= rest + LiveAll(r.ts)
    decreases ts, 0
  {
    if ts != [] {
      var n := |ts| - 1;
      var last := Rollback(env, ts[n], w);
      LiveAllAppend(ts[..n], [ts[n]]);
      assert ts == ts[..n] + [ts[n]];
      RollbackAccounts(env, ts[n], w, rest + LiveAll(ts[..n]));
      LiveAllAppend(ts[..n], [last.t]);
      if !last.raised {
        RollbackAllAccounts(env, ts[..n], last.w, rest + Live(last.t));
        LiveAllAppend(RollbackAll(env, ts[..n], last.w).ts, [last.t]);
      }
    }
  }

  lemma {:induction false} CommitAccounts(env: Env, t: Txn, w: World, rest: set<Key>)
    requires w.held <= rest + Live(t)
    ensures var r := Commit(env, t, w); r.w.held <= rest + Live(r.t)
    decreases t, 1
  {
    if !t.Terminal() {
      var cs := CommitAll(env, t.children, w);
      CommitAllAccounts(env, t.children, w, rest + Own(t));
      HooksKeepStore(env, t.cfg.id, OnCommit, t.commitHooks, cs.w);
      var a := Attempt(env, t, w);
      assert a.w.held <= rest + Live(a.t);
      if a.raised { RollbackAccounts(env, a.t, a.w, rest); }
    }
  }

  lemma {:induction false} CommitAllAccounts(env: Env, ts: seq<Txn>, w: World, rest: set<Key>)
    requires w.held <= rest + LiveAll(ts)
    ensures var r := CommitAll(env, ts, w); r.w.held <= rest + LiveAll(r.ts)
    decreases ts, 0
  {
    if ts != [] {
      CommitAccounts(env, ts[0], w, rest + LiveAll(ts[1..]));
      var first := Commit(env, ts[0], w);
      if first.raised {
        LiveAllAppend([first.t], ts[1..]);
      } else {
        CommitAllAccounts(env, ts[1..], first.w, rest + Live(first.t));
        LiveAllAppend([first.t], CommitAll(env, ts[1..], first.w).ts);
      }
    }
  }

  /* ---------- Whole programs ---------- */

  ghost predicate Accounted(s: State, rest: set<Key>) {
    s.w.held <= rest + LiveAll(s.stack)
  }

  lemma LiveAllTop(s: State)
    requires s.stack != []
    ensures var n := |s.stack| - 1; LiveAll(s.stack) == LiveAll(s.stack[..n]) + Live(s.stack[n])
  {
    var n := |s.stack| - 1;
    LiveAllAppend(s.stack[..n], [s.stack[n]]);
    assert s.stack == s.stack[..n] + [s.stack[n]];
  }

  lemma ExitAccounts(env: Env, k: nat, s: State, exc: bool, rest: set<Key>)
    requires !env.strict && |s.stack| == k + 1 && Accounted(s, rest)
    ensures var x := Exit(env, k, s, exc);
            x.txn.Some? && x.s.w.held <= rest + LiveAll(x.s.stack) + if k == 0 then Live(x.txn.value) else {}
  {
    var t := s.stack[k];
    var below := LiveAll(s.stack[..k]);
    LiveAllTop(s);
    RollbackNeverRaises(env, t, s.w);
    SettleNeverRaises(env, k, t, s.w);
    RollbackAccounts(env, t, s.w, rest + below);
    CommitAccounts(env, t, s.w, rest + below);
    var r := if exc then Rollback(env, t, s.w) else Settle(env, k, t, s.w);
    var s1 := Replace(s, k, r);
    assert s1.stack[..k] == s.stack[..k];
    LiveAllTop(s1);
    ResetAccounts(env, k, s1, rest);
  }

  lemma ResetAccounts(env: Env, k: nat, s: State, rest: set<Key>)
    requires |s.stack| == k + 1 && Accounted(s, rest)
    ensures var x := Reset(env, k, s);
            x.s.w.held <= rest + LiveAll(x.s.stack) + if k == 0 then Live(x.txn.value) else {}
  {
    LiveAllTop(s);
    if k > 0 {
      var t := Resetting(s, k);
      var p := Adopting(s.stack[k - 1], t);
      LiveAllTop(State(s.stack[..k], s.w));
      LiveAllAppend(s.stack[k - 1].children, [t]);
      assert s.stack[..k][..k - 1] == s.stack[..k - 1];
      RollbackAccounts(env, p, s.w, rest + LiveAll(s.stack[..k - 1]));
      LiveAllAppend(s.stack[..k - 1], [p]);
      LiveAllAppend(s.stack[..k - 1], [Rollback(env, p, s.w).t]);
    }
  }

  lemma {:induction false} BlockAccounts(env: Env, b: Block, s: State, rest: set<Key>)
    requires !env.strict && Accounted(s, rest)
    ensures var x := RunBlock(env, b, s);
            x.s.w.held <= rest + LiveAll(x.s.stack) + if s.stack == [] && x.txn.Some? then Live(x.txn.value) else {}
    decreases b, 1
  {
    var e := Enter(env, b.cfg, s);
    if !e.raised {
      LiveAllAppend(s.stack, [Opened(b.cfg, s)]);
      BodyAccounts(env, b.body, |s.stack|, e.s, rest);
      BodyKeepsStack(env, b.body, |s.stack|, e.s);
      var f := RunBody(env, b.body, |s.stack|, e.s);
      ExitAccounts(env, |s.stack|, f.s, f.raised, rest);
    }
  }

  lemma {:induction false} BodyAccounts(env: Env, body: seq<Stmt>, k: nat, s: State, rest: set<Key>)
    requires !env.strict && |s.stack| == k + 1 && Accounted(s, rest)
    ensures Accounted(RunBody(env, body, k, s).s, rest)
    decreases body, 0
  {
    if body != [] {
      StmtAccounts(env, body[0], k, s, rest);
      StmtKeepsStack(env, body[0], k, s);
      var e := RunStmt(env, body[0], k, s);
      if !e.raised { BodyAccounts(env, body[1..], k, e.s, rest); }
    }
  }

  lemma {:induction false} StmtAccounts(env: Env, c: Stmt, k: nat, s: State, rest: set<Key>)
    requires !env.strict && |s.stack| == k + 1 && Accounted(s, rest)
    ensures Accounted(RunStmt(env, c, k, s).s, rest)
    decreases c, 2
  {
    match c {
      case Nested(b) => BlockAccounts(env, b, s, rest);
      case Guarded(b) => BlockAccounts(env, b, s, rest);
      case Stage(v, r, m) => TopAccounts(s, Result(StageIn(s.stack[k], v, r, m), s.w, true, false), k, rest);
      case CallCommit =>
        LiveAllTop(s);
        CommitAccounts(env, s.stack[k], s.w, rest + LiveAll(s.stack[..k]));
        TopAccounts(s, Commit(env, s.stack[k], s.w), k, rest);
      case CallRollback =>
        LiveAllTop(s);
        RollbackAccounts(env, s.stack[k], s.w, rest + LiveAll(s.stack[..k]));
        TopAccounts(s, Rollback(env, s.stack[k], s.w), k, rest);
      case Raise =>
    }
  }

  lemma TopAccounts(s: State, r: Result, k: nat, rest: set<Key>)
    requires |s.stack| == k + 1 && Accounted(s, rest)
    requires r.w.held <= (rest + LiveAll(s.stack[..k])) + Live(r.t) || (r.w.held == s.w.held && Live(s.stack[k]) <= Live(r.t))
    ensures Accounted(Replace(s, k, r), rest)
  {
    var s' := Replace(s, k, r);
    LiveAllTop(s);
    LiveAllTop(s');
    assert s'.stack[..k] == s.stack[..k];
  }

  /** Whatever fails, a lock that a program leaves held belongs to one of its transactions that ended
      undecided or that found itself committed at `begin`. */
  lemma LeftHeld(env: Env, b: Block, w: World)
    requires Harmless(env, b, State([], w))
    ensures var x := RunBlock(env, b, State([], w));
            x.s.w.held <= w.held + if x.txn.Some? then Live(x.txn.value) else {}
  {
    var tolerant := if env.strict then Tolerant(env) else env;
    if env.strict { BlockIndependent(env, b, State([], w)); }
    BlockAccounts(tolerant, b, State([], w), w.held);
    BlockKeepsStack(tolerant, b, State([], w));
  }

  /** Lock release: under the conditions of the outcome theorem no lock acquired by the program is left
      held, whether it ends normally or by an exception and whatever the commit modes. */
  lemma LocksReleased(env: Env, b: Block, w: World)
    requires Quiet(env) && Safe(env, b) && Straight(b) && Unstored(b, w.store.Keys)
    ensures RunBlock(env, b, State([], w)).s.w.held <= w.held
  {
    LeftHeld(env, b, w);
    OutcomeTheorem(env, b, w, {});
    ExpectedSettled(b, OUTERMOST, RootVerdict(b));
    NothingLive(RunBlock(env, b, State([], w)).txn.value);
  }

  /** A body without nested blocks, and whether it calls `commit` before it ends. */
  predicate NoNesting(body: seq<Stmt>) {
    body == [] || (!body[0].Nested? && !body[0].Guarded? && NoNesting(body[1..]))
  }

  predicate CallsCommit(body: seq<Stmt>) {
    body != [] && !body[0].Raise? && (body[0].CallCommit? || CallsCommit(body[1..]))
  }

  lemma {:induction false} FoundBody(env: Env, body: seq<Stmt>, s: State)
    requires |s.stack| == 1 && s.stack[0].state == COMMITTED && s.stack[0].Locking() && NoNesting(body)
    ensures var e, key := RunBody(env, body, 0, s), s.stack[0].cfg.key;
            && e.s.stack == s.stack && (!env.strict || !CallsCommit(body) ==> e.raised == BodyRaises(body))
            && e.s.w.held == if CallsCommit(body) then s.w.held - {key} else s.w.held
    decreases |body|
  {
    if body != [] {
      var e := RunStmt(env, body[0], 0, s);
      assert e.s.stack == s.stack;
      if !e.raised { FoundBody(env, body[1..], e.s); }
    }
  }

  /** That exception is real, and module TransactionKept says exactly when. With direct calls of `commit`,
      which are not considered there: a SERIALIZABLE block that finds its key stored keeps the lock if and only if
      it ends by an exception or with mode OFF, and its body did not call `commit`: rollback returns
      before the release, commit does not. */
  lemma FoundBlockKeepsLock(env: Env, b: Block, w: World)
    requires env.lockManager && NoNesting(b.body)
    requires b.cfg.Keyed() && b.cfg.isolation == Some(SERIALIZABLE) && !b.cfg.overwrite && b.cfg.key in w.store
    ensures var x := RunBlock(env, b, State([], w));
            && x.s.w.store == w.store
            && (!env.strict || !CallsCommit(b.body) ==> x.s.stack == [] && x.raised == Raises(b))
            && (b.cfg.key in x.s.w.held <==> (Raises(b) || b.cfg.mode == Some(OFF)) && !CallsCommit(b.body))
  {
    var e := Enter(env, b.cfg, State([], w));
    FoundBody(env, b.body, e.s);
    FoundKeepsStore(env, b.body, e.s);
  }

  lemma {:induction false} FoundKeepsStore(env: Env, body: seq<Stmt>, s: State)
    requires |s.stack| == 1 && s.stack[0].state == COMMITTED && NoNesting(body)
    ensures RunBody(env, body, 0, s).s.w.store == s.w.store
    decreases |body|
  {
    if body != [] {
      var e := RunStmt(env, body[0], 0, s);
      assert e.s.stack == s.stack;
      if !e.raised { FoundKeepsStore(env, body[1..], e.s); }
    }
  }

  /** Nothing found, and everything decided. */
  predicate Settled(o: Outcome)
    decreases o, 1
  {
    !o.found && o.Terminal() && SettledAll(o.children)
  }

  predicate SettledAll(os: seq<Outcome>)
    decreases os, 0
  {
    os == [] || (Settled(os[0]) && SettledAll(os[1..]))
  }

  lemma {:induction false} ExpectedSettled(b: Block, a: Around, v: TransactionState)
    requires v == ROLLED_BACK || v == COMMITTED
    ensures Settled(Expected(b, a, {}, Some(v)))
    decreases b, 1
  {
    ExpectedBodySettled(b.body, Inside(b.cfg, a), FateInside(b, a, {}, Some(v)).value);
  }

  lemma {:induction false} ExpectedBodySettled(body: seq<Stmt>, a: Around, v: TransactionState)
    requires v == ROLLED_BACK || v == COMMITTED
    ensures SettledAll(ExpectedBody(body, a, {}, Some(v)))
    decreases body, 0
  {
    if body != [] {
      ExpectedStmtSettled(body[0], a, v);
      ExpectedBodySettled(body[1..], a, v);
      var later := if StmtRaises(body[0]) then [] else ExpectedBody(body[1..], a, {}, Some(v));
      assert body[0].Nested? ==> ExpectedBody(body, a, {}, Some(v))[1..] == later;
      assert !body[0].Nested? ==> ExpectedBody(body, a, {}, Some(v)) == later;
    }
  }

  lemma {:induction false} ExpectedStmtSettled(c: Stmt, a: Around, v: TransactionState)
    requires v == ROLLED_BACK || v == COMMITTED
    ensures c.Nested? ==> Settled(Expected(c.block, a, {}, Some(v)))
    decreases c, 2
  {
    if c.Nested? { ExpectedSettled(c.block, a, v); }
  }

  lemma {:induction false} NothingLive(t: Txn)
    requires Settled(View(t))
    ensures Live(t) == {}
    decreases t, 1
  {
    NothingLiveAll(t.children);
  }

  lemma {:induction false} NothingLiveAll(ts: seq<Txn>)
    requires SettledAll(Views(ts))
    ensures LiveAll(ts) == {}
    decreases ts, 0
  {
    if ts != [] {
      NothingLive(ts[0]);
      assert Views(ts)[1..] == Views(ts[1..]);
      NothingLiveAll(ts[1..]);
    }
  }
}
