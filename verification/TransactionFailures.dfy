/** What a failing hook or write does to the commit or rollback it happens in. */
module TransactionFailures {
  import opened Wrappers
  import opened TransactionModel
  import opened TransactionSingleWrite
  import opened TransactionTolerance
  import TransactionContagion

  /** The trace `b` goes on from `a`, with events of the transactions `ids` only. */
  ghost predicate Adds(a: seq<Event>, b: seq<Event>, ids: set<nat>) {
    a <= b && forall i :: |a| <= i < |b| ==> b[i].txn in ids
  }

  lemma AddsTwice(a: seq<Event>, b: seq<Event>, c: seq<Event>, ids: set<nat>, more: set<nat>)
    requires Adds(a, b, ids) && Adds(b, c, more)
    ensures Adds(a, c, ids + more)
  {
    forall i | |a| <= i < |c| ensures c[i].txn in ids + more { assert i < |b| ==> c[i] == b[i]; }
  }

  /** The hooks up to number `n` ran, and that one, if there is one, failed. */
  function RanTo(id: nat, kind: HookKind, hooks: seq<Hook>, n: nat): seq<Event>
    requires n <= |hooks|
  {
    seq(n, i requires 0 <= i < n => HookRun(id, kind, hooks[i], true))
    + if n < |hooks| then [HookRun(id, kind, hooks[n], false)] else []
  }

  lemma {:induction false} HooksRanTo(env: Env, id: nat, kind: HookKind, hooks: seq<Hook>, w: World) returns (n: nat)
    ensures var h := RunHooks(env, id, kind, hooks, w);
            && n <= |hooks| && h.w.trace == w.trace + RanTo(id, kind, hooks, n) && (h.raised <==> n < |hooks|)
            && h.w.store == w.store && h.w.held == w.held
  {
    if hooks == [] {
      n := 0;
      assert RanTo(id, kind, hooks, 0) == [] && w.trace + [] == w.trace;
    } else {
      var bad := env.fails(w.trace, HookRun(id, kind, hooks[0], true));
      var e := HookRun(id, kind, hooks[0], !bad);
      if bad {
        n := 0;
        assert RanTo(id, kind, hooks, 0) == [e];
      } else {
        var m := HooksRanTo(env, id, kind, hooks[1..], w.(trace := w.trace + [e]));
        n := m + 1;
        assert RanTo(id, kind, hooks, n) == [e] + RanTo(id, kind, hooks[1..], m);
        Regroup(w.trace, [e], RanTo(id, kind, hooks[1..], m));
      }
    }
  }

  /* ---------- Commits and rollbacks add events of their own tree only ---------- */

  lemma {:induction false} RollbackAdds(env: Env, t: Txn, w: World)
    ensures var r := Rollback(env, t, w); Adds(w.trace, r.w.trace, Ids(t)) && Ids(r.t) == Ids(t)
    decreases t, 1
  {
    if !t.Terminal() {
      var hooks := Reversed(t.rollbackHooks);
      var n := HooksRanTo(env, t.cfg.id, OnRollback, hooks, w);
      var h := RunHooks(env, t.cfg.id, OnRollback, hooks, w);
      if !h.raised {
        RollbackAllAdds(env, t.children, h.w);
        AddsTwice(w.trace, h.w.trace, RollbackAll(env, t.children, h.w).w.trace, {t.cfg.id}, IdsAll(t.children));
      }
    }
  }

  lemma {:induction false} RollbackAllAdds(env: Env, ts: seq<Txn>, w: World)
    ensures var r := RollbackAll(env, ts, w); Adds(w.trace, r.w.trace, IdsAll(ts)) && IdsAll(r.ts) == IdsAll(ts)
    decreases ts, 0
  {
    if ts != [] {
      var n := |ts| - 1;
      assert ts == ts[..n] + [ts[n]];
      IdsAllAppend(ts[..n], [ts[n]]);
      Single(ts[n], []);
      RollbackAdds(env, ts[n], w);
      var last := Rollback(env, ts[n], w);
      Single(last.t, []);
      IdsAllAppend(ts[..n], [last.t]);
      if !last.raised {
        RollbackAllAdds(env, ts[..n], last.w);
        var rest := RollbackAll(env, ts[..n], last.w);
        IdsAllAppend(rest.ts, [last.t]);
        AddsTwice(w.trace, last.w.trace, rest.w.trace, Ids(ts[n]), IdsAll(ts[..n]));
      }
    }
  }

  lemma {:induction false} CommitAdds(env: Env, t: Txn, w: World)
    ensures var r := Commit(env, t, w); Adds(w.trace, r.w.trace, Ids(t)) && Ids(r.t) == Ids(t)
    decreases t, 1
  {
    if !t.Terminal() {
      CommitAllAdds(env, t.children, w);
      var cs := CommitAll(env, t.children, w);
      var t1 := t.(children := cs.ts);
      assert Ids(t1) == Ids(t);
      OwnAdds(env, t1, cs.w);
      var a := Attempt(env, t, w);
      AddsTwice(w.trace, cs.w.trace, a.w.trace, IdsAll(t.children), {t.cfg.id});
      if a.raised {
        RollbackAdds(env, a.t, a.w);
        AddsTwice(w.trace, a.w.trace, Rollback(env, a.t, a.w).w.trace, Ids(t), Ids(t));
      }
    }
  }

  lemma OwnAdds(env: Env, t: Txn, w: World)
    ensures var r := Own(env, t, w); Adds(w.trace, r.w.trace, {t.cfg.id}) && Ids(r.t) == Ids(t)
  {
    var n := HooksRanTo(env, t.cfg.id, OnCommit, t.commitHooks, w);
  }

  lemma {:induction false} CommitAllAdds(env: Env, ts: seq<Txn>, w: World)
    ensures var r := CommitAll(env, ts, w); Adds(w.trace, r.w.trace, IdsAll(ts)) && IdsAll(r.ts) == IdsAll(ts)
    decreases ts, 0
  {
    if ts != [] {
      CommitAdds(env, ts[0], w);
      var first := Commit(env, ts[0], w);
      Single(first.t, []);
      IdsAllAppend([first.t], ts[1..]);
      if !first.raised {
        CommitAllAdds(env, ts[1..], first.w);
        var rest := CommitAll(env, ts[1..], first.w);
        IdsAllAppend([first.t], rest.ts);
        AddsTwice(w.trace, first.w.trace, rest.w.trace, Ids(ts[0]), IdsAll(ts[1..]));
      }
    }
  }

  /* ---------- Decided transactions ---------- */

  /** A decided transaction is final: neither call changes it or runs anything, and both return false; commit
      gives its lock back and rollback does not even do that. */
  lemma DecidedIsFinal(env: Env, t: Txn, w: World)
    requires t.Terminal()
    ensures var locks := t.cfg.hasStore && t.cfg.key != "" && t.isolation == SERIALIZABLE;
            Commit(env, t, w) == Result(t, w.(held := if locks then w.held - {t.cfg.key} else w.held), false,
                                        locks && env.strict && t.cfg.key !in w.held)
    ensures Rollback(env, t, w) == Result(t, w, false, false)
  {}

  /* ---------- Rollback hooks ---------- */

  /** Among the events that `b` has beyond `a`, a hook of the kind, or with it a write, of `id` failed. */
  ghost predicate Failed(a: seq<Event>, b: seq<Event>, id: nat, kind: HookKind) {
    exists i :: |a| <= i < |b| && IsFailure(b[i], id, kind)
  }

  predicate IsFailure(e: Event, id: nat, kind: HookKind) {
    e.txn == id && !e.ok && match e case HookRun(_, k, _, _) => k == kind case Write(_, _, _, _) => kind == OnCommit
  }

  /** A rollback takes effect if and only if none of its own rollback hooks fails; otherwise the transaction
      and everything below it stay as they are, and nothing runs after the hook that failed. When no release can
      raise, what `rollback` returns says which. */
  lemma RollbackUnlessHookFails(env: Env, t: Txn, w: World)
    requires !t.Terminal() && t.cfg.id !in IdsAll(t.children)
    ensures var r := Rollback(env, t, w);
            && w.trace <= r.w.trace
            && (r.t.state == ROLLED_BACK <==> !Failed(w.trace, r.w.trace, t.cfg.id, OnRollback))
            && (r.t.state != ROLLED_BACK ==> r.t == t && !r.ret && |w.trace| < |r.w.trace|)
            && (r.t.state != ROLLED_BACK ==> IsFailure(r.w.trace[|r.w.trace| - 1], t.cfg.id, OnRollback))
            && (!env.strict ==> (r.ret <==> r.t.state == ROLLED_BACK))
  {
    var id, hooks := t.cfg.id, Reversed(t.rollbackHooks);
    var n := HooksRanTo(env, id, OnRollback, hooks, w);
    var h := RunHooks(env, id, OnRollback, hooks, w);
    var r := Rollback(env, t, w);
    if h.raised {
      var i := |h.w.trace| - 1;
      assert r.w.trace[i] == HookRun(id, OnRollback, hooks[n], false);
    } else {
      RollbackAllAdds(env, t.children, h.w);
      forall i | |w.trace| <= i < |r.w.trace| ensures !IsFailure(r.w.trace[i], id, OnRollback) {
        if i < |h.w.trace| { assert r.w.trace[i] == h.w.trace[i] == RanTo(id, OnRollback, hooks, n)[i - |w.trace|]; }
      }
      if !env.strict { ChildrenRolledBack(env, t.children, h.w); }
    }
  }

  lemma {:induction false} ChildrenRolledBack(env: Env, ts: seq<Txn>, w: World)
    requires !env.strict
    ensures !RollbackAll(env, ts, w).raised
    decreases |ts|
  {
    if ts != [] {
      RollbackNeverRaises(env, ts[|ts| - 1], w);
      ChildrenRolledBack(env, ts[..|ts| - 1], Rollback(env, ts[|ts| - 1], w).w);
    }
  }

  /* ---------- Commit hooks and writes ---------- */

  /** A commit in which a commit hook or the write of the transaction itself fails does not commit it: nothing
      is written, `commit` returns false, and it is rolled back if its rollback hooks run. */
  lemma FailureStopsCommit(env: Env, t: Txn, w: World)
    requires Once(t, w.trace) && !t.Terminal()
    ensures var r := Commit(env, t, w);
            && w.trace <= r.w.trace
            && (Failed(w.trace, r.w.trace, t.cfg.id, OnCommit) ==>
                  r.t.state != COMMITTED && !r.ret && Persisted(r.w.trace, t.cfg.id) == Persisted(w.trace, t.cfg.id)
                  && (TransactionContagion.RollbacksRun(env) ==> r.t.state == ROLLED_BACK))
  {
    CommitAdds(env, t, w);
    RolledBackUnlessCommitted(env, t, w);
    if Commit(env, t, w).t.state == COMMITTED { NoFailureInCommitted(env, t, w); } else { NothingWritten(env, t, w); }
  }

  lemma NothingWritten(env: Env, t: Txn, w: World)
    requires Once(t, w.trace) && !t.Terminal() && Commit(env, t, w).t.state != COMMITTED
    ensures Persisted(Commit(env, t, w).w.trace, t.cfg.id) == Persisted(w.trace, t.cfg.id)
  {
    var r := Commit(env, t, w);
    CommitOnce(env, t, w);
    UncommittedWroteNothing(t, w.trace);
    UncommittedWroteNothing(r.t, r.w.trace);
    assert r.t.cfg == t.cfg by { TransactionContagion.CommitKeeps(env, t, w, false); }
  }

  lemma UncommittedWroteNothing(t: Txn, trace: seq<Event>)
    requires Once(t, trace) && t.state != COMMITTED
    ensures Persisted(trace, t.cfg.id) == []
  {}

  lemma NoFailureInCommitted(env: Env, t: Txn, w: World)
    requires !t.Terminal() && t.cfg.id !in IdsAll(t.children) && Commit(env, t, w).t.state == COMMITTED
    ensures !Failed(w.trace, Commit(env, t, w).w.trace, t.cfg.id, OnCommit)
  {
    var trace, below, own := Commit(env, t, w).w.trace, CommitAll(env, t.children, w).w.trace, OwnEvents(t);
    CommittedRanAll(env, t, w);
    CommitAllAdds(env, t.children, w);
    assert trace == below + own;
    forall i | |w.trace| <= i < |trace| ensures !IsFailure(trace[i], t.cfg.id, OnCommit) {
      if i >= |below| { assert trace[i] == own[i - |below|]; } else { assert trace[i] == below[i]; }
    }
  }

  lemma RolledBackUnlessCommitted(env: Env, t: Txn, w: World)
    requires !t.Terminal()
    ensures var r := Commit(env, t, w);
            && (r.ret ==> r.t.state == COMMITTED)
            && (TransactionContagion.RollbacksRun(env) ==> r.t.state == COMMITTED || r.t.state == ROLLED_BACK)
  {
    var a := Attempt(env, t, w);
    if TransactionContagion.RollbacksRun(env) {
      TransactionContagion.HooksRun(env, a.t.cfg.id, Reversed(a.t.rollbackHooks), a.w);
    }
  }

  /** All commit hooks in order, then the write. */
  function OwnEvents(t: Txn): seq<Event> {
    RanTo(t.cfg.id, OnCommit, t.commitHooks, |t.commitHooks|)
    + if t.cfg.hasStore && t.cfg.key != "" && t.cfg.writeOnCommit
      then [Write(t.cfg.id, if t.staged.Record? then t.staged.key else t.cfg.key, t.staged.value, true)] else []
  }

  /** A transaction that `commit` commits has run, after its children and last of all, every commit hook in
      order and then its write, all of them with success. */
  lemma CommittedRanAll(env: Env, t: Txn, w: World)
    requires !t.Terminal()
    ensures var r, below := Commit(env, t, w), CommitAll(env, t.children, w).w.trace;
            r.t.state == COMMITTED ==> r.w.trace == below + OwnEvents(t)
  {
    var cs, r := CommitAll(env, t.children, w), Commit(env, t, w);
    var n := HooksRanTo(env, t.cfg.id, OnCommit, t.commitHooks, cs.w);
    var h := RunHooks(env, t.cfg.id, OnCommit, t.commitHooks, cs.w);
    var a := Attempt(env, t, w);
    if r.t.state == COMMITTED {
      assert a.t.state == COMMITTED && r.w.trace == a.w.trace;
      assert !cs.raised && !h.raised && n == |t.commitHooks|;
      var ran := RanTo(t.cfg.id, OnCommit, t.commitHooks, n);
      var write := OwnEvents(t)[|ran|..];
      assert OwnEvents(t) == ran + write && ran + [] == ran;
      Regroup(cs.w.trace, ran, write);
    }
  }

  /** When no release can raise, the converse holds too: an undecided transaction is committed by `commit`, and
      `commit` returns true, if and only if none of its own commit hooks and not its write fails. */
  lemma CommitUnlessFailure(env: Env, t: Txn, w: World)
    requires Once(t, w.trace) && !t.Terminal() && (env.strict ==> Unlocked(t))
    ensures var r := Commit(env, t, w);
            && (r.t.state == COMMITTED <==> !Failed(w.trace, r.w.trace, t.cfg.id, OnCommit))
            && (r.ret <==> r.t.state == COMMITTED)
  {
    FailureStopsCommit(env, t, w);
    if env.strict { CommitIndependent(env, t, w); }
    var e := if env.strict then Tolerant(env) else env;
    var r, cs := Commit(e, t, w), CommitAll(e, t.children, w);
    ChildrenCommitted(e, t.children, w);
    CommitAllAdds(e, t.children, w);
    var t1 := t.(children := cs.ts);
    OwnFailure(e, t1, cs.w);
    OwnAdds(e, t1, cs.w);
    var a := Attempt(e, t, w);
    assert a == Own(e, t1, cs.w);
    if a.raised {
      RollbackAdds(e, a.t, a.w);
      var i :| |cs.w.trace| <= i < |a.w.trace| && IsFailure(a.w.trace[i], t.cfg.id, OnCommit);
      assert r.w.trace[i] == a.w.trace[i];
    }
  }

  lemma {:induction false} ChildrenCommitted(env: Env, ts: seq<Txn>, w: World)
    requires !env.strict
    ensures !CommitAll(env, ts, w).raised
    decreases |ts|
  {
    if ts != [] {
      CommitNeverRaises(env, ts[0], w);
      ChildrenCommitted(env, ts[1..], Commit(env, ts[0], w).w);
    }
  }

  /** The last step before a rollback is the failure. */
  lemma OwnFailure(env: Env, t: Txn, w: World)
    requires !env.strict
    ensures var r := Own(env, t, w); r.raised ==> Failed(w.trace, r.w.trace, t.cfg.id, OnCommit)
    ensures !Own(env, t, w).raised ==> Own(env, t, w).t.state == COMMITTED && Own(env, t, w).ret
  {
    var n := HooksRanTo(env, t.cfg.id, OnCommit, t.commitHooks, w);
    var r := Own(env, t, w);
    if r.raised { assert IsFailure(r.w.trace[|r.w.trace| - 1], t.cfg.id, OnCommit); }
  }
}
