/** Rollback undoes commit: on the same tree the two run matching hooks in exactly opposite orders. What
    each of them does to the sequence of hook calls is first found separately, as a traversal of the tree:
    commit visits children first to last and then the transaction itself, rollback the transaction itself
    and then the children last to first. */
module TransactionUndo {
  import opened Wrappers
  import opened TransactionModel
  import opened TransactionTolerance
  import opened TransactionOutcome
  import TransactionStrict
  import TransactionStrictPrograms

  type Call = (nat, Hook)   // which transaction ran which hook

  function HooksIn(trace: seq<Event>): seq<Call> {
    if trace == [] then []
    else (match trace[0] case HookRun(id, _, h, _) => [(id, h)] case _ => []) + HooksIn(trace[1..])
  }

  lemma {:induction false} HooksInAppend(a: seq<Event>, b: seq<Event>)
    ensures HooksIn(a + b) == HooksIn(a) + HooksIn(b)
  {
    if a == [] {
      assert a + b == b;
    } else {
      assert (a + b)[1..] == a[1..] + b;
      HooksInAppend(a[1..], b);
    }
  }

  /** The hooks of one transaction as calls. */
  function Calls(id: nat, hooks: seq<Hook>): seq<Call> {
    if hooks == [] then [] else [(id, hooks[0])] + Calls(id, hooks[1..])
  }

  function Undone(calls: seq<Call>, undo: Hook -> Hook): seq<Call> {
    if calls == [] then [] else [(calls[0].0, undo(calls[0].1))] + Undone(calls[1..], undo)
  }

  lemma {:induction false} UndoneAppend(a: seq<Call>, b: seq<Call>, undo: Hook -> Hook)
    ensures Undone(a + b, undo) == Undone(a, undo) + Undone(b, undo)
  {
    if a == [] {
      assert a + b == b;
    } else {
      assert (a + b)[1..] == a[1..] + b;
      UndoneAppend(a[1..], b, undo);
    }
  }

  lemma {:induction false} ReversedAppend<T>(a: seq<T>, b: seq<T>)
    ensures Reversed(a + b) == Reversed(b) + Reversed(a)
  {
    if a == [] {
      assert a + b == b;
    } else {
      assert (a + b)[1..] == a[1..] + b;
      ReversedAppend(a[1..], b);
    }
  }

  /** Every undecided transaction pairs its commit hooks, in order, with rollback hooks. */
  predicate Paired(t: Txn, undo: Hook -> Hook)
    decreases t, 1
  {
    t.Terminal()
    || (Calls(t.cfg.id, t.rollbackHooks) == Undone(Calls(t.cfg.id, t.commitHooks), undo) && PairedAll(t.children, undo))
  }

  predicate PairedAll(ts: seq<Txn>, undo: Hook -> Hook)
    decreases ts, 0
  {
    ts == [] || (Paired(ts[0], undo) && PairedAll(ts[1..], undo))
  }

  /** The hooks that commit runs, children first; decided subtrees are skipped. */
  function Order(t: Txn): seq<Call>
    decreases t, 1
  {
    if t.Terminal() then [] else OrderAll(t.children) + Calls(t.cfg.id, t.commitHooks)
  }

  function OrderAll(ts: seq<Txn>): seq<Call>
    decreases ts, 0
  {
    if ts == [] then [] else Order(ts[0]) + OrderAll(ts[1..])
  }

  lemma {:induction false} OrderAllSnoc(ts: seq<Txn>, t: Txn)
    ensures OrderAll(ts + [t]) == OrderAll(ts) + Order(t)
  {
    if ts == [] {
      assert ts + [t] == [t];
    } else {
      assert (ts + [t])[1..] == ts[1..] + [t];
      OrderAllSnoc(ts[1..], t);
    }
  }

  lemma {:induction false} PairedAllSnoc(ts: seq<Txn>, t: Txn, undo: Hook -> Hook)
    ensures PairedAll(ts + [t], undo) == (PairedAll(ts, undo) && Paired(t, undo))
  {
    if ts == [] {
      assert ts + [t] == [t];
    } else {
      assert (ts + [t])[1..] == ts[1..] + [t];
      PairedAllSnoc(ts[1..], t, undo);
    }
  }

  lemma {:induction false} HooksLogged(env: Env, id: nat, kind: HookKind, hooks: seq<Hook>, w: World)
    requires Calm(env)
    ensures HooksIn(RunHooks(env, id, kind, hooks, w).w.trace) == HooksIn(w.trace) + Calls(id, hooks)
  {
    if hooks != [] {
      var bad := env.fails(w.trace, HookRun(id, kind, hooks[0], true));
      var e := HookRun(id, kind, hooks[0], !bad);
      var first, log := [(id, hooks[0])], HooksIn(w.trace);
      HooksInAppend(w.trace, [e]);
      assert HooksIn([e]) == first;
      HooksLogged(env, id, kind, hooks[1..], w.(trace := w.trace + [e]));
      Regroup(log, first, Calls(id, hooks[1..]));
    }
  }

  lemma {:induction false} CommitLogged(env: Env, t: Txn, w: World)
    requires Calm(env)
    ensures HooksIn(Commit(env, t, w).w.trace) == HooksIn(w.trace) + Order(t)
    decreases t, 1
  {
    if !t.Terminal() {
      CommitAllLogged(env, t.children, w);
      CommitAllDecides(env, t.children, w);
      var cs := CommitAll(env, t.children, w);
      HooksLogged(env, t.cfg.id, OnCommit, t.commitHooks, cs.w);
      HooksSucceed(env, t.cfg.id, OnCommit, t.commitHooks, cs.w);
      var h := RunHooks(env, t.cfg.id, OnCommit, t.commitHooks, cs.w);
      PersistLogged(env, t.(children := cs.ts), h.w);
      Regroup(HooksIn(w.trace), OrderAll(t.children), Calls(t.cfg.id, t.commitHooks));
    }
  }

  lemma PersistLogged(env: Env, t: Txn, w: World)
    ensures HooksIn(Persist(env, t, w).w.trace) == HooksIn(w.trace)
  {
    var p := Persist(env, t, w);
    if p.w.trace != w.trace {
      var e := p.w.trace[|w.trace|];
      assert p.w.trace == w.trace + [e];
      HooksInAppend(w.trace, [e]);
    }
  }

  lemma {:induction false} CommitAllLogged(env: Env, ts: seq<Txn>, w: World)
    requires Calm(env)
    ensures HooksIn(CommitAll(env, ts, w).w.trace) == HooksIn(w.trace) + OrderAll(ts)
    decreases ts, 0
  {
    if ts != [] {
      CommitLogged(env, ts[0], w);
      CommitNeverRaises(env, ts[0], w);
      CommitAllLogged(env, ts[1..], Commit(env, ts[0], w).w);
      Regroup(HooksIn(w.trace), Order(ts[0]), OrderAll(ts[1..]));
    }
  }

  lemma {:induction false} CallsReversed(id: nat, hooks: seq<Hook>)
    ensures Calls(id, Reversed(hooks)) == Reversed(Calls(id, hooks))
  {
    if hooks != [] {
      CallsReversed(id, hooks[1..]);
      CallsAppend(id, Reversed(hooks[1..]), [hooks[0]]);
    }
  }

  lemma {:induction false} CallsAppend(id: nat, a: seq<Hook>, b: seq<Hook>)
    ensures Calls(id, a + b) == Calls(id, a) + Calls(id, b)
  {
    if a == [] {
      assert a + b == b;
    } else {
      assert (a + b)[1..] == a[1..] + b;
      CallsAppend(id, a[1..], b);
    }
  }

  lemma {:induction false} RollbackLogged(env: Env, t: Txn, w: World, undo: Hook -> Hook)
    requires Calm(env) && Paired(t, undo)
    ensures HooksIn(Rollback(env, t, w).w.trace) == HooksIn(w.trace) + Reversed(Undone(Order(t), undo))
    decreases t, 1
  {
    if !t.Terminal() {
      var own, below := Calls(t.cfg.id, t.commitHooks), OrderAll(t.children);
      HooksLogged(env, t.cfg.id, OnRollback, Reversed(t.rollbackHooks), w);
      HooksSucceed(env, t.cfg.id, OnRollback, Reversed(t.rollbackHooks), w);
      CallsReversed(t.cfg.id, t.rollbackHooks);
      RollbackAllLogged(env, t.children, RunHooks(env, t.cfg.id, OnRollback, Reversed(t.rollbackHooks), w).w, undo);
      UndoneReversed(HooksIn(w.trace), below, own, undo);
    }
  }

  lemma UndoneReversed(log: seq<Call>, a: seq<Call>, b: seq<Call>, undo: Hook -> Hook)
    ensures log + Reversed(Undone(a + b, undo)) == (log + Reversed(Undone(b, undo))) + Reversed(Undone(a, undo))
  {
    UndoneAppend(a, b, undo);
    ReversedAppend(Undone(a, undo), Undone(b, undo));
  }

  lemma {:induction false} RollbackAllLogged(env: Env, ts: seq<Txn>, w: World, undo: Hook -> Hook)
    requires Calm(env) && PairedAll(ts, undo)
    ensures HooksIn(RollbackAll(env, ts, w).w.trace) == HooksIn(w.trace) + Reversed(Undone(OrderAll(ts), undo))
    decreases ts, 0
  {
    if ts != [] {
      var n := |ts| - 1;
      assert ts == ts[..n] + [ts[n]];
      PairedAllSnoc(ts[..n], ts[n], undo);
      OrderAllSnoc(ts[..n], ts[n]);
      RollbackLogged(env, ts[n], w, undo);
      RollbackNeverRaises(env, ts[n], w);
      RollbackAllLogged(env, ts[..n], Rollback(env, ts[n], w).w, undo);
      UndoneReversed(HooksIn(w.trace), OrderAll(ts[..n]), Order(ts[n]), undo);
    }
  }

  /** Releasing locks disturbs nothing: the manager is tolerant, or there are no locks, or every lock that is
      to be released is held and held once, and none would be released twice. */
  predicate Undisturbed(env: Env, t: Txn, held: set<Key>) {
    || !env.strict || Unlocked(t) || t.Terminal()
    || (env.lockManager && TransactionStrict.Distinct(t) && TransactionStrict.Holds(t, held)
        && TransactionStrictPrograms.Clean(View(t)))
  }

  /** The hooks that `rollback` runs on a tree are those that undo what `commit` would have run on the
      same tree, in exactly the reverse order; decided subtrees are skipped by both. */
  lemma RollbackUndoesCommit(env: Env, t: Txn, w: World, undo: Hook -> Hook)
    requires Quiet(env) && Undisturbed(env, t, w.held) && Paired(t, undo)
    ensures var n := |HooksIn(w.trace)|;
            var done, undone := HooksIn(Commit(env, t, w).w.trace), HooksIn(Rollback(env, t, w).w.trace);
            && n <= |done| && n <= |undone| && done[..n] == undone[..n] == HooksIn(w.trace)
            && undone[n..] == Reversed(Undone(done[n..], undo))
  {
    CommitLogged(Tolerant(env), t, w);
    RollbackLogged(Tolerant(env), t, w, undo);
    if Unlocked(t) {
      CommitIndependent(env, t, w);
      RollbackIndependent(env, t, w);
    } else if !env.strict {
      CommitLogged(env, t, w);
      RollbackLogged(env, t, w, undo);
    } else if !t.Terminal() {
      TransactionStrictPrograms.CommitSame(env, t, w);
      TransactionStrictPrograms.RollbackSame(env, t, w);
    }
  }
}
