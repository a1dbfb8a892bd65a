/** A transaction persists its value at most once, and only if it ends up committed. */
module TransactionSingleWrite {
  import opened Wrappers
  import opened TransactionModel

  /** The keys and values that transaction `id` wrote successfully, in order. */
  function Persisted(trace: seq<Event>, id: nat): seq<(Key, Value)> {
    if trace == [] then [] else WrittenBy(trace[0], id) + Persisted(trace[1..], id)
  }

  function WrittenBy(e: Event, id: nat): seq<(Key, Value)> {
    if e.Write? && e.ok && e.txn == id then [(e.key, e.value)] else []
  }

  lemma {:induction false} PersistedAppend(a: seq<Event>, e: Event, id: nat)
    ensures Persisted(a + [e], id) == Persisted(a, id) + WrittenBy(e, id)
  {
    if a == [] {
      assert a + [e] == [e];
    } else {
      assert (a + [e])[1..] == a[1..] + [e];
      PersistedAppend(a[1..], e, id);
    }
  }

  function Ids(t: Txn): set<nat>
    decreases t, 1
  {
    {t.cfg.id} + IdsAll(t.children)
  }

  function IdsAll(ts: seq<Txn>): set<nat>
    decreases ts, 0
  {
    if ts == [] then {} else Ids(ts[0]) + IdsAll(ts[1..])
  }

  /** Every transaction of the tree has persisted exactly its staged value, once, under its key, if it is
      a committed writer, and otherwise nothing; and no two of them share a name. */
  predicate Once(t: Txn, trace: seq<Event>)
    decreases t, 1
  {
    && t.cfg.id !in IdsAll(t.children)
    && Persisted(trace, t.cfg.id) == (if Writer(t) then [(t.PersistKey(), t.staged.value)] else [])
    && (t.found ==> t.state == COMMITTED)
    && OnceAll(t.children, trace)
  }

  /** The transactions that must have written: committed by `commit`, with a key and a store to write to. */
  predicate Writer(t: Txn) {
    t.state == COMMITTED && !t.found && t.cfg.Keyed() && t.cfg.writeOnCommit
  }

  predicate OnceAll(ts: seq<Txn>, trace: seq<Event>)
    decreases ts, 0
  {
    ts == [] || (Once(ts[0], trace) && OnceAll(ts[1..], trace) && Ids(ts[0]) !! IdsAll(ts[1..]))
  }

  /** Going from `a` to `b`, only transactions named in `ids` may have persisted. */
  ghost predicate OnlyBy(a: seq<Event>, b: seq<Event>, ids: set<nat>) {
    forall id :: id !in ids ==> Persisted(b, id) == Persisted(a, id)
  }

  lemma {:induction false} IdsAllAppend(ts: seq<Txn>, us: seq<Txn>)
    ensures IdsAll(ts + us) == IdsAll(ts) + IdsAll(us)
  {
    if ts == [] {
      assert ts + us == us;
    } else {
      assert (ts + us)[1..] == ts[1..] + us;
      IdsAllAppend(ts[1..], us);
    }
  }

  lemma {:induction false} OnceAllAppend(ts: seq<Txn>, us: seq<Txn>, trace: seq<Event>)
    ensures OnceAll(ts + us, trace) == (OnceAll(ts, trace) && OnceAll(us, trace) && IdsAll(ts) !! IdsAll(us))
  {
    if ts == [] {
      assert ts + us == us;
    } else {
      assert (ts + us)[1..] == ts[1..] + us;
      OnceAllAppend(ts[1..], us, trace);
      IdsAllAppend(ts[1..], us);
    }
  }

  /** What others persist does not matter. */
  lemma {:induction false} OnceFramed(t: Txn, a: seq<Event>, b: seq<Event>, ids: set<nat>)
    requires Once(t, a) && OnlyBy(a, b, ids) && Ids(t) !! ids
    ensures Once(t, b)
    decreases t, 1
  {
    OnceAllFramed(t.children, a, b, ids);
  }

  lemma {:induction false} OnceAllFramed(ts: seq<Txn>, a: seq<Event>, b: seq<Event>, ids: set<nat>)
    requires OnceAll(ts, a) && OnlyBy(a, b, ids) && IdsAll(ts) !! ids
    ensures OnceAll(ts, b)
    decreases ts, 0
  {
    if ts != [] {
      OnceFramed(ts[0], a, b, ids);
      OnceAllFramed(ts[1..], a, b, ids);
    }
  }

  lemma {:induction false} HooksDoNotPersist(env: Env, id: nat, kind: HookKind, hooks: seq<Hook>, w: World)
    ensures OnlyBy(w.trace, RunHooks(env, id, kind, hooks, w).w.trace, {})
  {
    if hooks != [] {
      var bad := env.fails(w.trace, HookRun(id, kind, hooks[0], true));
      var e := HookRun(id, kind, hooks[0], !bad);
      forall i { PersistedAppend(w.trace, e, i); }
      HooksDoNotPersist(env, id, kind, hooks[1..], w.(trace := w.trace + [e]));
    }
  }

  lemma {:induction false} RollbackOnce(env: Env, t: Txn, w: World)
    requires Once(t, w.trace)
    ensures var r := Rollback(env, t, w);
            Once(r.t, r.w.trace) && Ids(r.t) == Ids(t) && OnlyBy(w.trace, r.w.trace, {})
    decreases t, 1
  {
    if !t.Terminal() {
      var h := RunHooks(env, t.cfg.id, OnRollback, Reversed(t.rollbackHooks), w);
      HooksDoNotPersist(env, t.cfg.id, OnRollback, Reversed(t.rollbackHooks), w);
      OnceFramed(t, w.trace, h.w.trace, {});
      if !h.raised { RollbackAllOnce(env, t.children, h.w); }
    }
  }

  lemma {:induction false} RollbackAllOnce(env: Env, ts: seq<Txn>, w: World)
    requires OnceAll(ts, w.trace)
    ensures var r := RollbackAll(env, ts, w);
            OnceAll(r.ts, r.w.trace) && IdsAll(r.ts) == IdsAll(ts) && OnlyBy(w.trace, r.w.trace, {})
    decreases ts, 0
  {
    if ts != [] {
      var n := |ts| - 1;
      assert ts == ts[..n] + [ts[n]];
      IdsAllAppend(ts[..n], [ts[n]]);
      OnceAllAppend(ts[..n], [ts[n]], w.trace);
      RollbackOnce(env, ts[n], w);
      var last := Rollback(env, ts[n], w);
      OnceAllFramed(ts[..n], w.trace, last.w.trace, {});
      Single(last.t, last.w.trace);
      var front := if last.raised then Results(ts[..n], last.w, true) else RollbackAll(env, ts[..n], last.w);
      if !last.raised {
        RollbackAllOnce(env, ts[..n], last.w);
        OnceFramed(last.t, last.w.trace, front.w.trace, {});
        Single(last.t, front.w.trace);
      }
      IdsAllAppend(front.ts, [last.t]);
      OnceAllAppend(front.ts, [last.t], front.w.trace);
    }
  }

  lemma Single(t: Txn, trace: seq<Event>)
    ensures OnceAll([t], trace) == Once(t, trace) && IdsAll([t]) == Ids(t)
  {
    assert [t][1..] == [];
  }

  lemma {:induction false} CommitOnce(env: Env, t: Txn, w: World)
    requires Once(t, w.trace)
    ensures var r := Commit(env, t, w);
            Once(r.t, r.w.trace) && Ids(r.t) == Ids(t) && OnlyBy(w.trace, r.w.trace, Ids(t))
    decreases t, 2
  {
    if !t.Terminal() {
      AttemptOnce(env, t, w);
      var a := Attempt(env, t, w);
      if a.raised { RollbackOnce(env, a.t, a.w); }
    }
  }

  lemma {:induction false} AttemptOnce(env: Env, t: Txn, w: World)
    requires Once(t, w.trace) && !t.Terminal()
    ensures var r := Attempt(env, t, w);
            Once(r.t, r.w.trace) && Ids(r.t) == Ids(t) && OnlyBy(w.trace, r.w.trace, Ids(t))
    decreases t, 1
  {
    var cs := CommitAll(env, t.children, w);
    CommitAllOnce(env, t.children, w);
    ChildrenReplaced(t, cs.ts, w.trace, cs.w.trace);
    OwnOnce(env, t.(children := cs.ts), cs.w);
  }

  lemma ChildrenReplaced(t: Txn, ts: seq<Txn>, a: seq<Event>, b: seq<Event>)
    requires Once(t, a) && !t.Terminal()
    requires OnceAll(ts, b) && IdsAll(ts) == IdsAll(t.children) && OnlyBy(a, b, IdsAll(ts))
    ensures Once(t.(children := ts), b) && Ids(t.(children := ts)) == Ids(t)
  {
  }

  lemma OwnOnce(env: Env, t: Txn, w: World)
    requires Once(t, w.trace) && !t.Terminal()
    ensures var r := Own(env, t, w);
            Once(r.t, r.w.trace) && Ids(r.t) == Ids(t) && OnlyBy(w.trace, r.w.trace, {t.cfg.id})
  {
    var h := RunHooks(env, t.cfg.id, OnCommit, t.commitHooks, w);
    HooksDoNotPersist(env, t.cfg.id, OnCommit, t.commitHooks, w);
    OnceFramed(t, w.trace, h.w.trace, {});
    PersistOnce(env, t, h.w);
  }

  lemma PersistOnce(env: Env, t: Txn, w: World)
    requires Once(t, w.trace) && !t.Terminal()
    ensures var p := Persist(env, t, w);
            && OnlyBy(w.trace, p.w.trace, {t.cfg.id})
            && Once(if p.raised then t else t.(state := COMMITTED), p.w.trace)
  {
    var p := Persist(env, t, w);
    if p.w.trace != w.trace {
      var e := p.w.trace[|w.trace|];
      assert p.w.trace == w.trace + [e];
      forall i { PersistedAppend(w.trace, e, i); }
      OnceAllFramed(t.children, w.trace, p.w.trace, {t.cfg.id});
    }
  }

  lemma {:induction false} CommitAllOnce(env: Env, ts: seq<Txn>, w: World)
    requires OnceAll(ts, w.trace)
    ensures var r := CommitAll(env, ts, w);
            OnceAll(r.ts, r.w.trace) && IdsAll(r.ts) == IdsAll(ts) && OnlyBy(w.trace, r.w.trace, IdsAll(ts))
    decreases ts, 0
  {
    if ts != [] {
      CommitOnce(env, ts[0], w);
      var first := Commit(env, ts[0], w);
      OnceAllFramed(ts[1..], w.trace, first.w.trace, Ids(ts[0]));
      Single(first.t, first.w.trace);
      var rest := if first.raised then Results(ts[1..], first.w, true) else CommitAll(env, ts[1..], first.w);
      if !first.raised {
        CommitAllOnce(env, ts[1..], first.w);
        OnceFramed(first.t, first.w.trace, rest.w.trace, IdsAll(ts[1..]));
        Single(first.t, rest.w.trace);
      }
      OnceAllAppend([first.t], rest.ts, rest.w.trace);
      IdsAllAppend([first.t], rest.ts);
    }
  }

  /* ---------- Whole programs ---------- */

  lemma {:induction false} OnceBounds(ts: seq<Txn>, trace: seq<Event>, id: nat)
    requires OnceAll(ts, trace) && id in IdsAll(ts)
    ensures |Persisted(trace, id)| <= 1
    decreases ts, 0
  {
    if id in Ids(ts[0]) { OnceBound(ts[0], trace, id); } else { OnceBounds(ts[1..], trace, id); }
  }

  lemma {:induction false} OnceBound(t: Txn, trace: seq<Event>, id: nat)
    requires Once(t, trace) && id in Ids(t)
    ensures |Persisted(trace, id)| <= 1
    decreases t, 1
  {
    if id != t.cfg.id { OnceBounds(t.children, trace, id); }
  }

  lemma MiddleOnce(left: seq<Txn>, t: Txn, right: seq<Txn>, trace: seq<Event>)
    ensures OnceAll(left + ([t] + right), trace) ==
            (OnceAll(left, trace) && Once(t, trace) && OnceAll(right, trace)
             && IdsAll(left) !! Ids(t) + IdsAll(right) && Ids(t) !! IdsAll(right))
    ensures IdsAll(left + ([t] + right)) == IdsAll(left) + Ids(t) + IdsAll(right)
  {
    Single(t, trace);
    OnceAllAppend([t], right, trace);
    IdsAllAppend([t], right);
    OnceAllAppend(left, [t] + right, trace);
    IdsAllAppend(left, [t] + right);
  }

  lemma MiddleUpdated(left: seq<Txn>, t: Txn, right: seq<Txn>, t': Txn, a: seq<Event>, b: seq<Event>)
    requires OnceAll(left + ([t] + right), a) && Once(t', b) && Ids(t') == Ids(t) && OnlyBy(a, b, Ids(t))
    ensures OnceAll(left + ([t'] + right), b) && IdsAll(left + ([t'] + right)) == IdsAll(left + ([t] + right))
  {
    MiddleOnce(left, t, right, a);
    OnceAllFramed(left, a, b, Ids(t));
    OnceAllFramed(right, a, b, Ids(t));
    MiddleOnce(left, t', right, b);
  }

  lemma Spliced<T>(s: seq<T>, k: nat, x: T)
    requires k < |s|
    ensures s[k := x] == s[..k] + ([x] + s[k + 1..]) && s[k := s[k]] == s
  {}

  /** Replacing one open transaction by what a commit, rollback or stage made of it. */
  lemma StackUpdated(stack: seq<Txn>, k: nat, t': Txn, a: seq<Event>, b: seq<Event>)
    requires k < |stack| && OnceAll(stack, a) && Once(t', b)
    requires Ids(t') == Ids(stack[k]) && OnlyBy(a, b, Ids(stack[k]))
    ensures OnceAll(stack[k := t'], b) && IdsAll(stack[k := t']) == IdsAll(stack)
  {
    Spliced(stack, k, stack[k]);
    Spliced(stack, k, t');
    MiddleUpdated(stack[..k], stack[k], stack[k + 1..], t', a, b);
  }

  lemma StackCut(stack: seq<Txn>, k: nat, trace: seq<Event>)
    requires k <= |stack| && OnceAll(stack, trace)
    ensures OnceAll(stack[..k], trace) && IdsAll(stack[..k]) <= IdsAll(stack)
    ensures k < |stack| ==> Once(stack[k], trace) && Ids(stack[k]) <= IdsAll(stack) && Ids(stack[k]) !! IdsAll(stack[..k])
  {
    assert stack == stack[..k] + stack[k..];
    OnceAllAppend(stack[..k], stack[k..], trace);
    IdsAllAppend(stack[..k], stack[k..]);
  }

  function BlockIds(b: Block): set<nat>
    decreases b, 1
  {
    {b.cfg.id} + BodyIds(b.body)
  }

  function BodyIds(body: seq<Stmt>): set<nat>
    decreases body, 0
  {
    if body == [] then {} else StmtIds(body[0]) + BodyIds(body[1..])
  }

  function StmtIds(c: Stmt): set<nat>
    decreases c, 2
  {
    if c.Nested? || c.Guarded? then BlockIds(c.block) else {}
  }

  /** No two blocks of the program share a name. */
  predicate Named(b: Block)
    decreases b, 1
  {
    b.cfg.id !in BodyIds(b.body) && NamedBody(b.body)
  }

  predicate NamedBody(body: seq<Stmt>)
    decreases body, 0
  {
    body == [] || (NamedStmt(body[0]) && NamedBody(body[1..]) && StmtIds(body[0]) !! BodyIds(body[1..]))
  }

  predicate NamedStmt(c: Stmt)
    decreases c, 2
  {
    c.Nested? || c.Guarded? ==> Named(c.block)
  }

  ghost predicate Unused(trace: seq<Event>, ids: set<nat>) {
    forall id :: id in ids ==> Persisted(trace, id) == []
  }

  /** Running something that mentions `ids` from `s` to `s'`. */
  ghost predicate Ran(s: State, s': State, ids: set<nat>) {
    && OnceAll(s'.stack, s'.w.trace) && IdsAll(s'.stack) <= IdsAll(s.stack) + ids
    && OnlyBy(s.w.trace, s'.w.trace, IdsAll(s.stack) + ids)
    && forall id :: id in IdsAll(s.stack) + ids ==> |Persisted(s'.w.trace, id)| <= 1
  }

  lemma AdoptingOnce(p: Txn, t: Txn, trace: seq<Event>)
    requires Once(p, trace) && Once(t, trace) && Ids(t) !! Ids(p)
    ensures Once(Adopting(p, t), trace) && Ids(Adopting(p, t)) == Ids(p) + Ids(t)
  {
    Single(t, trace);
    OnceAllAppend(p.children, [t], trace);
    IdsAllAppend(p.children, [t]);
  }

  lemma TopOnce(below: seq<Txn>, t: Txn, trace: seq<Event>)
    ensures OnceAll(below + [t], trace) == (OnceAll(below, trace) && Once(t, trace) && IdsAll(below) !! Ids(t))
    ensures IdsAll(below + [t]) == IdsAll(below) + Ids(t)
  {
    Single(t, trace);
    OnceAllAppend(below, [t], trace);
    IdsAllAppend(below, [t]);
  }

  /** The innermost open transaction `p` takes over `t`, and is rolled back if `t` was. */
  lemma AdoptedOnce(env: Env, below: seq<Txn>, p: Txn, t: Txn, w: World)
    requires OnceAll(below + [p], w.trace) && Once(t, w.trace) && Ids(t) !! IdsAll(below + [p])
    ensures var q := Adopting(p, t);
            var r := if t.state == ROLLED_BACK then Rollback(env, q, w) else Result(q, w, true, false);
            && OnceAll(below + [r.t], r.w.trace) && IdsAll(below + [r.t]) == IdsAll(below + [p]) + Ids(t)
            && Once(t, r.w.trace) && OnlyBy(w.trace, r.w.trace, {})
  {
    var q := Adopting(p, t);
    TopOnce(below, p, w.trace);
    AdoptingOnce(p, t, w.trace);
    RollbackOnce(env, q, w);
    var r := if t.state == ROLLED_BACK then Rollback(env, q, w) else Result(q, w, true, false);
    OnceFramed(t, w.trace, r.w.trace, {});
    OnceAllFramed(below, w.trace, r.w.trace, {});
    TopOnce(below, r.t, r.w.trace);
  }

  lemma BoundedAll(stack: seq<Txn>, trace: seq<Event>)
    requires OnceAll(stack, trace)
    ensures forall id :: id in IdsAll(stack) ==> |Persisted(trace, id)| <= 1
  {
    forall id | id in IdsAll(stack) ensures |Persisted(trace, id)| <= 1 { OnceBounds(stack, trace, id); }
  }

  lemma ResetOnce(env: Env, k: nat, s: State)
    requires k < |s.stack| && OnceAll(s.stack, s.w.trace)
    ensures var x := Reset(env, k, s);
            && OnceAll(x.s.stack, x.s.w.trace) && Once(x.txn.value, x.s.w.trace) && OnlyBy(s.w.trace, x.s.w.trace, {})
            && Ids(x.txn.value) == Ids(s.stack[k])
            && IdsAll(x.s.stack) == if k > 0 then IdsAll(s.stack[..k]) + Ids(s.stack[k]) else {}
  {
    StackCut(s.stack, k, s.w.trace);
    ResettingOnce(s, k);
    if k > 0 {
      TopSplit(s.stack, k);
      AdoptedOnce(env, s.stack[..k - 1], s.stack[k - 1], Resetting(s, k), s.w);
    }
  }

  lemma ResettingOnce(s: State, k: nat)
    requires k < |s.stack| && Once(s.stack[k], s.w.trace)
    ensures Once(Resetting(s, k), s.w.trace) && Ids(Resetting(s, k)) == Ids(s.stack[k])
  {}

  lemma TopSplit<T>(s: seq<T>, k: nat)
    requires 0 < k <= |s|
    ensures s[..k] == s[..k - 1] + [s[k - 1]]
  {}

  lemma ResetRan(env: Env, k: nat, s: State)
    requires k < |s.stack| && OnceAll(s.stack, s.w.trace)
    ensures Ran(s, Reset(env, k, s).s, {})
  {
    ResetOnce(env, k, s);
    StackCut(s.stack, k, s.w.trace);
    BoundedAll(s.stack, s.w.trace);
  }

  lemma SettleOnce(env: Env, k: nat, t: Txn, w: World, exc: bool)
    requires Once(t, w.trace)
    ensures var r := if exc then Rollback(env, t, w) else Settle(env, k, t, w);
            Once(r.t, r.w.trace) && Ids(r.t) == Ids(t) && OnlyBy(w.trace, r.w.trace, Ids(t))
  {
    RollbackOnce(env, t, w);
    CommitOnce(env, t, w);
  }

  lemma ExitOnce(env: Env, k: nat, s: State, exc: bool)
    requires k < |s.stack| && OnceAll(s.stack, s.w.trace)
    ensures var x := Exit(env, k, s, exc); Ran(s, x.s, {}) && (x.txn.Some? ==> Once(x.txn.value, x.s.w.trace))
  {
    StackCut(s.stack, k, s.w.trace);
    SettleOnce(env, k, s.stack[k], s.w, exc);
    var r := if exc then Rollback(env, s.stack[k], s.w) else Settle(env, k, s.stack[k], s.w);
    StackUpdated(s.stack, k, r.t, s.w.trace, r.w.trace);
    var s1 := Replace(s, k, r);
    BoundedAll(s1.stack, s1.w.trace);
    if !r.raised { ResetOnce(env, k, s1); ResetRan(env, k, s1); }
  }

  lemma {:induction false} BlockOnce(env: Env, b: Block, s: State)
    requires OnceAll(s.stack, s.w.trace) && Named(b) && BlockIds(b) !! IdsAll(s.stack) && Unused(s.w.trace, BlockIds(b))
    ensures var x := RunBlock(env, b, s); Ran(s, x.s, BlockIds(b)) && (x.txn.Some? ==> Once(x.txn.value, x.s.w.trace))
    decreases b, 1
  {
    BoundedAll(s.stack, s.w.trace);
    var k := |s.stack|;
    var e := Enter(env, b.cfg, s);
    if !e.raised {
      var t := Opened(b.cfg, s);
      Single(t, s.w.trace);
      OnceAllAppend(s.stack, [t], s.w.trace);
      IdsAllAppend(s.stack, [t]);
      BodyOnce(env, b.body, k, e.s);
      var f := RunBody(env, b.body, k, e.s);
      ExitOnce(env, k, f.s, f.raised);
    }
  }

  lemma {:induction false} BodyOnce(env: Env, body: seq<Stmt>, k: nat, s: State)
    requires k < |s.stack| && OnceAll(s.stack, s.w.trace)
    requires NamedBody(body) && BodyIds(body) !! IdsAll(s.stack) && Unused(s.w.trace, BodyIds(body))
    ensures Ran(s, RunBody(env, body, k, s).s, BodyIds(body))
    decreases body, 0
  {
    if body == [] {
      BoundedAll(s.stack, s.w.trace);
    } else {
      StmtOnce(env, body[0], k, s);
      var e := RunStmt(env, body[0], k, s);
      if !e.raised { BodyOnce(env, body[1..], k, e.s); }
    }
  }

  lemma {:induction false} StmtOnce(env: Env, c: Stmt, k: nat, s: State)
    requires k < |s.stack| && OnceAll(s.stack, s.w.trace)
    requires NamedStmt(c) && StmtIds(c) !! IdsAll(s.stack) && Unused(s.w.trace, StmtIds(c))
    ensures Ran(s, RunStmt(env, c, k, s).s, StmtIds(c))
    decreases c, 2
  {
    if c.Nested? || c.Guarded? {
      BlockOnce(env, c.block, s);
    } else {
      var e := RunStmt(env, c, k, s);
      var t, t' := s.stack[k], e.s.stack[k];
      StackCut(s.stack, k, s.w.trace);
      CommitOnce(env, t, s.w);
      RollbackOnce(env, t, s.w);
      assert e.s.stack == s.stack[k := t'];
      StackUpdated(s.stack, k, t', s.w.trace, e.s.w.trace);
      BoundedAll(e.s.stack, e.s.w.trace);
    }
  }

  /** Single write. Over a whole program of differently named blocks, with arbitrary stage, commit and
      rollback calls, swallowed exceptions, failing hooks, writes and releases: no transaction's own
      write succeeds more than once, and in the finished tree, at any depth, a transaction has written
      exactly its staged value if it committed with a key and a store to write to, and never if it was rolled back,
      left undecided or found itself committed at `begin`. */
  lemma SingleWrite(env: Env, b: Block, w: World)
    requires Named(b) && Unused(w.trace, BlockIds(b))
    ensures var x := RunBlock(env, b, State([], w));
            && (forall id :: id in BlockIds(b) ==> |Persisted(x.s.w.trace, id)| <= 1)
            && (x.txn.Some? ==> Once(x.txn.value, x.s.w.trace))
  {
    BlockOnce(env, b, State([], w));
  }
}
