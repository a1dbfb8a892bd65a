/** What a finished child can still become. Whatever commits, rollbacks and later statements reach it from
    above, a tree only goes on from what it is: decided transactions are final, an open one can only be
    decided, and children are neither lost nor reordered. `Compatible` compares a tree with what is expected
    of it in the end, and every operation of the model, with any lock manager and whatever fails, is shown to
    lead only to trees that are compatible with fewer expectations. A tree that is incompatible with what
    is expected therefore stays so. */
module TransactionEvolution {
  import opened Wrappers
  import opened TransactionModel
  import opened TransactionOutcome

  /** A tree that looks like `o` now may still come to look like `e`: decided transactions are final, and
      children are neither lost nor added. */
  predicate Compatible(o: Outcome, e: Outcome)
    decreases o, 1
  {
    o.id == e.id && if o.Terminal() then o == e else CompatibleAll(o.children, e.children)
  }

  predicate CompatibleAll(os: seq<Outcome>, es: seq<Outcome>)
    decreases os, 0
  {
    if os == [] then es == [] else es != [] && Compatible(os[0], es[0]) && CompatibleAll(os[1..], es[1..])
  }

  lemma {:induction false} Reflexive(o: Outcome)
    ensures Compatible(o, o)
    decreases o, 1
  {
    ReflexiveAll(o.children);
  }

  lemma {:induction false} ReflexiveAll(os: seq<Outcome>)
    ensures CompatibleAll(os, os)
    decreases os, 0
  {
    if os != [] {
      Reflexive(os[0]);
      ReflexiveAll(os[1..]);
    }
  }

  lemma {:induction false} CompatibleAppend(os: seq<Outcome>, us: seq<Outcome>, es: seq<Outcome>, fs: seq<Outcome>)
    requires |os| == |es|
    ensures CompatibleAll(os + us, es + fs) <==> CompatibleAll(os, es) && CompatibleAll(us, fs)
  {
    if os == [] {
      assert os + us == us && es + fs == fs;
    } else {
      assert (os + us)[1..] == os[1..] + us && (es + fs)[1..] == es[1..] + fs;
      CompatibleAppend(os[1..], us, es[1..], fs);
    }
  }

  lemma {:induction false} CompatibleLength(os: seq<Outcome>, es: seq<Outcome>)
    ensures CompatibleAll(os, es) ==> |os| == |es|
  {
    if os != [] && es != [] { CompatibleLength(os[1..], es[1..]); }
  }

  /** Whatever `t'` may come to look like, `t` could have. */
  ghost predicate Evolves(t: Txn, t': Txn) { forall e :: Compatible(View(t'), e) ==> Compatible(View(t), e) }

  ghost predicate EvolvesAll(ts: seq<Txn>, ts': seq<Txn>) {
    |ts'| == |ts| && forall i :: 0 <= i < |ts| ==> Evolves(ts[i], ts'[i])
  }

  /** All children of `t` are still there in `t'`, evolved, before any others. */
  ghost predicate Grown(t: Txn, t': Txn) {
    t'.cfg == t.cfg && |t.children| <= |t'.children| && EvolvesAll(t.children, t'.children[..|t.children|])
  }

  lemma {:induction false} CompatibleEvolved(ts: seq<Txn>, ts': seq<Txn>, es: seq<Outcome>)
    requires EvolvesAll(ts, ts') && CompatibleAll(Views(ts'), es)
    ensures CompatibleAll(Views(ts), es)
  {
    if ts != [] {
      assert Views(ts')[1..] == Views(ts'[1..]) && Views(ts)[1..] == Views(ts[1..]);
      assert Evolves(ts[0], ts'[0]);
      CompatibleEvolved(ts[1..], ts'[1..], es[1..]);
    }
  }

  lemma GrownTwice(t: Txn, t1: Txn, t2: Txn)
    requires Grown(t, t1) && Grown(t1, t2)
    ensures Grown(t, t2)
  {
    var n := |t.children|;
    forall i | 0 <= i < n ensures Evolves(t.children[i], t2.children[..n][i]) {
      assert Evolves(t.children[i], t1.children[..n][i]);
      assert Evolves(t1.children[i], t2.children[..|t1.children|][i]);
    }
  }

  lemma SameGrown(t: Txn, t': Txn)
    requires t'.cfg == t.cfg && t'.children == t.children
    ensures Grown(t, t')
  {
    assert t'.children[..|t.children|] == t.children;
  }

  lemma AdoptingGrown(p: Txn, c: Txn)
    ensures Grown(p, Adopting(p, c))
  {
    assert Adopting(p, c).children[..|p.children|] == p.children;
  }

  /** A transaction that is decided, or only its children are. */
  lemma DecidingEvolves(t: Txn, t': Txn)
    requires !t.Terminal() && t'.cfg == t.cfg && EvolvesAll(t.children, t'.children)
    ensures Evolves(t, t') && Grown(t, t')
  {
    assert t'.children[..|t.children|] == t'.children;
    forall e | Compatible(View(t'), e) ensures Compatible(View(t), e) {
      ReflexiveAll(e.children);
      CompatibleEvolved(t.children, t'.children, e.children);
    }
  }

  lemma {:induction false} RollbackEvolves(env: Env, t: Txn, w: World)
    ensures var t' := Rollback(env, t, w).t; Evolves(t, t') && Grown(t, t') && |t'.children| == |t.children|
    decreases t, 1
  {
    var t' := Rollback(env, t, w).t;
    if t.Terminal() {
      SameGrown(t, t');
    } else {
      RollbackAllEvolves(env, t.children, RunHooks(env, t.cfg.id, OnRollback, Reversed(t.rollbackHooks), w).w);
      DecidingEvolves(t, t');
    }
  }

  lemma {:induction false} RollbackAllEvolves(env: Env, ts: seq<Txn>, w: World)
    ensures EvolvesAll(ts, RollbackAll(env, ts, w).ts)
    decreases ts, 0
  {
    if ts != [] {
      var n := |ts| - 1;
      RollbackEvolves(env, ts[n], w);
      RollbackAllEvolves(env, ts[..n], Rollback(env, ts[n], w).w);
    }
  }

  lemma {:induction false} CommitEvolves(env: Env, t: Txn, w: World)
    ensures var t' := Commit(env, t, w).t; Evolves(t, t') && Grown(t, t') && |t'.children| == |t.children|
    decreases t, 1
  {
    var t' := Commit(env, t, w).t;
    if t.Terminal() {
      SameGrown(t, t');
    } else {
      CommitAllEvolves(env, t.children, w);
      var a := Attempt(env, t, w);
      DecidingEvolves(t, a.t);
      if a.raised {
        RollbackEvolves(env, a.t, a.w);
        GrownTwice(t, a.t, t');
      }
    }
  }

  lemma {:induction false} CommitAllEvolves(env: Env, ts: seq<Txn>, w: World)
    ensures EvolvesAll(ts, CommitAll(env, ts, w).ts)
    decreases ts, 0
  {
    if ts != [] {
      CommitEvolves(env, ts[0], w);
      CommitAllEvolves(env, ts[1..], Commit(env, ts[0], w).w);
    }
  }

  /** What an exit makes of the transaction and of the parent that receives it. */
  lemma ExitGrows(env: Env, k: nat, s: State, exc: bool)
    requires k < |s.stack|
    ensures var x := Exit(env, k, s, exc);
            && (x.txn.None? ==> x.raised && k < |x.s.stack| && (k > 0 ==> x.s.stack[k - 1] == s.stack[k - 1]))
            && (x.txn.Some? ==> |x.s.stack| == k && Grown(s.stack[k], x.txn.value)
                                && |x.txn.value.children| == |s.stack[k].children|)
            && (k > 0 && x.txn.Some? ==> Grown(Adopting(s.stack[k - 1], x.txn.value), x.s.stack[k - 1]))
  {
    var t := s.stack[k];
    RollbackEvolves(env, t, s.w);
    CommitEvolves(env, t, s.w);
    var r := if exc then Rollback(env, t, s.w) else Settle(env, k, t, s.w);
    SettleGrows(env, k, t, s.w);
    var s1 := Replace(s, k, r);
    if !r.raised {
      SameGrown(r.t, Resetting(s1, k));
      GrownTwice(t, r.t, Resetting(s1, k));
      if k > 0 {
        var q := Adopting(s.stack[k - 1], Resetting(s1, k));
        RollbackEvolves(env, q, r.w);
        SameGrown(q, q);
      }
    }
  }

  lemma SettleGrows(env: Env, k: nat, t: Txn, w: World)
    ensures var r := Settle(env, k, t, w); Grown(t, r.t) && |r.t.children| == |t.children|
  {
    RollbackEvolves(env, t, w);
    CommitEvolves(env, t, w);
    SameGrown(t, t);
  }

  lemma StmtGrows(env: Env, c: Stmt, k: nat, s: State)
    requires k < |s.stack|
    ensures Grown(s.stack[k], RunStmt(env, c, k, s).s.stack[k])
  {
    var t := s.stack[k];
    SameGrown(t, t);
    match c {
      case Nested(b) => BlockGrows(env, b, k, s);
      case Guarded(b) => BlockGrows(env, b, k, s);
      case Stage(v, onRollback, onCommit) => SameGrown(t, StageIn(t, v, onRollback, onCommit));
      case CallCommit => CommitEvolves(env, t, s.w);
      case CallRollback => RollbackEvolves(env, t, s.w);
      case Raise =>
    }
  }

  lemma BlockGrows(env: Env, b: Block, k: nat, s: State)
    requires k < |s.stack|
    ensures Grown(s.stack[k], RunBlock(env, b, s).s.stack[k])
  {
    var n, t := |s.stack| - 1, s.stack[k];
    var x := RunBlock(env, b, s);
    SameGrown(t, t);
    if k < n {
      assert x.s.stack[k] == x.s.stack[..n][k] == t;
    } else if !Enter(env, b.cfg, s).raised {
      var f := RunBody(env, b.body, n + 1, Enter(env, b.cfg, s).s);
      assert f.s.stack[n] == f.s.stack[..n + 1][n] == t;
      ExitGrows(env, n + 1, f.s, f.raised);
      if x.txn.Some? {
        AdoptingGrown(t, x.txn.value);
        GrownTwice(t, Adopting(t, x.txn.value), x.s.stack[n]);
      }
    }
  }

  lemma {:induction false} BodyGrows(env: Env, body: seq<Stmt>, k: nat, s: State)
    requires k < |s.stack|
    ensures Grown(s.stack[k], RunBody(env, body, k, s).s.stack[k])
  {
    if body == [] {
      SameGrown(s.stack[k], s.stack[k]);
    } else {
      StmtGrows(env, body[0], k, s);
      var e := RunStmt(env, body[0], k, s);
      if !e.raised {
        BodyGrows(env, body[1..], k, e.s);
        GrownTwice(s.stack[k], e.s.stack[k], RunBody(env, body[1..], k, e.s).s.stack[k]);
      }
    }
  }
}
