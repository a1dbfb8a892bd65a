/** The outcome of whole programs under a lock manager that raises on the release of a lock that is not
    held: exactly which programs still end as `Expected` says. A program that spoils nothing is followed step
    by step and found to do the same as under a tolerant manager, because every lock that it releases is
    held. In one that spoils something the first commit that fails leaves a transaction that is decided the
    wrong way, or an exit that raises before its `reset` loses one; module TransactionEvolution then says
    that no later step can repair the tree. */
module TransactionStrictPrograms {
  import opened Wrappers
  import opened TransactionModel
  import opened TransactionTolerance
  import opened TransactionOutcome
  import K = TransactionKept
  import opened TransactionStrict
  import opened TransactionEvolution

  /* ---------- Read off the text ---------- */

  /** The block takes a lock and gives it back by committing at its own exit. */
  predicate Spends(b: Block, a: Around) { Locks(b.cfg, a) && Inside(b.cfg, a).mode == EAGER && !Raises(b) }

  predicate SpendsBody(body: seq<Stmt>, a: Around) {
    body != [] && ((body[0].Nested? && Spends(body[0].block, a)) || (!StmtRaises(body[0]) && SpendsBody(body[1..], a)))
  }

  /** Some block of the program that is expected to be COMMITTED directly contains one that spends its lock. */
  predicate Spoils(b: Block, a: Around, fate: TransactionState)
    decreases b, 1
  {
    var mine := OwnState(b, a, {}, Some(fate));
    (mine == COMMITTED && SpendsBody(b.body, Inside(b.cfg, a))) || SpoilsBody(b.body, Inside(b.cfg, a), mine)
  }

  predicate SpoilsBody(body: seq<Stmt>, a: Around, fate: TransactionState)
    decreases body, 0
  {
    body != [] && (SpoilsStmt(body[0], a, fate) || (!StmtRaises(body[0]) && SpoilsBody(body[1..], a, fate)))
  }

  predicate SpoilsStmt(c: Stmt, a: Around, fate: TransactionState)
    decreases c, 2
  {
    c.Nested? && Spoils(c.block, a, fate)
  }

  /** A commit from above can only spoil more. */
  lemma {:induction false} SpoilsMore(b: Block, a: Around)
    requires Spoils(b, a, ROLLED_BACK)
    ensures Spoils(b, a, COMMITTED)
    decreases b, 1
  {
    if OwnState(b, a, {}, Some(ROLLED_BACK)) == ROLLED_BACK { SpoilsBodyMore(b.body, Inside(b.cfg, a)); }
  }

  lemma {:induction false} SpoilsBodyMore(body: seq<Stmt>, a: Around)
    ensures SpoilsBody(body, a, ROLLED_BACK) ==> SpoilsBody(body, a, COMMITTED)
    decreases body, 0
  {
    if body != [] {
      SpoilsStmtMore(body[0], a);
      SpoilsBodyMore(body[1..], a);
    }
  }

  lemma {:induction false} SpoilsStmtMore(c: Stmt, a: Around)
    ensures SpoilsStmt(c, a, ROLLED_BACK) ==> SpoilsStmt(c, a, COMMITTED)
    decreases c, 2
  {
    if SpoilsStmt(c, a, ROLLED_BACK) { SpoilsMore(c.block, a); }
  }

  /* ---------- Trees that commit as a whole ---------- */

  /** No undecided transaction of the tree has a decided child with a lock. */
  predicate Clean(o: Outcome)
    decreases o, 1
  {
    o.Terminal() || CleanAll(o.children)
  }

  predicate CleanAll(os: seq<Outcome>)
    decreases os, 0
  {
    os == [] || (!(os[0].Terminal() && os[0].lock.Some?) && Clean(os[0]) && CleanAll(os[1..]))
  }

  /** Every decided transaction that a commit of the tree would reach has given its lock back. */
  predicate Loose(o: Outcome, held: set<Key>)
    decreases o, 1
  {
    if o.Terminal() then K.Lock(o) !! held else LooseAll(o.children, held)
  }

  predicate LooseAll(os: seq<Outcome>, held: set<Key>)
    decreases os, 0
  {
    os == [] || (Loose(os[0], held) && LooseAll(os[1..], held))
  }

  lemma {:induction false} StillLoose(o: Outcome, held: set<Key>, held': set<Key>)
    requires Loose(o, held) && held' <= held
    ensures Loose(o, held')
    decreases o, 1
  {
    if !o.Terminal() { StillLooseAll(o.children, held, held'); }
  }

  lemma {:induction false} StillLooseAll(os: seq<Outcome>, held: set<Key>, held': set<Key>)
    requires LooseAll(os, held) && held' <= held
    ensures LooseAll(os, held')
    decreases os, 0
  {
    if os != [] {
      StillLoose(os[0], held, held');
      StillLooseAll(os[1..], held, held');
    }
  }

  /** The locks of a tree, seen from outside. */
  lemma {:induction false} Seen(t: Txn, held: set<Key>)
    ensures LockKeys(t) == K.Keys(View(t)) && Distinct(t) == K.Distinct(View(t))
    ensures Holds(t, held) == (K.Undone(View(t)) <= held)
    decreases t, 1
  {
    SeenAll(t.children, held);
  }

  lemma {:induction false} SeenAll(ts: seq<Txn>, held: set<Key>)
    ensures LockKeysAll(ts) == K.KeysAll(Views(ts)) && DistinctAll(ts) == K.DistinctAll(Views(ts))
    ensures HoldsAll(ts, held) == (K.UndoneAll(Views(ts)) <= held)
    decreases ts, 0
  {
    if ts != [] {
      Seen(ts[0], held);
      SeenAll(ts[1..], held);
      assert Views(ts)[1..] == Views(ts[1..]);
    }
  }

  lemma {:induction false} RollbackSame(env: Env, t: Txn, w: World)
    requires Smooth(env) && Distinct(t) && Holds(t, w.held)
    ensures Rollback(env, t, w) == Rollback(Tolerant(env), t, w)
    decreases t, 1
  {
    if !t.Terminal() {
      var hooks := Reversed(t.rollbackHooks);
      SmoothHooks(env, t.cfg.id, OnRollback, hooks, w);
      HooksIndependent(env, t.cfg.id, OnRollback, hooks, w);
      var h := RunHooks(env, t.cfg.id, OnRollback, hooks, w);
      RollbackAllSame(env, t.children, h.w);
      RollbackAllStrict(env, t.children, h.w);
    }
  }

  lemma {:induction false} RollbackAllSame(env: Env, ts: seq<Txn>, w: World)
    requires Smooth(env) && DistinctAll(ts) && HoldsAll(ts, w.held)
    ensures RollbackAll(env, ts, w) == RollbackAll(Tolerant(env), ts, w)
    decreases ts, 0
  {
    if ts != [] {
      var n := |ts| - 1;
      var front, last := ts[..n], ts[n];
      assert ts == front + [last];
      Append(front, [last], w.held);
      Single(last, w.held);
      RollbackSame(env, last, w);
      RollbackStrict(env, last, w);
      var r := Rollback(env, last, w);
      StillHoldsAll(front, w.held, r.w.held, LockKeys(last));
      RollbackAllSame(env, front, r.w);
    }
  }

  lemma {:induction false} CommitSame(env: Env, t: Txn, w: World)
    requires Smooth(env) && Distinct(t) && Holds(t, w.held) && !t.Terminal() && Clean(View(t))
    ensures Commit(env, t, w) == Commit(Tolerant(env), t, w)
    decreases t, 1
  {
    var cs := CommitAll(env, t.children, w);
    CommitAllSame(env, t.children, w);
    CommitAllStrict(env, t.children, w);
    CleanUnspent(t.children, w.held);
    SmoothHooks(env, t.cfg.id, OnCommit, t.commitHooks, cs.w);
    HooksIndependent(env, t.cfg.id, OnCommit, t.commitHooks, cs.w);
  }

  lemma {:induction false} CleanUnspent(ts: seq<Txn>, held: set<Key>)
    requires CleanAll(Views(ts))
    ensures !AnySpent(ts, held)
  {
    if ts != [] {
      assert Views(ts)[1..] == Views(ts[1..]);
      CleanUnspent(ts[1..], held);
      forall i | 0 <= i < |ts| ensures !Spent(ts[i], held) {
        if i > 0 { assert ts[i] == ts[1..][i - 1]; } else { assert ts[0].Terminal() ==> View(ts[0]).lock.None?; }
      }
    }
  }

  lemma {:induction false} CommitAllSame(env: Env, ts: seq<Txn>, w: World)
    requires Smooth(env) && DistinctAll(ts) && HoldsAll(ts, w.held) && CleanAll(Views(ts))
    ensures CommitAll(env, ts, w) == CommitAll(Tolerant(env), ts, w)
    decreases ts, 0
  {
    if ts != [] {
      assert Views(ts)[1..] == Views(ts[1..]);
      assert ts[0].Terminal() ==> View(ts[0]).lock.None?;
      var first := Commit(env, ts[0], w);
      if !ts[0].Terminal() {
        CommitSame(env, ts[0], w);
        CommitStrict(env, ts[0], w);
      }
      StillHoldsAll(ts[1..], w.held, first.w.held, LockKeys(ts[0]));
      CommitAllSame(env, ts[1..], first.w);
    }
  }

  /** An undecided tree that is not clean does not commit as a whole. */
  lemma {:induction false} CommitDiffers(env: Env, t: Txn, w: World)
    requires Smooth(env) && Distinct(t) && Holds(t, w.held) && !t.Terminal()
    requires Loose(View(t), w.held) && !Clean(View(t))
    ensures View(Commit(env, t, w).t) != Decided(View(t), COMMITTED)
    decreases t, 1
  {
    CommitStrict(env, t, w);
    CommitAllStrict(env, t.children, w);
    var cs := CommitAll(env, t.children, w);
    if !AnySpent(t.children, w.held) {
      CommitAllDiffers(env, t.children, w);
      SmoothHooks(env, t.cfg.id, OnCommit, t.commitHooks, cs.w);
      assert Commit(env, t, w).t.children == cs.ts;
    }
  }

  lemma {:induction false} CommitAllDiffers(env: Env, ts: seq<Txn>, w: World)
    requires Smooth(env) && DistinctAll(ts) && HoldsAll(ts, w.held)
    requires LooseAll(Views(ts), w.held) && !AnySpent(ts, w.held) && !CleanAll(Views(ts))
    ensures Views(CommitAll(env, ts, w).ts) != DecidedAll(Views(ts), COMMITTED)
    decreases ts, 0
  {
    assert Views(ts)[1..] == Views(ts[1..]);
    var first := Commit(env, ts[0], w);
    assert !Spent(ts[0], w.held);
    if !ts[0].Terminal() {
      CommitStrict(env, ts[0], w);
      if !Clean(View(ts[0])) { CommitDiffers(env, ts[0], w); }
    }
    var all := CommitAll(env, ts, w);
    CommitAllStrict(env, ts, w);
    assert all.ts[0] == first.t && Views(all.ts)[0] == View(first.t);
    if Clean(View(ts[0])) {
      StillHoldsAll(ts[1..], w.held, first.w.held, LockKeys(ts[0]));
      StillLooseAll(Views(ts[1..]), w.held, first.w.held);
      SpentLater(ts, w.held, first.w.held);
      CommitAllDiffers(env, ts[1..], first.w);
      assert Views(all.ts)[1..] == Views(all.ts[1..]);
    }
  }

  /* ---------- What the text says of the tree ---------- */

  /** With nothing found, what is undecided is what is kept. */
  lemma {:induction false} OpenKept(b: Block, a: Around)
    ensures K.Undone(Expected(b, a, {}, None)) == K.Keeps(b, a, {}, None)
    decreases b, 1
  {
    if FateInside(b, a, {}, None) == None {
      OpenKeptBody(b.body, Inside(b.cfg, a));
    } else {
      NothingKeptBody(b.body, Inside(b.cfg, a), FateInside(b, a, {}, None).value);
    }
  }

  lemma {:induction false} OpenKeptBody(body: seq<Stmt>, a: Around)
    ensures K.UndoneAll(ExpectedBody(body, a, {}, None)) == K.KeepsBody(body, a, {}, None)
    decreases body, 0
  {
    if body != [] {
      K.ExpectedSplit(body, a, {}, None);
      OpenKeptStmt(body[0], a);
      if !StmtRaises(body[0]) { OpenKeptBody(body[1..], a); }
    }
  }

  lemma {:induction false} OpenKeptStmt(c: Stmt, a: Around)
    ensures K.UndoneAll(ExpectedStmt(c, a, {}, None)) == K.KeepsStmt(c, a, {}, None)
    decreases c, 2
  {
    if c.Nested? {
      OpenKept(c.block, a);
      K.One(Expected(c.block, a, {}, None));
    }
  }

  lemma {:induction false} NothingKept(b: Block, a: Around, v: TransactionState)
    ensures K.Keeps(b, a, {}, Some(v)) == {}
    decreases b, 1
  {
    NothingKeptBody(b.body, Inside(b.cfg, a), FateInside(b, a, {}, Some(v)).value);
  }

  lemma {:induction false} NothingKeptBody(body: seq<Stmt>, a: Around, v: TransactionState)
    ensures K.KeepsBody(body, a, {}, Some(v)) == {}
    decreases body, 0
  {
    if body != [] {
      NothingKeptStmt(body[0], a, v);
      NothingKeptBody(body[1..], a, v);
    }
  }

  lemma {:induction false} NothingKeptStmt(c: Stmt, a: Around, v: TransactionState)
    ensures K.KeepsStmt(c, a, {}, Some(v)) == {}
    decreases c, 2
  {
    if c.Nested? { NothingKept(c.block, a, v); }
  }

  lemma {:induction false} LooseText(b: Block, a: Around, base: set<Key>)
    requires var o := Expected(b, a, {}, None); K.Distinct(o) && K.Keys(o) !! base
    ensures Loose(Expected(b, a, {}, None), base + K.Keeps(b, a, {}, None))
    decreases b, 1
  {
    if FateInside(b, a, {}, None) == None {
      var lock := if Locks(b.cfg, a) then {b.cfg.key} else {};
      LooseTextBody(b.body, Inside(b.cfg, a), base + lock);
      assert base + lock + K.KeepsBody(b.body, Inside(b.cfg, a), {}, None) == base + K.Keeps(b, a, {}, None);
    } else {
      OpenKept(b, a);
    }
  }

  lemma {:induction false} LooseTextBody(body: seq<Stmt>, a: Around, base: set<Key>)
    requires var os := ExpectedBody(body, a, {}, None); K.DistinctAll(os) && K.KeysAll(os) !! base
    ensures LooseAll(ExpectedBody(body, a, {}, None), base + K.KeepsBody(body, a, {}, None))
    decreases body, 0
  {
    if body != [] {
      var head, rest := ExpectedStmt(body[0], a, {}, None), K.ExpectedRest(body, a, {}, None);
      var kept, later := K.KeepsStmt(body[0], a, {}, None), if StmtRaises(body[0]) then {} else K.KeepsBody(body[1..], a, {}, None);
      K.ExpectedSplit(body, a, {}, None);
      K.KeepsStmtWithin(body[0], a, {}, None);
      if !StmtRaises(body[0]) {
        K.KeepsBodyWithin(body[1..], a, {}, None);
        LooseTextBody(body[1..], a, base + kept);
        assert base + kept + later == base + K.KeepsBody(body, a, {}, None);
      }
      LooseTextStmt(body[0], a, base + later);
      assert base + later + kept == base + K.KeepsBody(body, a, {}, None);
      LooseAppend(head, rest, base + K.KeepsBody(body, a, {}, None));
    }
  }

  lemma {:induction false} LooseTextStmt(c: Stmt, a: Around, base: set<Key>)
    requires var os := ExpectedStmt(c, a, {}, None); K.DistinctAll(os) && K.KeysAll(os) !! base
    ensures LooseAll(ExpectedStmt(c, a, {}, None), base + K.KeepsStmt(c, a, {}, None))
    decreases c, 2
  {
    if c.Nested? {
      K.One(Expected(c.block, a, {}, None));
      LooseText(c.block, a, base);
    }
  }

  lemma {:induction false} LooseAppend(os: seq<Outcome>, us: seq<Outcome>, held: set<Key>)
    ensures LooseAll(os + us, held) == (LooseAll(os, held) && LooseAll(us, held))
  {
    if os == [] {
      assert os + us == us;
    } else {
      assert (os + us)[1..] == os[1..] + us;
      LooseAppend(os[1..], us, held);
    }
  }

  lemma {:induction false} CleanAppend(os: seq<Outcome>, us: seq<Outcome>)
    ensures CleanAll(os + us) == (CleanAll(os) && CleanAll(us))
  {
    if os == [] {
      assert os + us == us;
    } else {
      assert (os + us)[1..] == os[1..] + us;
      CleanAppend(os[1..], us);
    }
  }

  /** When nothing in it was spoilt by itself, the tree of a body is clean exactly if a commit spoils nothing. */
  lemma {:induction false} CleanText(body: seq<Stmt>, a: Around)
    requires !SpoilsBody(body, a, ROLLED_BACK) && !BodyRaises(body)
    ensures CleanAll(ExpectedBody(body, a, {}, None)) <==> !SpendsBody(body, a) && !SpoilsBody(body, a, COMMITTED)
    decreases body, 0
  {
    if body != [] {
      CleanTextStmt(body[0], a);
      CleanText(body[1..], a);
      CleanAppend(ExpectedStmt(body[0], a, {}, None), ExpectedBody(body[1..], a, {}, None));
    }
  }

  lemma {:induction false} CleanTextStmt(c: Stmt, a: Around)
    requires !SpoilsStmt(c, a, ROLLED_BACK) && !StmtRaises(c)
    ensures CleanAll(ExpectedStmt(c, a, {}, None)) <==> !(c.Nested? && Spends(c.block, a)) && !SpoilsStmt(c, a, COMMITTED)
    decreases c, 2
  {
    if c.Nested? {
      var o := Expected(c.block, a, {}, None);
      assert [o][1..] == [];
      if Inside(c.block.cfg, a).mode != EAGER { CleanText(c.block.body, Inside(c.block.cfg, a)); }
    }
  }

  /* ---------- Running ---------- */

  /** The tree of an open transaction with the children that its body will add, and the locks. */
  ghost predicate Fits(t: Txn, held: set<Key>, os: seq<Outcome>) {
    var all := Views(t.children) + os;
    K.DistinctAll(all) && K.Lock(View(t)) !! K.KeysAll(all) && K.Undone(View(t)) <= held && K.KeysAll(os) !! held
  }

  /** However `t'` goes on, the children it got beyond those of `t` are not those of the body. */
  ghost predicate Off(t: Txn, t': Txn, body: seq<Stmt>, a: Around) {
    var n := |t.children|;
    && n <= |t'.children|
    && !CompatibleAll(Views(t'.children[n..]), ExpectedBody(body, a, {}, Some(COMMITTED)))
    && !CompatibleAll(Views(t'.children[n..]), ExpectedBody(body, a, {}, Some(ROLLED_BACK)))
  }

  /** A nested block is lost, or its transaction will not become what is expected. */
  ghost predicate Astray(x: Exited, n: nat, p: Txn, b: Block, a: Around) {
    && n < |x.s.stack|
    && (x.txn.None? ==> x.raised && x.s.stack[n] == p)
    && (x.txn.Some? ==> Never(x.txn.value, b, a) && Grown(Adopting(p, x.txn.value), x.s.stack[n]))
  }

  ghost predicate Never(c: Txn, b: Block, a: Around) {
    && !Compatible(View(c), Expected(b, a, {}, Some(COMMITTED)))
    && !Compatible(View(c), Expected(b, a, {}, Some(ROLLED_BACK)))
  }

  /** What holds when a body begins or goes on under a lock manager that raises. */
  ghost predicate Under(env: Env, s: State, avoid: set<Key>, os: seq<Outcome>) {
    && Smooth(env) && s.w.store.Keys <= avoid && s.stack != []
    && var p := s.stack[|s.stack| - 1];
       !p.Terminal() && !p.found && Fits(p, s.w.held, os)
  }

  lemma {:induction false} NestedStrict(env: Env, b: Block, s: State, avoid: set<Key>)
    requires Straight(b) && Foreseen(b, {}, avoid) && Under(env, s, avoid, [Expected(b, AroundOf(s.stack), {}, None)])
    ensures var n, x, a := |s.stack| - 1, RunBlock(env, b, s), AroundOf(s.stack);
            if !Spoils(b, a, ROLLED_BACK) then x == RunBlock(Tolerant(env), b, s) else Astray(x, n, s.stack[n], b, a)
    decreases b, 2
  {
    var k, a := |s.stack|, AroundOf(s.stack);
    FitsOne(env, b, s, avoid);
    BodyOfBlockStrict(env, b, s, avoid);
    var f := RunBody(env, b.body, k, Enter(env, b.cfg, s).s);
    if SpoilsBody(b.body, Inside(b.cfg, a), ROLLED_BACK) {
      SpoilsBodyMore(b.body, Inside(b.cfg, a));
      ExitAstray(env, b, s, f);
    } else {
      BodyOfBlock(Tolerant(env), b, s, {}, avoid);
      K.BodyOfBlockHeld(Tolerant(env), b, s, {}, avoid);
      SettleStrict(env, b, a, k, s.w.held, f.s.stack[k], f.s.w);
      ExitStrictly(env, b, s, avoid, f.s);
    }
  }

  lemma FitsOne(env: Env, b: Block, s: State, avoid: set<Key>)
    requires Under(env, s, avoid, [Expected(b, AroundOf(s.stack), {}, None)])
    ensures var o := Expected(b, AroundOf(s.stack), {}, None); K.Distinct(o) && K.Keys(o) !! s.w.held
  {
    var o, p := Expected(b, AroundOf(s.stack), {}, None), s.stack[|s.stack| - 1];
    K.Append(Views(p.children), [o]);
    K.One(o);
  }

  lemma ExitAstray(env: Env, b: Block, s: State, f: Exec)
    requires s.stack != [] && f == RunBody(env, b.body, |s.stack|, State(s.stack + [Opened(b.cfg, s)], Begun(b.cfg, s)))
    requires Off(Opened(b.cfg, s), f.s.stack[|s.stack|], b.body, Inside(b.cfg, AroundOf(s.stack)))
    ensures Astray(Exit(env, |s.stack|, f.s, f.raised), |s.stack| - 1, s.stack[|s.stack| - 1], b, AroundOf(s.stack))
  {
    var k, p := |s.stack|, s.stack[|s.stack| - 1];
    assert f.s.stack[k - 1] == f.s.stack[..k][k - 1] == (s.stack + [Opened(b.cfg, s)])[..k][k - 1] == p;
    ExitGrows(env, k, f.s, f.raised);
    var x := Exit(env, k, f.s, f.raised);
    if x.txn.Some? { OffNever(env, Opened(b.cfg, s), f.s.stack[k], x.txn.value, b, AroundOf(s.stack)); }
  }

  lemma {:induction false} BodyOfBlockStrict(env: Env, b: Block, s: State, avoid: set<Key>)
    requires Smooth(env) && s.w.store.Keys <= avoid && Straight(b) && Foreseen(b, {}, avoid)
    requires var o := Expected(b, AroundOf(s.stack), {}, None); K.Distinct(o) && K.Keys(o) !! s.w.held
    ensures var k, a := |s.stack|, AroundOf(s.stack);
            var e := Enter(env, b.cfg, s);
            var f := RunBody(env, b.body, k, e.s);
            && e == Enter(Tolerant(env), b.cfg, s) && !e.raised
            && if !SpoilsBody(b.body, Inside(b.cfg, a), ROLLED_BACK) then f == RunBody(Tolerant(env), b.body, k, e.s)
               else Off(Opened(b.cfg, s), f.s.stack[k], b.body, Inside(b.cfg, a))
    decreases b, 1
  {
    var k, a, e := |s.stack|, AroundOf(s.stack), Enter(env, b.cfg, s);
    var t0 := Opened(b.cfg, s);
    var own := ExpectedBody(b.body, Inside(b.cfg, a), {}, None);
    K.OwnLocks(b, a, {}, s.w.held);
    K.Entered(env, b.cfg, s);
    FitsAtEntry(t0, e.s.w.held, own);
    BodyStrict(env, b.body, e.s, avoid);
  }

  lemma FitsAtEntry(t0: Txn, held: set<Key>, own: seq<Outcome>)
    requires t0.children == [] && K.DistinctAll(own) && K.Lock(View(t0)) !! K.KeysAll(own)
    requires K.Lock(View(t0)) <= held && K.KeysAll(own) !! held
    ensures Fits(t0, held, own)
  {
    assert Views(t0.children) == [] && [] + own == own && K.UndoneAll([]) == {};
  }

  /** The transaction of a block whose body has gone astray. */
  lemma OffNever(env: Env, t0: Txn, t: Txn, c: Txn, b: Block, a: Around)
    requires t0.children == [] && Off(t0, t, b.body, Inside(b.cfg, a)) && Grown(t, c) && |c.children| == |t.children|
    ensures Never(c, b, a)
  {
    assert t.children[0..] == t.children && c.children[..|t.children|] == c.children;
    forall v | (v == COMMITTED || v == ROLLED_BACK) && Compatible(View(c), Expected(b, a, {}, Some(v))) ensures false {
      var e := Expected(b, a, {}, Some(v));
      ReflexiveAll(e.children);
      CompatibleEvolved(t.children, c.children, e.children);
    }
  }

  /** Settling a block whose body went as expected. */
  lemma SettleStrict(env: Env, b: Block, a: Around, k: nat, base: set<Key>, t: Txn, w: World)
    requires Smooth(env) && K.AfterBody(b, a, {}, base, t, w.held) && (k == 0 ==> a == OUTERMOST)
    requires !SpoilsBody(b.body, Inside(b.cfg, a), ROLLED_BACK)
    ensures Settled(env, b, a, k, t, w)
  {
    if !t.Terminal() {
      TreeReady(b, a, base, t, w.held);
      RollbackSame(env, t, w);
      if !Raises(b) {
        CleanText(b.body, Inside(b.cfg, a));
        CommitEither(env, t, w);
        CommittedView(b, a, t);
      }
    }
  }

  /** The tree of a block whose body went as expected: every lock to be released is held, and no other. */
  lemma TreeReady(b: Block, a: Around, base: set<Key>, t: Txn, held: set<Key>)
    requires K.AfterBody(b, a, {}, base, t, held) && !t.Terminal()
    ensures Distinct(t) && Holds(t, held) && Loose(View(t), held)
  {
    var inside := Inside(b.cfg, a);
    var own := ExpectedBody(b.body, inside, {}, None);
    OpenKeptBody(b.body, inside);
    LooseTextBody(b.body, inside, base + K.OwnLock(b, a));
    Seen(t, held);
    assert K.Undone(View(t)) == K.OwnLock(b, a) + K.UndoneAll(own);
    assert K.Distinct(View(t)) && K.Undone(View(t)) <= held;
  }

  lemma CommittedView(b: Block, a: Around, t: Txn)
    requires BodyDone(t, b, a, {}) && !t.Terminal() && !Raises(b)
    ensures Clean(View(t)) <==> CleanAll(ExpectedBody(b.body, Inside(b.cfg, a), {}, None))
    ensures Decided(View(t), COMMITTED) == Expected(b, a, {}, Some(COMMITTED))
    ensures Inside(b.cfg, a).mode == EAGER ==>
            Expected(b, a, {}, None) == Expected(b, a, {}, Some(COMMITTED)) == Expected(b, a, {}, Some(ROLLED_BACK))
  {
    ExpectedBodyDecided(b.body, Inside(b.cfg, a), {}, COMMITTED);
  }

  lemma CommitEither(env: Env, t: Txn, w: World)
    requires Smooth(env) && Distinct(t) && Holds(t, w.held) && !t.Terminal() && Loose(View(t), w.held)
    ensures var r := Commit(env, t, w);
            if Clean(View(t)) then r == Commit(Tolerant(env), t, w)
            else !r.raised && r.t.Terminal() && View(r.t) != Decided(View(t), COMMITTED)
  {
    if Clean(View(t)) {
      CommitSame(env, t, w);
    } else {
      CommitDiffers(env, t, w);
      CommitStrict(env, t, w);
    }
  }

  /** What became of a block whose body went as expected when it settled: the same as under a tolerant
      manager, unless it spoils something. */
  ghost predicate Settled(env: Env, b: Block, a: Around, k: nat, t: Txn, w: World) {
    var r := if Raises(b) then Rollback(env, t, w) else Settle(env, k, t, w);
    if !Spoils(b, a, if k > 0 then ROLLED_BACK else RootVerdict(b))
    then r == if Raises(b) then Rollback(Tolerant(env), t, w) else Settle(Tolerant(env), k, t, w)
    else !r.raised && r.t.Terminal() && View(r.t) != Expected(b, a, {}, if k > 0 then None else Some(RootVerdict(b)))
         && (k > 0 ==> Expected(b, a, {}, None) == Expected(b, a, {}, Some(COMMITTED)) == Expected(b, a, {}, Some(ROLLED_BACK)))
  }

  /** The rest of the exit of a nested block whose body went as expected. */
  lemma ExitStrictly(env: Env, b: Block, s: State, avoid: set<Key>, f: State)
    requires Straight(b) && Foreseen(b, {}, avoid) && Under(env, s, avoid, [Expected(b, AroundOf(s.stack), {}, None)])
    requires var k := |s.stack|;
             && |f.stack| == k + 1 && f.stack[..k] == s.stack
             && f == RunBody(Tolerant(env), b.body, k, Enter(Tolerant(env), b.cfg, s).s).s
             && Settled(env, b, AroundOf(s.stack), k, f.stack[k], f.w)
    ensures var k, a := |s.stack|, AroundOf(s.stack);
            var x := Exit(env, k, f, Raises(b));
            if !Spoils(b, a, ROLLED_BACK) then x == Exit(Tolerant(env), k, f, Raises(b)) else Astray(x, k - 1, s.stack[k - 1], b, a)
  {
    var k, a, p := |s.stack|, AroundOf(s.stack), s.stack[|s.stack| - 1];
    var t := f.stack[k];
    assert f.stack[k - 1] == f.stack[..k][k - 1] == p;
    var r := if Raises(b) then Rollback(env, t, f.w) else Settle(env, k, t, f.w);
    ExitGrows(env, k, f, Raises(b));
    if Spoils(b, a, ROLLED_BACK) {
      assert View(Closed(r.t, p.state == COMMITTED)) == View(r.t);
    } else {
      ParentSame(env, b, s, avoid, f, r);
    }
  }

  lemma ParentSame(env: Env, b: Block, s: State, avoid: set<Key>, f: State, r: Result)
    requires Straight(b) && Foreseen(b, {}, avoid) && Under(env, s, avoid, [Expected(b, AroundOf(s.stack), {}, None)])
    requires var k := |s.stack|;
             && |f.stack| == k + 1 && f.stack[..k] == s.stack
             && f == RunBody(Tolerant(env), b.body, k, Enter(Tolerant(env), b.cfg, s).s).s
             && r == if Raises(b) then Rollback(Tolerant(env), f.stack[k], f.w) else Settle(Tolerant(env), k, f.stack[k], f.w)
    ensures var s1 := Replace(f, |s.stack|, r); Reset(env, |s.stack|, s1) == Reset(Tolerant(env), |s.stack|, s1)
  {
    var k, a, p := |s.stack|, AroundOf(s.stack), s.stack[|s.stack| - 1];
    FitsOne(env, b, s, avoid);
    BodyOfBlock(Tolerant(env), b, s, {}, avoid);
    K.SettledHeld(Tolerant(env), b, s, {}, avoid);
    SettledOutcome(Tolerant(env), b, a, {}, k, f.stack[k], f.w, Raises(b));
    var s1 := Replace(f, k, r);
    assert s1.stack[k - 1] == f.stack[..k][k - 1] == p;
    assert View(Resetting(s1, k)) == View(r.t);
    AdoptedSame(env, p, s.w.held, Resetting(s1, k), b, a, r.w);
  }

  /** The rollback of a parent that has just received the child of `b`. */
  lemma AdoptedSame(env: Env, p: Txn, base: set<Key>, c: Txn, b: Block, a: Around, w: World)
    requires Smooth(env) && !p.Terminal() && Fits(p, base, [Expected(b, a, {}, None)])
    requires View(c) == Expected(b, a, {}, None) && w.held == base + K.Keeps(b, a, {}, None)
    ensures Rollback(env, Adopting(p, c), w) == Rollback(Tolerant(env), Adopting(p, c), w)
  {
    var o, q := Expected(b, a, {}, None), Adopting(p, c);
    K.ViewsSnoc(p.children, c);
    OpenKept(b, a);
    Seen(q, w.held);
    assert View(q) == View(p).(children := Views(p.children) + [o]);
    RollbackSame(env, q, w);
  }

  lemma {:induction false} BodyStrict(env: Env, body: seq<Stmt>, s: State, avoid: set<Key>)
    requires StraightBody(body) && ForeseenBody(body, {}, avoid)
    requires Under(env, s, avoid, ExpectedBody(body, AroundOf(s.stack), {}, None))
    ensures var k, a := |s.stack| - 1, AroundOf(s.stack);
            var e := RunBody(env, body, k, s);
            if !SpoilsBody(body, a, ROLLED_BACK) then e == RunBody(Tolerant(env), body, k, s)
            else Off(s.stack[k], e.s.stack[k], body, a)
    decreases body, 0
  {
    if body != [] {
      var k, a, t := |s.stack| - 1, AroundOf(s.stack), s.stack[|s.stack| - 1];
      var rest := K.ExpectedRest(body, a, {}, None);
      assert ExpectedBody(body, a, {}, None) == ExpectedStmt(body[0], a, {}, None) + rest;
      StmtStrict(env, body[0], s, avoid, rest);
      var e := RunStmt(env, body[0], k, s);
      var f := RunBody(env, body, k, s);
      if SpoilsStmt(body[0], a, ROLLED_BACK) {
        if !e.raised { BodyGrows(env, body[1..], k, e.s); } else { SameGrown(e.s.stack[k], e.s.stack[k]); }
        AstrayOff(t, RunBlock(env, body[0].block, s), k, e.s.stack[k], f.s.stack[k], body, a);
      } else {
        StmtOutcome(Tolerant(env), body[0], s, {}, avoid);
        if !StmtRaises(body[0]) {
          UnderNext(env, body[0], s, avoid, rest);
          assert body[1..] != body;
          BodyStrict(env, body[1..], e.s, avoid + StmtStores(body[0]));
          if SpoilsBody(body, a, ROLLED_BACK) { OffLater(t, e.s.stack[k], f.s.stack[k], body, a); }
        }
      }
    }
  }

  /** One statement; `later` are the children that the rest of the body will add. */
  lemma {:induction false} StmtStrict(env: Env, c: Stmt, s: State, avoid: set<Key>, later: seq<Outcome>)
    requires StraightStmt(c) && ForeseenStmt(c, {}, avoid)
    requires Under(env, s, avoid, ExpectedStmt(c, AroundOf(s.stack), {}, None) + later)
    ensures var k, a := |s.stack| - 1, AroundOf(s.stack);
            if SpoilsStmt(c, a, ROLLED_BACK) then Astray(RunBlock(env, c.block, s), k, s.stack[k], c.block, a)
            else RunStmt(env, c, k, s) == RunStmt(Tolerant(env), c, k, s)
    decreases c, 2
  {
    if c.Nested? {
      FitsFirst(s.stack[|s.stack| - 1], s.w.held, ExpectedStmt(c, AroundOf(s.stack), {}, None), later);
      NestedStrict(env, c.block, s, avoid);
    }
  }

  lemma FitsFirst(t: Txn, held: set<Key>, head: seq<Outcome>, later: seq<Outcome>)
    requires Fits(t, held, head + later)
    ensures Fits(t, held, head) && K.KeysAll(later) !! held && K.KeysAll(head) !! K.KeysAll(later)
  {
    ThreeParts(Views(t.children), head, later);
    K.Append(head, later);
  }

  lemma ThreeParts(xs: seq<Outcome>, ys: seq<Outcome>, zs: seq<Outcome>)
    requires K.DistinctAll(xs + (ys + zs))
    ensures K.DistinctAll(xs + ys) && K.KeysAll(ys) !! K.KeysAll(zs) && K.KeysAll(xs + ys) <= K.KeysAll(xs + (ys + zs))
  {
    Regroup(xs, ys, zs);
    K.Append(xs, ys);
    K.Append(xs + ys, zs);
  }

  /** After a statement that went as expected the rest of the body finds what it needs. */
  lemma UnderNext(env: Env, c: Stmt, s: State, avoid: set<Key>, later: seq<Outcome>)
    requires StraightStmt(c) && ForeseenStmt(c, {}, avoid) && !StmtRaises(c)
    requires Under(env, s, avoid, ExpectedStmt(c, AroundOf(s.stack), {}, None) + later)
    ensures var k, a := |s.stack| - 1, AroundOf(s.stack);
            var e := RunStmt(Tolerant(env), c, k, s);
            && Under(env, e.s, avoid + StmtStores(c), later) && AroundOf(e.s.stack) == a && |e.s.stack| == k + 1
            && |e.s.stack[k].children| == |s.stack[k].children| + |ExpectedStmt(c, a, {}, None)|
  {
    var k, a, t := |s.stack| - 1, AroundOf(s.stack), s.stack[|s.stack| - 1];
    var head := ExpectedStmt(c, a, {}, None);
    FitsFirst(t, s.w.held, head, later);
    K.Append(Views(t.children), head);
    StmtOutcome(Tolerant(env), c, s, {}, avoid);
    K.StmtHeld(Tolerant(env), c, s, {}, avoid);
    var e := RunStmt(Tolerant(env), c, k, s);
    FitsNext(t, s.w.held, e.s.stack[k], e.s.w.held, c, a, later);
  }

  lemma FitsNext(t: Txn, held: set<Key>, t1: Txn, held1: set<Key>, c: Stmt, a: Around, later: seq<Outcome>)
    requires var head := ExpectedStmt(c, a, {}, None);
             Fits(t, held, head + later) && Ran(t, t1, false, [c], head) && !t.Terminal() && !t.found
    requires held1 == held + K.KeepsStmt(c, a, {}, None)
    ensures Fits(t1, held1, later) && !t1.Terminal() && |t1.children| == |t.children| + |ExpectedStmt(c, a, {}, None)|
  {
    var head := ExpectedStmt(c, a, {}, None);
    FitsFirst(t, held, head, later);
    Regroup(Views(t.children), head, later);
    K.Append(Views(t.children), head);
    K.KeepsStmtWithin(c, a, {}, None);
    OpenKeptStmt(c, a);
    ViewsLength(t.children);
    ViewsLength(t1.children);
  }

  /** A child that went astray, and whatever came after it. */
  lemma AstrayOff(t: Txn, x: Exited, k: nat, t1: Txn, t2: Txn, body: seq<Stmt>, a: Around)
    requires body != [] && body[0].Nested? && Astray(x, k, t, body[0].block, a) && x.s.stack[k] == t1 && Grown(t1, t2)
    requires x.txn.None? ==> t2 == t1
    ensures Off(t, t2, body, a)
  {
    var n := |t.children|;
    if x.txn.None? {
      assert t2.children[n..] == [];
    } else {
      var c := x.txn.value;
      GrownTwice(Adopting(t, c), t1, t2);
      assert Evolves(Adopting(t, c).children[n], t2.children[..n + 1][n]);
      assert Views(t2.children[n..])[0] == View(t2.children[n]);
    }
  }

  /** A body whose first statement went as expected, and the rest of it astray. */
  lemma OffLater(t: Txn, t1: Txn, t2: Txn, body: seq<Stmt>, a: Around)
    requires body != [] && !StmtRaises(body[0]) && Off(t1, t2, body[1..], a)
    requires |t1.children| == |t.children| + |ExpectedStmt(body[0], a, {}, None)|
    ensures Off(t, t2, body, a)
  {
    var n, m := |t.children|, |t1.children|;
    forall v | v == COMMITTED || v == ROLLED_BACK
      ensures !CompatibleAll(Views(t2.children[n..]), ExpectedBody(body, a, {}, Some(v)))
    {
      var first, rest := t2.children[n..m], t2.children[m..];
      assert t2.children[n..] == first + rest;
      ViewsAppend(first, rest);
      ViewsLength(first);
      CompatibleAppend(Views(first), Views(rest), ExpectedStmt(body[0], a, {}, Some(v)), ExpectedBody(body[1..], a, {}, Some(v)));
    }
  }

  lemma {:induction false} ViewsLength(ts: seq<Txn>)
    ensures |Views(ts)| == |ts|
  {
    if ts != [] { ViewsLength(ts[1..]); }
  }

  /** The outermost block, when its body went as expected. */
  lemma RootStrict(env: Env, b: Block, w: World, f: Exec)
    requires Smooth(env) && Straight(b) && Unstored(b, w.store.Keys)
    requires var o := Expected(b, OUTERMOST, {}, None); K.Distinct(o) && K.Keys(o) !! w.held
    requires f == RunBody(Tolerant(env), b.body, 0, Enter(Tolerant(env), b.cfg, State([], w)).s) && |f.s.stack| > 0
    requires !SpoilsBody(b.body, Inside(b.cfg, OUTERMOST), ROLLED_BACK)
    ensures f.raised == Raises(b) && |f.s.stack| == 1
    ensures var x := Exit(env, 0, f.s, f.raised);
            if !Spoils(b, OUTERMOST, RootVerdict(b))
            then x == RunBlock(Tolerant(env), b, State([], w)) && x.s.stack == [] && x.txn.Some?
                 && View(x.txn.value) == Expected(b, OUTERMOST, {}, Some(RootVerdict(b)))
            else x.txn.Some? && View(x.txn.value) != Expected(b, OUTERMOST, {}, Some(RootVerdict(b)))
  {
    var e := Tolerant(env);
    var r := RootSettles(e, b, w, {});
    K.BodyOfBlockHeld(e, b, State([], w), {}, w.store.Keys);
    var t := f.s.stack[0];
    SettleStrict(env, b, OUTERMOST, 0, w.held, t, f.s.w);
    var q := if f.raised then Rollback(env, t, f.s.w) else Settle(env, 0, t, f.s.w);
    RootExit(env, 0, f.s, f.raised, q);
    assert View(Closed(q.t, false)) == View(q.t);
  }

  /** The outcome under a lock manager that raises. When nothing else fails, a straight program in which nothing
      is found and no two transactions lock the same key ends with nothing open and as `Expected` says if
      and only if no block that is expected to be COMMITTED directly contains an EAGER block that takes a lock
      and from which no exception escapes. It then runs exactly as under a tolerant manager. */
  lemma StrictOutcome(env: Env, b: Block, w: World)
    requires Smooth(env) && Straight(b) && Unstored(b, w.store.Keys)
    requires var o := Expected(b, OUTERMOST, {}, None); K.Distinct(o) && K.Keys(o) !! w.held
    ensures var x := RunBlock(env, b, State([], w));
            && (x.s.stack == [] && x.txn.Some? && View(x.txn.value) == Expected(b, OUTERMOST, {}, Some(RootVerdict(b)))
                <==> !Spoils(b, OUTERMOST, RootVerdict(b)))
            && (!Spoils(b, OUTERMOST, RootVerdict(b)) ==> x == RunBlock(Tolerant(env), b, State([], w)))
  {
    var s, a := State([], w), OUTERMOST;
    var o := Expected(b, a, {}, Some(RootVerdict(b)));
    BodyOfBlockStrict(env, b, s, w.store.Keys);
    var f := RunBody(env, b.body, 0, Enter(env, b.cfg, s).s);
    ExitGrows(env, 0, f.s, f.raised);
    var x := Exit(env, 0, f.s, f.raised);
    if SpoilsBody(b.body, Inside(b.cfg, a), ROLLED_BACK) {
      SpoilsBodyMore(b.body, Inside(b.cfg, a));
      if x.txn.Some? {
        OffNever(env, Opened(b.cfg, s), f.s.stack[0], x.txn.value, b, a);
        Reflexive(o);
      }
    } else {
      RootStrict(env, b, w, f);
    }
  }
}
