/** Exactly which locks a straight program leaves held, when blocks may find their records stored. The
    reason that any are is that rollback returns before its release for a transaction that is committed
    already, and that a transaction which found its record hands no decision down to its children. `Keeps`
    reads the locks off the text; the proof follows the set of held locks through bodies, exits and resets,
    with one exact equation for each, and finds that a commit or rollback from above takes away exactly
    what the text says. */
module TransactionKept {
  import opened Wrappers
  import opened TransactionModel
  import opened TransactionTolerance
  import opened TransactionOutcome

  /* ---------- Locks of a tree ---------- */

  function Lock(o: Outcome): set<Key> { if o.lock.Some? then {o.lock.value} else {} }

  /** The locks of all transactions of a tree, held or not. */
  function Keys(o: Outcome): set<Key>
    decreases o, 1
  {
    Lock(o) + KeysAll(o.children)
  }

  function KeysAll(os: seq<Outcome>): set<Key>
    decreases os, 0
  {
    if os == [] then {} else Keys(os[0]) + KeysAll(os[1..])
  }

  /** No two transactions of the tree lock the same key. */
  predicate Distinct(o: Outcome)
    decreases o, 1
  {
    Lock(o) !! KeysAll(o.children) && DistinctAll(o.children)
  }

  predicate DistinctAll(os: seq<Outcome>)
    decreases os, 0
  {
    os == [] || (Distinct(os[0]) && DistinctAll(os[1..]) && Keys(os[0]) !! KeysAll(os[1..]))
  }

  /** What the commit of a tree releases: a decided transaction releases its own lock once more. */
  function Freed(o: Outcome): set<Key>
    decreases o, 1
  {
    Lock(o) + if o.Terminal() then {} else FreedAll(o.children)
  }

  function FreedAll(os: seq<Outcome>): set<Key>
    decreases os, 0
  {
    if os == [] then {} else Freed(os[0]) + FreedAll(os[1..])
  }

  /** What the rollback of a tree releases. */
  function Undone(o: Outcome): set<Key>
    decreases o, 1
  {
    if o.Terminal() then {} else Lock(o) + UndoneAll(o.children)
  }

  function UndoneAll(os: seq<Outcome>): set<Key>
    decreases os, 0
  {
    if os == [] then {} else Undone(os[0]) + UndoneAll(os[1..])
  }

  lemma {:induction false} Append(os: seq<Outcome>, us: seq<Outcome>)
    ensures KeysAll(os + us) == KeysAll(os) + KeysAll(us)
    ensures DistinctAll(os + us) == (DistinctAll(os) && DistinctAll(us) && KeysAll(os) !! KeysAll(us))
    ensures FreedAll(os + us) == FreedAll(os) + FreedAll(us)
    ensures UndoneAll(os + us) == UndoneAll(os) + UndoneAll(us)
  {
    if os == [] {
      assert os + us == us;
    } else {
      assert (os + us)[1..] == os[1..] + us;
      Append(os[1..], us);
    }
  }

  lemma One(o: Outcome)
    ensures KeysAll([o]) == Keys(o) && DistinctAll([o]) == Distinct(o) && FreedAll([o]) == Freed(o) && UndoneAll([o]) == Undone(o)
  {
    assert [o][1..] == [];
  }

  lemma {:induction false} Within(o: Outcome)
    ensures Freed(o) <= Keys(o) && Undone(o) <= Keys(o)
    decreases o, 1
  {
    WithinAll(o.children);
  }

  lemma {:induction false} WithinAll(os: seq<Outcome>)
    ensures FreedAll(os) <= KeysAll(os) && UndoneAll(os) <= KeysAll(os)
    decreases os, 0
  {
    if os != [] {
      Within(os[0]);
      WithinAll(os[1..]);
    }
  }

  lemma {:induction false} RollbackFrees(env: Env, t: Txn, w: World)
    requires Calm(env)
    ensures Rollback(env, t, w).w.held == w.held - Undone(View(t))
    decreases t, 1
  {
    if !t.Terminal() {
      var h := RunHooks(env, t.cfg.id, OnRollback, Reversed(t.rollbackHooks), w);
      HooksSucceed(env, t.cfg.id, OnRollback, Reversed(t.rollbackHooks), w);
      HooksKeepStore(env, t.cfg.id, OnRollback, Reversed(t.rollbackHooks), w);
      RollbackAllFrees(env, t.children, h.w);
    }
  }

  lemma {:induction false} RollbackAllFrees(env: Env, ts: seq<Txn>, w: World)
    requires Calm(env)
    ensures RollbackAll(env, ts, w).w.held == w.held - UndoneAll(Views(ts))
    decreases ts, 0
  {
    if ts != [] {
      var n := |ts| - 1;
      assert ts == ts[..n] + [ts[n]];
      RollbackDecides(env, ts[n], w);
      RollbackFrees(env, ts[n], w);
      RollbackAllFrees(env, ts[..n], Rollback(env, ts[n], w).w);
      ViewsSnoc(ts[..n], ts[n]);
    }
  }

  lemma ViewsSnoc(ts: seq<Txn>, t: Txn)
    ensures Views(ts + [t]) == Views(ts) + [View(t)]
    ensures KeysAll(Views(ts + [t])) == KeysAll(Views(ts)) + Keys(View(t))
    ensures UndoneAll(Views(ts + [t])) == UndoneAll(Views(ts)) + Undone(View(t))
  {
    ViewsAppend(ts, [t]);
    assert [t][1..] == [] && Views([t]) == [View(t)];
    Append(Views(ts), [View(t)]);
    One(View(t));
  }

  lemma {:induction false} CommitFrees(env: Env, t: Txn, w: World)
    requires Calm(env)
    ensures Commit(env, t, w).w.held == w.held - Freed(View(t))
    decreases t, 1
  {
    if !t.Terminal() {
      CommitAllFrees(env, t.children, w);
      CommitAllDecides(env, t.children, w);
      var cs := CommitAll(env, t.children, w);
      HooksSucceed(env, t.cfg.id, OnCommit, t.commitHooks, cs.w);
      HooksKeepStore(env, t.cfg.id, OnCommit, t.commitHooks, cs.w);
    }
  }

  lemma {:induction false} CommitAllFrees(env: Env, ts: seq<Txn>, w: World)
    requires Calm(env)
    ensures CommitAll(env, ts, w).w.held == w.held - FreedAll(Views(ts))
    decreases ts, 0
  {
    if ts != [] {
      CommitDecides(env, ts[0], w);
      CommitFrees(env, ts[0], w);
      CommitAllFrees(env, ts[1..], Commit(env, ts[0], w).w);
      assert Views(ts)[1..] == Views(ts[1..]);
    }
  }

  /* ---------- Read off the text ---------- */

  /** The locks that the blocks of a program still hold, `fate` being the decision that reaches it from above.
      A block that found a record keeps its lock unless it is EAGER and ends normally, or is reached by a
      commit; any other keeps it exactly if nothing decides it. */
  function Keeps(b: Block, a: Around, init: set<Key>, fate: Option<TransactionState>): set<Key>
    decreases b, 1
  {
    (if KeepsOwn(b, a, init, fate) then {b.cfg.key} else {})
    + KeepsBody(b.body, Inside(b.cfg, a), init, FateInside(b, a, init, fate))
  }

  predicate KeepsOwn(b: Block, a: Around, init: set<Key>, fate: Option<TransactionState>) {
    && Locks(b.cfg, a)
    && if Finds(b.cfg, init) then Raises(b) || (Inside(b.cfg, a).mode != EAGER && fate != Some(COMMITTED))
       else !Raises(b) && Inside(b.cfg, a).mode != EAGER && fate == None
  }

  function KeepsBody(body: seq<Stmt>, a: Around, init: set<Key>, fate: Option<TransactionState>): set<Key>
    decreases body, 0
  {
    if body == [] then {}
    else KeepsStmt(body[0], a, init, fate) + if StmtRaises(body[0]) then {} else KeepsBody(body[1..], a, init, fate)
  }

  function KeepsStmt(c: Stmt, a: Around, init: set<Key>, fate: Option<TransactionState>): set<Key>
    decreases c, 2
  {
    if c.Nested? then Keeps(c.block, a, init, fate) else {}
  }

  /** Which locks there are does not depend on what is decided. */
  lemma {:induction false} SameLocks(b: Block, a: Around, init: set<Key>, fate: Option<TransactionState>)
    ensures var o, free := Expected(b, a, init, fate), Expected(b, a, init, None);
            Keys(o) == Keys(free) && Distinct(o) == Distinct(free)
    decreases b, 1
  {
    SameLocksBody(b.body, Inside(b.cfg, a), init, FateInside(b, a, init, fate));
    SameLocksBody(b.body, Inside(b.cfg, a), init, FateInside(b, a, init, None));
  }

  lemma {:induction false} SameLocksBody(body: seq<Stmt>, a: Around, init: set<Key>, fate: Option<TransactionState>)
    ensures var os, free := ExpectedBody(body, a, init, fate), ExpectedBody(body, a, init, None);
            KeysAll(os) == KeysAll(free) && DistinctAll(os) == DistinctAll(free)
    decreases body, 0
  {
    if body != [] {
      SameLocksStmt(body[0], a, init, fate);
      if !StmtRaises(body[0]) { SameLocksBody(body[1..], a, init, fate); }
      ExpectedSplit(body, a, init, fate);
      ExpectedSplit(body, a, init, None);
    }
  }

  lemma {:induction false} SameLocksStmt(c: Stmt, a: Around, init: set<Key>, fate: Option<TransactionState>)
    ensures var os, free := ExpectedStmt(c, a, init, fate), ExpectedStmt(c, a, init, None);
            KeysAll(os) == KeysAll(free) && DistinctAll(os) == DistinctAll(free)
    decreases c, 2
  {
    if c.Nested? {
      SameLocks(c.block, a, init, fate);
      One(Expected(c.block, a, init, fate));
      One(Expected(c.block, a, init, None));
    }
  }

  lemma {:induction false} KeepsWithin(b: Block, a: Around, init: set<Key>, fate: Option<TransactionState>)
    ensures Keeps(b, a, init, fate) <= Keys(Expected(b, a, init, fate))
    decreases b, 1
  {
    KeepsBodyWithin(b.body, Inside(b.cfg, a), init, FateInside(b, a, init, fate));
  }

  lemma {:induction false} KeepsBodyWithin(body: seq<Stmt>, a: Around, init: set<Key>, fate: Option<TransactionState>)
    ensures KeepsBody(body, a, init, fate) <= KeysAll(ExpectedBody(body, a, init, fate))
    decreases body, 0
  {
    if body != [] {
      KeepsStmtWithin(body[0], a, init, fate);
      if !StmtRaises(body[0]) { KeepsBodyWithin(body[1..], a, init, fate); }
      ExpectedSplit(body, a, init, fate);
    }
  }

  lemma {:induction false} KeepsStmtWithin(c: Stmt, a: Around, init: set<Key>, fate: Option<TransactionState>)
    ensures KeepsStmt(c, a, init, fate) <= KeysAll(ExpectedStmt(c, a, init, fate))
    decreases c, 2
  {
    if c.Nested? {
      KeepsWithin(c.block, a, init, fate);
      One(Expected(c.block, a, init, fate));
    }
  }

  function ExpectedRest(body: seq<Stmt>, a: Around, init: set<Key>, fate: Option<TransactionState>): seq<Outcome>
    requires body != []
  {
    if StmtRaises(body[0]) then [] else ExpectedBody(body[1..], a, init, fate)
  }

  lemma ExpectedSplit(body: seq<Stmt>, a: Around, init: set<Key>, fate: Option<TransactionState>)
    requires body != []
    ensures var all, head, rest := ExpectedBody(body, a, init, fate), ExpectedStmt(body[0], a, init, fate), ExpectedRest(body, a, init, fate);
            && all == head + rest
            && KeysAll(all) == KeysAll(head) + KeysAll(rest)
            && DistinctAll(all) == (DistinctAll(head) && DistinctAll(rest) && KeysAll(head) !! KeysAll(rest))
            && FreedAll(all) == FreedAll(head) + FreedAll(rest) && UndoneAll(all) == UndoneAll(head) + UndoneAll(rest)
  {
    Append(ExpectedStmt(body[0], a, init, fate), ExpectedRest(body, a, init, fate));
  }

  /** Committing or rolling back from above what was kept for want of a decision. */
  lemma {:induction false} KeepsDecided(b: Block, a: Around, init: set<Key>)
    requires Distinct(Expected(b, a, init, None))
    ensures var o := Expected(b, a, init, None);
            && (!Raises(b) ==> Keeps(b, a, init, None) - Freed(o) == Keeps(b, a, init, Some(COMMITTED)))
            && Keeps(b, a, init, None) - Undone(o) == Keeps(b, a, init, Some(ROLLED_BACK))
    decreases b, 1
  {
    var inside := Inside(b.cfg, a);
    KeepsBodyWithin(b.body, inside, init, FateInside(b, a, init, None));
    if FateInside(b, a, init, None) == None {
      KeepsBodyDecided(b.body, inside, init);
      WithinAll(ExpectedBody(b.body, inside, init, None));
    }
  }

  lemma {:induction false} KeepsBodyDecided(body: seq<Stmt>, a: Around, init: set<Key>)
    requires DistinctAll(ExpectedBody(body, a, init, None))
    ensures var os := ExpectedBody(body, a, init, None);
            && (!BodyRaises(body) ==> KeepsBody(body, a, init, None) - FreedAll(os) == KeepsBody(body, a, init, Some(COMMITTED)))
            && KeepsBody(body, a, init, None) - UndoneAll(os) == KeepsBody(body, a, init, Some(ROLLED_BACK))
    decreases body, 0
  {
    if body != [] {
      ExpectedSplit(body, a, init, None);
      KeepsStmtDecided(body[0], a, init);
      KeepsStmtWithin(body[0], a, init, None);
      WithinAll(ExpectedStmt(body[0], a, init, None));
      WithinAll(ExpectedRest(body, a, init, None));
      if !StmtRaises(body[0]) {
        KeepsBodyDecided(body[1..], a, init);
        KeepsBodyWithin(body[1..], a, init, None);
      }
    }
  }

  lemma {:induction false} KeepsStmtDecided(c: Stmt, a: Around, init: set<Key>)
    requires DistinctAll(ExpectedStmt(c, a, init, None))
    ensures var os := ExpectedStmt(c, a, init, None);
            && (!StmtRaises(c) ==> KeepsStmt(c, a, init, None) - FreedAll(os) == KeepsStmt(c, a, init, Some(COMMITTED)))
            && KeepsStmt(c, a, init, None) - UndoneAll(os) == KeepsStmt(c, a, init, Some(ROLLED_BACK))
    decreases c, 2
  {
    if c.Nested? {
      One(Expected(c.block, a, init, None));
      KeepsDecided(c.block, a, init);
    }
  }

  /* ---------- Running ---------- */

  /** The locks held after the innermost open transaction `t` has become `t'`, with new children `added`
      that kept `kept`: all of them, unless it was rolled back. */
  ghost predicate HeldAfter(t: Txn, held: set<Key>, t': Txn, held': set<Key>, added: seq<Outcome>, kept: set<Key>) {
    held' == if t'.state == ROLLED_BACK then held + kept - (Lock(View(t)) + UndoneAll(Views(t.children) + added))
             else held + kept
  }

  lemma {:induction false} NestedHeld(env: Env, b: Block, s: State, init: set<Key>, avoid: set<Key>)
    requires Calm(env) && env.lockManager && Straight(b) && Foreseen(b, init, avoid) && init <= s.w.store.Keys <= avoid
    requires s.stack != [] && Ready(s.stack[|s.stack| - 1])
    requires var o := Expected(b, AroundOf(s.stack), init, None); Distinct(o) && Keys(o) !! s.w.held
    ensures var n, x, a := |s.stack| - 1, RunBlock(env, b, s), AroundOf(s.stack);
            |x.s.stack| == n + 1
            && HeldAfter(s.stack[n], s.w.held, x.s.stack[n], x.s.w.held, [Expected(b, a, init, None)], Keeps(b, a, init, None))
    decreases b, 3
  {
    var k, a := |s.stack|, AroundOf(s.stack);
    BodyOfBlock(env, b, s, init, avoid);
    SettledHeld(env, b, s, init, avoid);
    var f := RunBody(env, b.body, k, Enter(env, b.cfg, s).s);
    var t := f.s.stack[k];
    assert f.s.stack[k - 1] == f.s.stack[..k][k - 1] == s.stack[k - 1];
    var r := if f.raised then Rollback(env, t, f.s.w) else Settle(env, k, t, f.s.w);
    SettledOutcome(env, b, a, init, k, t, f.s.w, f.raised);
    ResetHeld(env, k, Replace(f.s, k, r), s.w.held, Keeps(b, a, init, None));
  }

  lemma ResetHeld(env: Env, k: nat, s: State, base: set<Key>, kept: set<Key>)
    requires Calm(env) && 0 < k < |s.stack| && Ready(s.stack[k - 1]) && s.w.held == base + kept
    ensures var x := Reset(env, k, s);
            |x.s.stack| == k
            && HeldAfter(s.stack[k - 1], base, x.s.stack[k - 1], x.s.w.held, [View(s.stack[k])], kept)
  {
    var p, c := s.stack[k - 1], Resetting(s, k);
    var q := Adopting(p, c);
    assert View(c) == View(s.stack[k]);
    RollbackFrees(env, q, s.w);
    RollbackDecides(env, q, s.w);
    ViewsSnoc(p.children, c);
  }

  /** The locks held when a block has settled, before its `reset`. */
  lemma {:induction false} SettledHeld(env: Env, b: Block, s: State, init: set<Key>, avoid: set<Key>)
    requires Calm(env) && env.lockManager && Straight(b) && Foreseen(b, init, avoid) && init <= s.w.store.Keys <= avoid
    requires var o := Expected(b, AroundOf(s.stack), init, None); Distinct(o) && Keys(o) !! s.w.held
    ensures var k, a := |s.stack|, AroundOf(s.stack);
            var f := RunBody(env, b.body, k, Enter(env, b.cfg, s).s);
            var t := f.s.stack[k];
            var r := if f.raised then Rollback(env, t, f.s.w) else Settle(env, k, t, f.s.w);
            r.w.held == s.w.held + Keeps(b, a, init, if k > 0 then None else Some(RootVerdict(b)))
    decreases b, 2
  {
    var k, a := |s.stack|, AroundOf(s.stack);
    BodyOfBlockHeld(env, b, s, init, avoid);
    var f := RunBody(env, b.body, k, Enter(env, b.cfg, s).s);
    HeldOnExit(env, b, a, init, k, s.w.held, f.s.stack[k], f.s.w);
  }

  lemma {:induction false} BodyHeldInside(env: Env, b: Block, s: State, init: set<Key>, avoid: set<Key>)
    requires Calm(env) && env.lockManager && Straight(b) && Foreseen(b, init, avoid) && init <= s.w.store.Keys <= avoid
    requires var o := Expected(b, AroundOf(s.stack), init, None); Distinct(o) && Keys(o) !! s.w.held
    ensures var k := |s.stack|;
            var f := RunBody(env, b.body, k, Enter(env, b.cfg, s).s);
            |f.s.stack| == k + 1 && HeldInside(b, AroundOf(s.stack), init, s.w.held, f.s.stack[k], f.s.w.held)
    decreases b, 0
  {
    var k, a, e := |s.stack|, AroundOf(s.stack), Enter(env, b.cfg, s);
    OwnLocks(b, a, init, s.w.held);
    Entered(env, b.cfg, s);
    BodyHeld(env, b.body, e.s, init, avoid);
    var f := RunBody(env, b.body, k, e.s);
    InsideFromAfter(b, a, init, s.w.held, e.s.stack[k], f.s.stack[k], f.s.w.held);
  }

  lemma Entered(env: Env, c: Config, s: State)
    requires env.lockManager
    ensures var e, t, a := Enter(env, c, s), Opened(c, s), AroundOf(s.stack);
            && !e.raised && e.s.stack == s.stack + [t] && AroundOf(e.s.stack) == Inside(c, a)
            && t.children == [] && Lock(View(t)) == (if Locks(c, a) then {c.key} else {})
            && e.s.w.held == s.w.held + (if Locks(c, a) then {c.key} else {}) && e.s.w.trace == s.w.trace && e.s.w.store == s.w.store
  {}

  lemma InsideFromAfter(b: Block, a: Around, init: set<Key>, base: set<Key>, t0: Txn, t: Txn, held: set<Key>)
    requires t0.children == [] && Lock(View(t0)) == OwnLock(b, a)
    requires HeldAfter(t0, base + OwnLock(b, a), t, held, ExpectedBody(b.body, Inside(b.cfg, a), init, None),
                       KeepsBody(b.body, Inside(b.cfg, a), init, None))
    ensures HeldInside(b, a, init, base, t, held)
  {
    var own := ExpectedBody(b.body, Inside(b.cfg, a), init, None);
    assert Views(t0.children) == [] && [] + own == own;
  }

  lemma {:induction false} BodyOfBlockHeld(env: Env, b: Block, s: State, init: set<Key>, avoid: set<Key>)
    requires Calm(env) && env.lockManager && Straight(b) && Foreseen(b, init, avoid) && init <= s.w.store.Keys <= avoid
    requires var o := Expected(b, AroundOf(s.stack), init, None); Distinct(o) && Keys(o) !! s.w.held
    ensures var k := |s.stack|;
            var f := RunBody(env, b.body, k, Enter(env, b.cfg, s).s);
            f.raised == Raises(b) && |f.s.stack| == k + 1 && f.s.stack[..k] == s.stack
            && AfterBody(b, AroundOf(s.stack), init, s.w.held, f.s.stack[k], f.s.w.held)
    decreases b, 1
  {
    BodyOfBlock(env, b, s, init, avoid);
    OwnLocks(b, AroundOf(s.stack), init, s.w.held);
    BodyHeldInside(env, b, s, init, avoid);
  }

  /** The locks of the blocks in `b` are distinct from each other, from its own and from those held before. */
  lemma OwnLocks(b: Block, a: Around, init: set<Key>, base: set<Key>)
    requires var o := Expected(b, a, init, None); Distinct(o) && Keys(o) !! base
    ensures var own, lock := ExpectedBody(b.body, Inside(b.cfg, a), init, None), OwnLock(b, a);
            DistinctAll(own) && lock !! KeysAll(own) && base !! KeysAll(own) && base !! lock
  {
    SameLocksBody(b.body, Inside(b.cfg, a), init, FateInside(b, a, init, None));
  }

  function OwnLock(b: Block, a: Around): set<Key> { if Locks(b.cfg, a) then {b.cfg.key} else {} }

  /** The open transaction of `b` after its body, and the locks held then. */
  ghost predicate AfterBody(b: Block, a: Around, init: set<Key>, base: set<Key>, t: Txn, held: set<Key>) {
    var own, lock := ExpectedBody(b.body, Inside(b.cfg, a), init, None), OwnLock(b, a);
    && BodyDone(t, b, a, init)
    && DistinctAll(own) && lock !! KeysAll(own) && base !! KeysAll(own) && base !! lock
    && HeldInside(b, a, init, base, t, held)
  }

  ghost predicate HeldInside(b: Block, a: Around, init: set<Key>, base: set<Key>, t: Txn, held: set<Key>) {
    var own, kept := ExpectedBody(b.body, Inside(b.cfg, a), init, None), KeepsBody(b.body, Inside(b.cfg, a), init, None);
    var lock := OwnLock(b, a);
    held == if t.state == ROLLED_BACK then base + lock + kept - (lock + UndoneAll(own)) else base + lock + kept
  }

  lemma RolledBackHeld(env: Env, b: Block, a: Around, init: set<Key>, base: set<Key>, t: Txn, w: World)
    requires Calm(env) && AfterBody(b, a, init, base, t, w.held)
    ensures Rollback(env, t, w).w.held == base + if t.found then OwnLock(b, a) + KeepsBody(b.body, Inside(b.cfg, a), init, None)
                                                 else KeepsBody(b.body, Inside(b.cfg, a), init, Some(ROLLED_BACK))
  {
    var own := ExpectedBody(b.body, Inside(b.cfg, a), init, None);
    RollbackFrees(env, t, w);
    KeepsBodyDecided(b.body, Inside(b.cfg, a), init);
    KeepsBodyWithin(b.body, Inside(b.cfg, a), init, None);
    WithinAll(own);
    assert !t.Terminal() ==> Undone(View(t)) == OwnLock(b, a) + UndoneAll(own);
  }

  lemma CommittedHeld(env: Env, b: Block, a: Around, init: set<Key>, base: set<Key>, t: Txn, w: World)
    requires Calm(env) && AfterBody(b, a, init, base, t, w.held) && !Raises(b)
    ensures Commit(env, t, w).w.held == base + KeepsBody(b.body, Inside(b.cfg, a), init, if t.found then None else Some(COMMITTED))
  {
    var own := ExpectedBody(b.body, Inside(b.cfg, a), init, None);
    CommitFrees(env, t, w);
    KeepsBodyDecided(b.body, Inside(b.cfg, a), init);
    KeepsBodyWithin(b.body, Inside(b.cfg, a), init, None);
    WithinAll(own);
    assert Freed(View(t)) == OwnLock(b, a) + if t.found then {} else FreedAll(own);
  }

  lemma HeldOnExit(env: Env, b: Block, a: Around, init: set<Key>, k: nat, base: set<Key>, t: Txn, w: World)
    requires Calm(env) && AfterBody(b, a, init, base, t, w.held) && (k == 0 ==> a == OUTERMOST)
    ensures var r := if Raises(b) then Rollback(env, t, w) else Settle(env, k, t, w);
            r.w.held == base + Keeps(b, a, init, if k > 0 then None else Some(RootVerdict(b)))
  {
    RolledBackHeld(env, b, a, init, base, t, w);
    if !Raises(b) {
      CommittedHeld(env, b, a, init, base, t, w);
      CommitDecides(env, t, w);
      KeepsSettled(b, a, init);
      assert t.state != ROLLED_BACK;
    }
  }

  /** What a block that ends normally keeps, by what becomes of it. */
  lemma KeepsSettled(b: Block, a: Around, init: set<Key>)
    requires !Raises(b)
    ensures var own, body, inside := OwnLock(b, a), b.body, Inside(b.cfg, a);
            if Finds(b.cfg, init) then
              && Keeps(b, a, init, Some(COMMITTED)) == KeepsBody(body, inside, init, None)
              && (inside.mode == EAGER ==> Keeps(b, a, init, None) == Keeps(b, a, init, Some(COMMITTED)))
              && (inside.mode != EAGER ==> Keeps(b, a, init, None) == own + KeepsBody(body, inside, init, None)
                                           && Keeps(b, a, init, Some(ROLLED_BACK)) == own + KeepsBody(body, inside, init, None))
            else
              && Keeps(b, a, init, Some(COMMITTED)) == KeepsBody(body, inside, init, Some(COMMITTED))
              && (inside.mode == EAGER ==> Keeps(b, a, init, None) == Keeps(b, a, init, Some(COMMITTED)))
              && (inside.mode != EAGER ==> Keeps(b, a, init, None) == own + KeepsBody(body, inside, init, None)
                                           && Keeps(b, a, init, Some(ROLLED_BACK)) == KeepsBody(body, inside, init, Some(ROLLED_BACK)))
  {}

  /** What the statements `body` do to the locks held. */
  ghost predicate HeldThrough(env: Env, body: seq<Stmt>, s: State, init: set<Key>)
    requires s.stack != []
  {
    var k, a := |s.stack| - 1, AroundOf(s.stack);
    var e := RunBody(env, body, k, s);
    |e.s.stack| == k + 1
    && HeldAfter(s.stack[k], s.w.held, e.s.stack[k], e.s.w.held, ExpectedBody(body, a, init, None), KeepsBody(body, a, init, None))
  }

  lemma {:induction false} BodyHeld(env: Env, body: seq<Stmt>, s: State, init: set<Key>, avoid: set<Key>)
    requires Calm(env) && env.lockManager && StraightBody(body) && ForeseenBody(body, init, avoid)
    requires init <= s.w.store.Keys <= avoid && s.stack != [] && Ready(s.stack[|s.stack| - 1])
    requires var os := ExpectedBody(body, AroundOf(s.stack), init, None); DistinctAll(os) && KeysAll(os) !! s.w.held
    ensures HeldThrough(env, body, s, init)
    decreases body, 0
  {
    if body != [] {
      var a := AroundOf(s.stack);
      ExpectedSplit(body, a, init, None);
      StmtHeld(env, body[0], s, init, avoid);
      if StmtRaises(body[0]) {
        RaisedHere(env, body, s, init, avoid);
        EndsThere(body, a, init);
      } else {
        NextHeld(env, body[0], s, init, avoid, ExpectedRest(body, a, init, None));
        BodyHeld(env, body[1..], RunStmt(env, body[0], |s.stack| - 1, s).s, init, avoid + StmtStores(body[0]));
        LaterHeld(env, body, s, init);
      }
    }
  }

  lemma LaterHeld(env: Env, body: seq<Stmt>, s: State, init: set<Key>)
    requires body != [] && s.stack != [] && !StmtRaises(body[0])
    requires var k, a, e := |s.stack| - 1, AroundOf(s.stack), RunStmt(env, body[0], |s.stack| - 1, s);
             && !e.raised && |e.s.stack| == k + 1 && AroundOf(e.s.stack) == a
             && Ran(s.stack[k], e.s.stack[k], false, [body[0]], ExpectedStmt(body[0], a, init, None))
             && HeldAfter(s.stack[k], s.w.held, e.s.stack[k], e.s.w.held, ExpectedStmt(body[0], a, init, None), KeepsStmt(body[0], a, init, None))
             && HeldThrough(env, body[1..], e.s, init)
    ensures HeldThrough(env, body, s, init)
  {
    var k, a, e := |s.stack| - 1, AroundOf(s.stack), RunStmt(env, body[0], |s.stack| - 1, s);
    var f := RunBody(env, body[1..], k, e.s);
    assert RunBody(env, body, k, s) == f;
    RestHeld(body, a, init, s.stack[k], s.w.held, e.s.stack[k], e.s.w.held, f.s.stack[k], f.s.w.held);
  }

  lemma EndsThere(body: seq<Stmt>, a: Around, init: set<Key>)
    requires body != [] && StmtRaises(body[0])
    ensures ExpectedBody(body, a, init, None) == ExpectedStmt(body[0], a, init, None)
    ensures KeepsBody(body, a, init, None) == KeepsStmt(body[0], a, init, None)
  {}

  lemma RestHeld(body: seq<Stmt>, a: Around, init: set<Key>, t: Txn, held: set<Key>, t1: Txn, held1: set<Key>, t2: Txn, held2: set<Key>)
    requires body != [] && !StmtRaises(body[0]) && Ran(t, t1, false, [body[0]], ExpectedStmt(body[0], a, init, None))
    requires HeldAfter(t, held, t1, held1, ExpectedStmt(body[0], a, init, None), KeepsStmt(body[0], a, init, None))
    requires HeldAfter(t1, held1, t2, held2, ExpectedBody(body[1..], a, init, None), KeepsBody(body[1..], a, init, None))
    ensures HeldAfter(t, held, t2, held2, ExpectedBody(body, a, init, None), KeepsBody(body, a, init, None))
  {
    Regroup(Views(t.children), ExpectedStmt(body[0], a, init, None), ExpectedBody(body[1..], a, init, None));
  }

  /** After a statement that does not raise the rest of the body finds what it needs. */
  lemma NextHeld(env: Env, c: Stmt, s: State, init: set<Key>, avoid: set<Key>, later: seq<Outcome>)
    requires Calm(env) && env.lockManager && StraightStmt(c) && ForeseenStmt(c, init, avoid) && !StmtRaises(c)
    requires init <= s.w.store.Keys <= avoid && s.stack != [] && Ready(s.stack[|s.stack| - 1])
    requires KeysAll(later) !! s.w.held + KeysAll(ExpectedStmt(c, AroundOf(s.stack), init, None))
    requires var k, a, e := |s.stack| - 1, AroundOf(s.stack), RunStmt(env, c, |s.stack| - 1, s);
             |e.s.stack| == k + 1
             && HeldAfter(s.stack[k], s.w.held, e.s.stack[k], e.s.w.held, ExpectedStmt(c, a, init, None), KeepsStmt(c, a, init, None))
    ensures var k, e := |s.stack| - 1, RunStmt(env, c, |s.stack| - 1, s);
            && !e.raised && |e.s.stack| == k + 1 && Ready(e.s.stack[k]) && AroundOf(e.s.stack) == AroundOf(s.stack)
            && init <= e.s.w.store.Keys <= avoid + StmtStores(c) && KeysAll(later) !! e.s.w.held
            && Ran(s.stack[k], e.s.stack[k], false, [c], ExpectedStmt(c, AroundOf(s.stack), init, None))
  {
    StmtOutcome(env, c, s, init, avoid);
    KeepsStmtWithin(c, AroundOf(s.stack), init, None);
  }

  lemma {:induction false} StmtHeld(env: Env, c: Stmt, s: State, init: set<Key>, avoid: set<Key>)
    requires Calm(env) && env.lockManager && StraightStmt(c) && ForeseenStmt(c, init, avoid)
    requires init <= s.w.store.Keys <= avoid && s.stack != [] && Ready(s.stack[|s.stack| - 1])
    requires var os := ExpectedStmt(c, AroundOf(s.stack), init, None); DistinctAll(os) && KeysAll(os) !! s.w.held
    ensures var k, a := |s.stack| - 1, AroundOf(s.stack);
            var e := RunStmt(env, c, k, s);
            |e.s.stack| == k + 1
            && HeldAfter(s.stack[k], s.w.held, e.s.stack[k], e.s.w.held, ExpectedStmt(c, a, init, None), KeepsStmt(c, a, init, None))
    decreases c, 2
  {
    if c.Nested? {
      One(Expected(c.block, AroundOf(s.stack), init, None));
      NestedHeld(env, c.block, s, init, avoid);
    }
  }

  /** Locks, exactly. A straight program whose blocks may find their records stored, none of which locks the
      key of another, ends holding what was held before and the locks that `Keeps` reads off its text and
      the keys stored initially. */
  lemma LocksKept(env: Env, b: Block, w: World, init: set<Key>)
    requires Quiet(env) && Safe(env, b) && Straight(b) && init <= w.store.Keys && Foreseen(b, init, w.store.Keys)
    requires var o := Expected(b, OUTERMOST, init, None); Distinct(o) && Keys(o) !! w.held
    ensures RunBlock(env, b, State([], w)).s.w.held == w.held + Keeps(b, OUTERMOST, init, Some(RootVerdict(b)))
  {
    var r := RootSettles(env, b, w, init);
    SettledHeld(Tolerant(env), b, State([], w), init, w.store.Keys);
  }
}
