/** The outcome theorem: what a straight program leaves behind, read off its text. */
module TransactionOutcome {
  import opened Wrappers
  import opened TransactionModel
  import opened TransactionTolerance

  /** No hook and no write fails. */
  ghost predicate Quiet(env: Env) { forall h, e :: !env.fails(h, e) }

  /* ---------- Deciding a tree ---------- */

  /** Every transaction of the tree that is still undecided, and is not below a decided one, gets `v`. */
  function Decide(t: Txn, v: TransactionState): Txn
    decreases t, 1
  {
    if t.Terminal() then t
    else (if v == ROLLED_BACK then Back(t) else t.(state := v)).(children := DecideAll(t.children, v))
  }

  function DecideAll(ts: seq<Txn>, v: TransactionState): (r: seq<Txn>)
    ensures |r| == |ts|
    decreases ts, 0
  {
    if ts == [] then [] else [Decide(ts[0], v)] + DecideAll(ts[1..], v)
  }

  lemma {:induction false} DecideAllAppend(ts: seq<Txn>, us: seq<Txn>, v: TransactionState)
    ensures DecideAll(ts + us, v) == DecideAll(ts, v) + DecideAll(us, v)
  {
    if ts == [] {
      assert ts + us == us;
    } else {
      assert (ts + us)[1..] == ts[1..] + us;
      DecideAllAppend(ts[1..], us, v);
    }
  }

  lemma {:induction false} HooksSucceed(env: Env, id: nat, kind: HookKind, hooks: seq<Hook>, w: World)
    requires Quiet(env)
    ensures !RunHooks(env, id, kind, hooks, w).raised
  {
    if hooks != [] {
      var bad := env.fails(w.trace, HookRun(id, kind, hooks[0], true));
      HooksSucceed(env, id, kind, hooks[1..], w.(trace := w.trace + [HookRun(id, kind, hooks[0], !bad)]));
    }
  }

  lemma {:induction false} RollbackDecides(env: Env, t: Txn, w: World)
    requires Quiet(env) && (env.strict ==> Unlocked(t))
    ensures var r := Rollback(env, t, w); r.t == Decide(t, ROLLED_BACK) && !r.raised
    decreases t, 1
  {
    if !t.Terminal() {
      HooksSucceed(env, t.cfg.id, OnRollback, Reversed(t.rollbackHooks), w);
      var h := RunHooks(env, t.cfg.id, OnRollback, Reversed(t.rollbackHooks), w);
      RollbackAllDecides(env, t.children, h.w);
    }
  }

  lemma {:induction false} RollbackAllDecides(env: Env, ts: seq<Txn>, w: World)
    requires Quiet(env) && (env.strict ==> UnlockedAll(ts))
    ensures var r := RollbackAll(env, ts, w); r.ts == DecideAll(ts, ROLLED_BACK) && !r.raised
    decreases ts, 0
  {
    if ts != [] {
      var n := |ts| - 1;
      assert ts == ts[..n] + [ts[n]];
      UnlockedAppend(ts[..n], [ts[n]]);
      OneUnlocked(ts[n]);
      RollbackDecides(env, ts[n], w);
      RollbackAllDecides(env, ts[..n], Rollback(env, ts[n], w).w);
      DecideAllAppend(ts[..n], [ts[n]], ROLLED_BACK);
    }
  }

  lemma {:induction false} CommitDecides(env: Env, t: Txn, w: World)
    requires Quiet(env) && (env.strict ==> Unlocked(t))
    ensures var r := Commit(env, t, w); r.t == Decide(t, COMMITTED) && !r.raised
    decreases t, 1
  {
    if !t.Terminal() {
      CommitAllDecides(env, t.children, w);
      HooksSucceed(env, t.cfg.id, OnCommit, t.commitHooks, CommitAll(env, t.children, w).w);
    }
  }

  lemma {:induction false} CommitAllDecides(env: Env, ts: seq<Txn>, w: World)
    requires Quiet(env) && (env.strict ==> UnlockedAll(ts))
    ensures var r := CommitAll(env, ts, w); r.ts == DecideAll(ts, COMMITTED) && !r.raised
    decreases ts, 0
  {
    if ts != [] {
      CommitDecides(env, ts[0], w);
      CommitAllDecides(env, ts[1..], Commit(env, ts[0], w).w);
    }
  }

  /* ---------- Keys written ---------- */

  /** The keys a tree may write when it commits. */
  function Writes(t: Txn): set<Key>
    decreases t, 1
  {
    (if t.cfg.Keyed() then {t.cfg.key, t.PersistKey()} else {}) + WritesAll(t.children)
  }

  function WritesAll(ts: seq<Txn>): set<Key>
    decreases ts, 0
  {
    if ts == [] then {} else Writes(ts[0]) + WritesAll(ts[1..])
  }

  lemma {:induction false} WritesAllAppend(ts: seq<Txn>, us: seq<Txn>)
    ensures WritesAll(ts + us) == WritesAll(ts) + WritesAll(us)
  {
    if ts == [] {
      assert ts + us == us;
    } else {
      assert (ts + us)[1..] == ts[1..] + us;
      WritesAllAppend(ts[1..], us);
    }
  }

  lemma {:induction false} WritesDecided(t: Txn, v: TransactionState)
    ensures Writes(Decide(t, v)) == Writes(t)
    decreases t, 1
  {
    if !t.Terminal() { WritesAllDecided(t.children, v); }
  }

  lemma {:induction false} WritesAllDecided(ts: seq<Txn>, v: TransactionState)
    ensures WritesAll(DecideAll(ts, v)) == WritesAll(ts)
    decreases ts, 0
  {
    if ts != [] {
      WritesDecided(ts[0], v);
      WritesAllDecided(ts[1..], v);
      assert DecideAll(ts, v)[1..] == DecideAll(ts[1..], v);
    }
  }

  lemma {:induction false} HooksKeepStore(env: Env, id: nat, kind: HookKind, hooks: seq<Hook>, w: World)
    ensures RunHooks(env, id, kind, hooks, w).w.store == w.store
    ensures RunHooks(env, id, kind, hooks, w).w.held == w.held
  {
    if hooks != [] {
      var bad := env.fails(w.trace, HookRun(id, kind, hooks[0], true));
      HooksKeepStore(env, id, kind, hooks[1..], w.(trace := w.trace + [HookRun(id, kind, hooks[0], !bad)]));
    }
  }

  lemma {:induction false} RollbackKeepsStore(env: Env, t: Txn, w: World)
    ensures Rollback(env, t, w).w.store == w.store
    decreases t, 1
  {
    if !t.Terminal() {
      HooksKeepStore(env, t.cfg.id, OnRollback, Reversed(t.rollbackHooks), w);
      RollbackAllKeepsStore(env, t.children, RunHooks(env, t.cfg.id, OnRollback, Reversed(t.rollbackHooks), w).w);
    }
  }

  lemma {:induction false} RollbackAllKeepsStore(env: Env, ts: seq<Txn>, w: World)
    ensures RollbackAll(env, ts, w).w.store == w.store
    decreases ts, 0
  {
    if ts != [] {
      RollbackKeepsStore(env, ts[|ts| - 1], w);
      RollbackAllKeepsStore(env, ts[..|ts| - 1], Rollback(env, ts[|ts| - 1], w).w);
    }
  }

  ghost predicate Calm(env: Env) { !env.strict && Quiet(env) }

  /** A commit stores at most what the tree may write, and removes nothing. */
  lemma {:induction false} CommitStores(env: Env, t: Txn, w: World)
    requires Calm(env)
    ensures w.store.Keys <= Commit(env, t, w).w.store.Keys <= w.store.Keys + Writes(t)
    decreases t, 1
  {
    if !t.Terminal() {
      CommitAllStores(env, t.children, w);
      CommitAllDecides(env, t.children, w);
      var cs := CommitAll(env, t.children, w);
      HooksKeepStore(env, t.cfg.id, OnCommit, t.commitHooks, cs.w);
      HooksSucceed(env, t.cfg.id, OnCommit, t.commitHooks, cs.w);
    }
  }

  lemma {:induction false} CommitAllStores(env: Env, ts: seq<Txn>, w: World)
    requires Calm(env)
    ensures w.store.Keys <= CommitAll(env, ts, w).w.store.Keys <= w.store.Keys + WritesAll(ts)
    decreases ts, 0
  {
    if ts != [] {
      CommitStores(env, ts[0], w);
      CommitAllStores(env, ts[1..], Commit(env, ts[0], w).w);
    }
  }

  /* ---------- Programs ---------- */

  /** No direct calls of `commit` or `rollback`, and no body that swallows an exception. */
  predicate Straight(b: Block)
    decreases b, 1
  {
    StraightBody(b.body)
  }

  predicate StraightBody(body: seq<Stmt>)
    decreases body, 0
  {
    body == [] || (StraightStmt(body[0]) && StraightBody(body[1..]))
  }

  predicate StraightStmt(c: Stmt)
    decreases c, 2
  {
    match c
    case Nested(b) => Straight(b)
    case Stage(_, _, _) => true
    case Raise => true
    case _ => false
  }

  /** The keys the block and the blocks in it may write. */
  function BlockWrites(b: Block): set<Key>
    decreases b, 1
  {
    (if b.cfg.Keyed() then {b.cfg.key} else {}) + BodyWrites(b.body)
  }

  function BodyWrites(body: seq<Stmt>): set<Key>
    decreases body, 0
  {
    if body == [] then {} else StmtWrites(body[0]) + BodyWrites(body[1..])
  }

  function StmtWrites(c: Stmt): set<Key>
    decreases c, 2
  {
    match c
    case Nested(b) => BlockWrites(b)
    case Stage(v, _, _) => if v.Record? then {v.key} else {}
    case _ => {}
  }

  /** The keys that may be stored by the time the statement is over. */
  function StmtStores(c: Stmt): set<Key> {
    if c.Nested? then BlockWrites(c.block) else {}
  }

  function BodyStores(body: seq<Stmt>): set<Key> {
    if body == [] then {} else StmtStores(body[0]) + BodyStores(body[1..])
  }

  lemma {:induction false} StoresAreWrites(body: seq<Stmt>)
    ensures BodyStores(body) <= BodyWrites(body)
  {
    if body != [] { StoresAreWrites(body[1..]); }
  }

  /** Whether a `begin` finds a record is settled beforehand: the key of a block that looks for one is in
      `init`, the keys stored initially, or is outside `avoid`, all that may be stored when it starts. */
  predicate Foreseen(b: Block, init: set<Key>, avoid: set<Key>)
    decreases b, 1
  {
    (b.cfg.Keyed() && !b.cfg.overwrite ==> b.cfg.key in init || b.cfg.key !in avoid) && ForeseenBody(b.body, init, avoid)
  }

  predicate ForeseenBody(body: seq<Stmt>, init: set<Key>, avoid: set<Key>)
    decreases body, 0
  {
    body == [] || (ForeseenStmt(body[0], init, avoid) && ForeseenBody(body[1..], init, avoid + StmtStores(body[0])))
  }

  predicate ForeseenStmt(c: Stmt, init: set<Key>, avoid: set<Key>)
    decreases c, 2
  {
    c.Nested? ==> Foreseen(c.block, init, avoid)
  }

  /** No `begin` finds a record. */
  predicate Unstored(b: Block, stored: set<Key>) { Foreseen(b, {}, stored) }

  predicate Raises(b: Block)
    decreases b, 1
  {
    BodyRaises(b.body)
  }

  predicate BodyRaises(body: seq<Stmt>)
    decreases body, 0
  {
    body != [] && (StmtRaises(body[0]) || BodyRaises(body[1..]))
  }

  predicate StmtRaises(c: Stmt)
    decreases c, 2
  {
    c.Raise? || (c.Nested? && Raises(c.block))
  }

  /* ---------- What is expected ---------- */

  /** What a transaction has in store: its staged object, its hooks, and what its commit would write. */
  datatype Plan = Plan(staged: Staged, onCommit: seq<Hook>, onRollback: seq<Hook>, write: Option<(Key, Value)>)

  datatype Outcome = Outcome(id: nat, state: TransactionState, found: bool, lock: Option<Key>, plan: Plan, children: seq<Outcome>)
  {
    predicate Terminal() { state == ROLLED_BACK || state == COMMITTED }
  }

  function View(t: Txn): Outcome
    decreases t, 1
  {
    Outcome(t.cfg.id, t.state, t.found, if t.Locking() then Some(t.cfg.key) else None, PlanOf(t), Views(t.children))
  }

  function PlanOf(t: Txn): Plan {
    Plan(t.staged, t.commitHooks, t.rollbackHooks,
         if t.cfg.Keyed() && t.cfg.writeOnCommit then Some((t.PersistKey(), t.staged.value)) else None)
  }

  function Views(ts: seq<Txn>): seq<Outcome>
    decreases ts, 0
  {
    if ts == [] then [] else [View(ts[0])] + Views(ts[1..])
  }

  function Decided(o: Outcome, v: TransactionState): Outcome
    decreases o, 1
  {
    if o.Terminal() then o else o.(state := v, children := DecidedAll(o.children, v))
  }

  function DecidedAll(os: seq<Outcome>, v: TransactionState): seq<Outcome>
    decreases os, 0
  {
    if os == [] then [] else [Decided(os[0], v)] + DecidedAll(os[1..], v)
  }

  lemma {:induction false} ViewsAppend(ts: seq<Txn>, us: seq<Txn>)
    ensures Views(ts + us) == Views(ts) + Views(us)
  {
    if ts == [] {
      assert ts + us == us;
    } else {
      assert (ts + us)[1..] == ts[1..] + us;
      ViewsAppend(ts[1..], us);
    }
  }

  lemma {:induction false} DecidedAllAppend(os: seq<Outcome>, us: seq<Outcome>, v: TransactionState)
    ensures DecidedAll(os + us, v) == DecidedAll(os, v) + DecidedAll(us, v)
  {
    if os == [] {
      assert os + us == us;
    } else {
      assert (os + us)[1..] == os[1..] + us;
      DecidedAllAppend(os[1..], us, v);
    }
  }

  lemma {:induction false} ViewDecided(t: Txn, v: TransactionState)
    ensures View(Decide(t, v)) == Decided(View(t), v)
    decreases t, 1
  {
    if !t.Terminal() { ViewsDecided(t.children, v); }
  }

  lemma {:induction false} ViewsDecided(ts: seq<Txn>, v: TransactionState)
    ensures Views(DecideAll(ts, v)) == DecidedAll(Views(ts), v)
    decreases ts, 0
  {
    if ts != [] {
      ViewDecided(ts[0], v);
      ViewsDecided(ts[1..], v);
      assert DecideAll(ts, v)[1..] == DecideAll(ts[1..], v);
      assert Views(ts)[1..] == Views(ts[1..]);
    }
  }

  predicate Finds(c: Config, init: set<Key>) { c.Keyed() && !c.overwrite && c.key in init }

  /** The last object that the statements of a body stage, and the hooks that they register, in order; what
      follows a statement that raises is not executed. */
  function LastStaged(body: seq<Stmt>): Option<Staged> {
    if body == [] then None
    else
      var later := if StmtRaises(body[0]) then None else LastStaged(body[1..]);
      if later.Some? then later else if body[0].Stage? then Some(body[0].value) else None
  }

  function CommitHooks(body: seq<Stmt>): seq<Hook> {
    if body == [] then []
    else (if body[0].Stage? then body[0].onCommit else []) + if StmtRaises(body[0]) then [] else CommitHooks(body[1..])
  }

  function RollbackHooks(body: seq<Stmt>): seq<Hook> {
    if body == [] then []
    else (if body[0].Stage? then body[0].onRollback else []) + if StmtRaises(body[0]) then [] else RollbackHooks(body[1..])
  }

  /** What a block has in store at its end: a block that found a record stages nothing, and a record is
      written under its own key. */
  function PlanFor(b: Block, init: set<Key>): Plan {
    var ignores := Finds(b.cfg, init);
    var staged := if ignores || LastStaged(b.body).None? then Plain(Nothing) else LastStaged(b.body).value;
    var key := match staged case Record(k, _) => k case Plain(_) => b.cfg.key;
    Plan(staged, if ignores then [] else CommitHooks(b.body), if ignores then [] else RollbackHooks(b.body),
         if b.cfg.hasStore && b.cfg.key != "" && b.cfg.writeOnCommit then Some((key, staged.value)) else None)
  }

  /** The state that a block reaches by itself, or `fate`, the decision that reaches it from above, or none. */
  function OwnState(b: Block, a: Around, init: set<Key>, fate: Option<TransactionState>): TransactionState {
    if Finds(b.cfg, init) then COMMITTED
    else if Raises(b) then ROLLED_BACK
    else if Inside(b.cfg, a).mode == EAGER then COMMITTED
    else if fate.Some? then fate.value
    else if LastStaged(b.body).Some? then STAGED else ACTIVE
  }

  /** The decision that reaches the blocks in `b`: a block that found a record hands none down. */
  function FateInside(b: Block, a: Around, init: set<Key>, fate: Option<TransactionState>): Option<TransactionState> {
    if Finds(b.cfg, init) then None
    else if Raises(b) then Some(ROLLED_BACK)
    else if Inside(b.cfg, a).mode == EAGER then Some(COMMITTED)
    else fate
  }

  /** The outcome read off the program: children are the nested blocks that started, in the order they exited. */
  function Expected(b: Block, a: Around, init: set<Key>, fate: Option<TransactionState>): Outcome
    decreases b, 1
  {
    Outcome(b.cfg.id, OwnState(b, a, init, fate), Finds(b.cfg, init), if Locks(b.cfg, a) then Some(b.cfg.key) else None,
            PlanFor(b, init),
            ExpectedBody(b.body, Inside(b.cfg, a), init, FateInside(b, a, init, fate)))
  }

  function ExpectedBody(body: seq<Stmt>, a: Around, init: set<Key>, fate: Option<TransactionState>): seq<Outcome>
    decreases body, 0
  {
    if body == [] then []
    else ExpectedStmt(body[0], a, init, fate) + if StmtRaises(body[0]) then [] else ExpectedBody(body[1..], a, init, fate)
  }

  function ExpectedStmt(c: Stmt, a: Around, init: set<Key>, fate: Option<TransactionState>): seq<Outcome>
    decreases c, 2
  {
    if c.Nested? then [Expected(c.block, a, init, fate)] else []
  }

  /** Deciding what was left undecided gives what a decision from above gives. */
  lemma {:induction false} ExpectedDecided(b: Block, a: Around, init: set<Key>, v: TransactionState)
    ensures Decided(Expected(b, a, init, None), v) == Expected(b, a, init, Some(v))
    decreases b, 1
  {
    if FateInside(b, a, init, None) == None { ExpectedBodyDecided(b.body, Inside(b.cfg, a), init, v); }
  }

  lemma {:induction false} ExpectedBodyDecided(body: seq<Stmt>, a: Around, init: set<Key>, v: TransactionState)
    ensures DecidedAll(ExpectedBody(body, a, init, None), v) == ExpectedBody(body, a, init, Some(v))
    decreases body, 0
  {
    if body != [] {
      ExpectedStmtDecided(body[0], a, init, v);
      var rest := if StmtRaises(body[0]) then [] else ExpectedBody(body[1..], a, init, None);
      if !StmtRaises(body[0]) { ExpectedBodyDecided(body[1..], a, init, v); }
      DecidedAllAppend(ExpectedStmt(body[0], a, init, None), rest, v);
    }
  }

  lemma {:induction false} ExpectedStmtDecided(c: Stmt, a: Around, init: set<Key>, v: TransactionState)
    ensures DecidedAll(ExpectedStmt(c, a, init, None), v) == ExpectedStmt(c, a, init, Some(v))
    decreases c, 2
  {
    if c.Nested? { ExpectedDecided(c.block, a, init, v); }
  }

  /* ---------- Running ---------- */

  /** An open transaction that can still go either way, or found a record. */
  predicate Ready(t: Txn) { t.state != ROLLED_BACK && (t.found <==> t.state == COMMITTED) }

  /** The statements `text` have staged what they say, or nothing if a record was found. */
  predicate Planned(t: Txn, t': Txn, text: seq<Stmt>) {
    if t.found then t'.staged == t.staged && t'.commitHooks == t.commitHooks && t'.rollbackHooks == t.rollbackHooks
    else t'.staged == (if LastStaged(text).Some? then LastStaged(text).value else t.staged)
         && t'.commitHooks == t.commitHooks + CommitHooks(text) && t'.rollbackHooks == t.rollbackHooks + RollbackHooks(text)
  }

  /** The open transaction `t` after the part `text` of its body: `added` are its new children. */
  ghost predicate Ran(t: Txn, t': Txn, raises: bool, text: seq<Stmt>, added: seq<Outcome>) {
    && t'.cfg == t.cfg && t'.mode == t.mode && t'.isolation == t.isolation && t'.found == t.found
    && Planned(t, t', text)
    && var all := Views(t.children) + added;
       if t'.state == ROLLED_BACK then raises && !t.found && Views(t'.children) == DecidedAll(all, ROLLED_BACK)
       else Views(t'.children) == all && Ready(t')
            && (!raises ==> t'.state == if LastStaged(text).Some? && !t.found then STAGED else t.state)
  }

  lemma RanTwice(t: Txn, t1: Txn, t2: Txn, raises: bool, text: seq<Stmt>, a1: seq<Outcome>, a2: seq<Outcome>)
    requires text != [] && !StmtRaises(text[0])
    requires Ran(t, t1, false, [text[0]], a1) && Ran(t1, t2, raises, text[1..], a2)
    ensures Ran(t, t2, raises, text, a1 + a2)
  {
    Regroup(Views(t.children), a1, a2);
    PlannedTwice(t, t1, t2, text);
  }

  lemma PlannedTwice(t: Txn, t1: Txn, t2: Txn, text: seq<Stmt>)
    requires text != [] && !StmtRaises(text[0]) && t1.found == t.found
    requires Planned(t, t1, [text[0]]) && Planned(t1, t2, text[1..])
    ensures Planned(t, t2, text)
    ensures LastStaged(text).Some? <==> LastStaged([text[0]]).Some? || LastStaged(text[1..]).Some?
  {
    FirstOnly(text[0]);
    Regroup(t.commitHooks, CommitHooks([text[0]]), CommitHooks(text[1..]));
    Regroup(t.rollbackHooks, RollbackHooks([text[0]]), RollbackHooks(text[1..]));
  }

  lemma FirstOnly(c: Stmt)
    ensures LastStaged([c]) == (if c.Stage? then Some(c.value) else None)
    ensures CommitHooks([c]) == (if c.Stage? then c.onCommit else []) && RollbackHooks([c]) == (if c.Stage? then c.onRollback else [])
  {
    assert [c][1..] == [] && LastStaged([]) == None;
    if c.Stage? { assert c.onCommit + [] == c.onCommit && c.onRollback + [] == c.onRollback; }
  }

  /** A statement that raises ends the text. */
  lemma LastStatement(text: seq<Stmt>)
    requires text != [] && StmtRaises(text[0])
    ensures LastStaged(text) == LastStaged([text[0]])
    ensures CommitHooks(text) == CommitHooks([text[0]]) && RollbackHooks(text) == RollbackHooks([text[0]])
  {}

  /** The world between and the open transactions below the innermost one. */
  ghost predicate Progress(s: State, s': State, writes: set<Key>, stores: set<Key>)
    requires s.stack != []
  {
    var k := |s.stack| - 1;
    && |s'.stack| == k + 1 && s'.stack[..k] == s.stack[..k] && Writes(s'.stack[k]) <= Writes(s.stack[k]) + writes
    && s.w.store.Keys <= s'.w.store.Keys <= s.w.store.Keys + stores
  }

  lemma ProgressTwice(s: State, s1: State, s2: State, w1: set<Key>, w2: set<Key>, st1: set<Key>, st2: set<Key>)
    requires s.stack != [] && Progress(s, s1, w1, st1) && Progress(s1, s2, w2, st2)
    ensures Progress(s, s2, w1 + w2, st1 + st2)
  {}

  /** What becomes of a parent that receives the child `c`. */
  function Received(p: Txn, c: Txn): Txn {
    if c.state == ROLLED_BACK then Decide(Adopting(p, c), ROLLED_BACK) else Adopting(p, c)
  }

  lemma {:induction false} NestedOutcome(env: Env, b: Block, s: State, init: set<Key>, avoid: set<Key>)
    requires Calm(env) && env.lockManager && Straight(b) && Foreseen(b, init, avoid) && init <= s.w.store.Keys <= avoid
    requires s.stack != []
    ensures var x := RunBlock(env, b, s);
            var n := |s.stack| - 1;
            && x.raised == Raises(b) && |x.s.stack| == n + 1 && x.s.stack[..n] == s.stack[..n]
            && s.w.store.Keys <= x.s.w.store.Keys <= s.w.store.Keys + BlockWrites(b)
            && x.txn.Some? && View(x.txn.value) == Expected(b, AroundOf(s.stack), init, None)
            && Writes(x.txn.value) <= BlockWrites(b)
            && x.s.stack[n] == Received(s.stack[n], x.txn.value)
    decreases b, 1
  {
    var k := |s.stack|;
    BodyOfBlock(env, b, s, init, avoid);
    var f := RunBody(env, b.body, k, Enter(env, b.cfg, s).s);
    assert f.s.stack[k - 1] == f.s.stack[..k][k - 1] == s.stack[k - 1];
    assert f.s.stack[..k - 1] == f.s.stack[..k][..k - 1] == s.stack[..k - 1];
    ExitOutcome(env, b, AroundOf(s.stack), init, k, f.s, f.raised);
  }

  lemma {:induction false} BodyOfBlock(env: Env, b: Block, s: State, init: set<Key>, avoid: set<Key>)
    requires Calm(env) && env.lockManager && Straight(b) && Foreseen(b, init, avoid) && init <= s.w.store.Keys <= avoid
    ensures var k := |s.stack|;
            var e := Enter(env, b.cfg, s);
            && !e.raised
            && var f := RunBody(env, b.body, k, e.s);
               && f.raised == Raises(b) && |f.s.stack| == k + 1 && f.s.stack[..k] == s.stack
               && s.w.store.Keys <= f.s.w.store.Keys <= s.w.store.Keys + BlockWrites(b)
               && BodyDone(f.s.stack[k], b, AroundOf(s.stack), init)
    decreases b, 0
  {
    var e := Enter(env, b.cfg, s);
    BodyOutcome(env, b.body, e.s, init, avoid);
    StoresAreWrites(b.body);
    var t0 := Opened(b.cfg, s);
    assert t0.children == [] && Views([]) == [];
    var added := ExpectedBody(b.body, Inside(b.cfg, AroundOf(s.stack)), init, None);
    assert [] + added == added;
    PlannedFromNothing(t0, RunBody(env, b.body, |s.stack|, e.s).s.stack[|s.stack|], b, init);
    assert Writes(t0) <= (if b.cfg.Keyed() then {b.cfg.key} else {});
  }

  lemma PlannedFromNothing(t0: Txn, t: Txn, b: Block, init: set<Key>)
    requires t0.staged == Plain(Nothing) && t0.commitHooks == t0.rollbackHooks == [] && t0.found == Finds(b.cfg, init)
    requires Planned(t0, t, b.body) && t.cfg == b.cfg
    ensures PlanOf(t) == PlanFor(b, init)
  {
    assert [] + CommitHooks(b.body) == CommitHooks(b.body) && [] + RollbackHooks(b.body) == RollbackHooks(b.body);
  }

  /** The open transaction after the body of `b`. */
  ghost predicate BodyDone(t: Txn, b: Block, a: Around, init: set<Key>) {
    var inside := Inside(b.cfg, a);
    var own := ExpectedBody(b.body, inside, init, None);
    && t.cfg == b.cfg && t.mode == inside.mode && t.isolation == inside.isolation && t.found == Finds(b.cfg, init)
    && Writes(t) <= BlockWrites(b) && PlanOf(t) == PlanFor(b, init)
    && if t.state == ROLLED_BACK then Raises(b) && !t.found && Views(t.children) == DecidedAll(own, ROLLED_BACK)
       else Views(t.children) == own && Ready(t)
            && (!Raises(b) && !t.found ==> t.state == if LastStaged(b.body).Some? then STAGED else ACTIVE)
  }

  lemma ExitOutcome(env: Env, b: Block, a: Around, init: set<Key>, k: nat, s: State, exc: bool)
    requires Calm(env) && |s.stack| == k + 1 && k > 0 && exc == Raises(b) && BodyDone(s.stack[k], b, a, init)
    ensures var x := Exit(env, k, s, exc);
            && x.txn.Some? && View(x.txn.value) == Expected(b, a, init, None) && Writes(x.txn.value) <= BlockWrites(b)
            && x.raised == exc && x.s.stack == s.stack[..k - 1] + [Received(s.stack[k - 1], x.txn.value)]
            && s.w.store.Keys <= x.s.w.store.Keys <= s.w.store.Keys + BlockWrites(b)
  {
    var t := s.stack[k];
    var r := if exc then Rollback(env, t, s.w) else Settle(env, k, t, s.w);
    SettledOutcome(env, b, a, init, k, t, s.w, exc);
    ResetOutcome(env, k, Replace(s, k, r));
    assert Replace(s, k, r).stack[..k - 1] == s.stack[..k - 1];
  }

  lemma SettledOutcome(env: Env, b: Block, a: Around, init: set<Key>, k: nat, t: Txn, w: World, exc: bool)
    requires Calm(env) && exc == Raises(b) && BodyDone(t, b, a, init) && (k == 0 ==> a == OUTERMOST)
    ensures var r := if exc then Rollback(env, t, w) else Settle(env, k, t, w);
            && !r.raised && Writes(r.t) <= BlockWrites(b) && w.store.Keys <= r.w.store.Keys <= w.store.Keys + BlockWrites(b)
            && View(r.t) == Expected(b, a, init, if k > 0 then None else Some(RootVerdict(b)))
  {
    RollbackDecides(env, t, w);
    RollbackKeepsStore(env, t, w);
    CommitDecides(env, t, w);
    CommitStores(env, t, w);
    BothDecided(b, a, init, t, ROLLED_BACK);
    BothDecided(b, a, init, t, COMMITTED);
  }

  lemma BothDecided(b: Block, a: Around, init: set<Key>, t: Txn, v: TransactionState)
    requires BodyDone(t, b, a, init) && (v == ROLLED_BACK || v == COMMITTED)
    ensures Writes(Decide(t, v)) == Writes(t) && View(Decide(t, v)) == Decided(View(t), v)
    ensures !Raises(b) && Inside(b.cfg, a).mode != EAGER ==>
            View(t) == Expected(b, a, init, None) && View(Decide(t, v)) == Expected(b, a, init, Some(v))
    ensures Raises(b) && v == ROLLED_BACK ==> forall f :: View(Decide(t, v)) == Expected(b, a, init, f)
    ensures !Raises(b) && Inside(b.cfg, a).mode == EAGER && v == COMMITTED ==>
            forall f :: View(Decide(t, v)) == Expected(b, a, init, f)
  {
    WritesDecided(t, v);
    ViewDecided(t, v);
    ExpectedDecided(b, a, init, v);
    ExpectedBodyDecided(b.body, Inside(b.cfg, a), init, v);
  }

  /** What the outermost block decides for itself when it is not EAGER and ends normally. */
  function RootVerdict(b: Block): TransactionState { if b.cfg.mode == Some(OFF) then ROLLED_BACK else COMMITTED }

  lemma ResetOutcome(env: Env, k: nat, s: State)
    requires Calm(env) && 0 < k < |s.stack|
    ensures var x := Reset(env, k, s);
            && x.txn == Some(Resetting(s, k)) && !x.raised && x.s.w.store == s.w.store
            && View(x.txn.value) == View(s.stack[k]) && Writes(x.txn.value) == Writes(s.stack[k])
            && x.s.stack == s.stack[..k - 1] + [Received(s.stack[k - 1], x.txn.value)]
  {
    var p := Adopting(s.stack[k - 1], Resetting(s, k));
    RollbackDecides(env, p, s.w);
    RollbackKeepsStore(env, p, s.w);
  }

  lemma {:induction false} StmtOutcome(env: Env, c: Stmt, s: State, init: set<Key>, avoid: set<Key>)
    requires Calm(env) && env.lockManager && StraightStmt(c) && ForeseenStmt(c, init, avoid)
    requires init <= s.w.store.Keys <= avoid && s.stack != [] && Ready(s.stack[|s.stack| - 1])
    ensures var k := |s.stack| - 1;
            var e := RunStmt(env, c, k, s);
            && e.raised == StmtRaises(c) && Progress(s, e.s, StmtWrites(c), StmtStores(c))
            && Ran(s.stack[k], e.s.stack[k], e.raised, [c], ExpectedStmt(c, AroundOf(s.stack), init, None))
    decreases c, 2
  {
    if c.Nested? {
      NestedOutcome(env, c.block, s, init, avoid);
      var x := RunBlock(env, c.block, s);
      ReceivedRan(s.stack[|s.stack| - 1], x.txn.value, Expected(c.block, AroundOf(s.stack), init, None), c, x.raised);
    } else {
      OwnStmtRan(env, c, s);
    }
  }

  lemma OwnStmtRan(env: Env, c: Stmt, s: State)
    requires StraightStmt(c) && !c.Nested? && s.stack != [] && Ready(s.stack[|s.stack| - 1])
    ensures var k := |s.stack| - 1;
            var e := RunStmt(env, c, k, s);
            Ran(s.stack[k], e.s.stack[k], e.raised, [c], []) && e.raised == c.Raise?
  {
    var t := s.stack[|s.stack| - 1];
    assert Views(t.children) + [] == Views(t.children);
    FirstOnly(c);
    NothingAdded(t);
  }

  lemma NothingAdded(t: Txn)
    ensures t.commitHooks + [] == t.commitHooks && t.rollbackHooks + [] == t.rollbackHooks
  {}

  lemma ReceivedRan(p: Txn, c: Txn, o: Outcome, stmt: Stmt, raises: bool)
    requires Ready(p) && View(c) == o && (o.state == ROLLED_BACK ==> raises) && stmt.Nested?
    ensures Ran(p, Received(p, c), raises, [stmt], [o]) && Writes(Received(p, c)) <= Writes(p) + Writes(c)
  {
    var q := Adopting(p, c);
    WritesAllAppend(p.children, [c]);
    assert [c][1..] == [] && WritesAll([c]) == Writes(c) && Views([c]) == [o];
    WritesDecided(q, ROLLED_BACK);
    ViewsAppend(p.children, [c]);
    ViewDecided(q, ROLLED_BACK);
    FirstOnly(stmt);
    NothingAdded(p);
  }

  /** After a statement that does not raise the rest of the body finds what it needs. */
  lemma NextRun(env: Env, c: Stmt, s: State, init: set<Key>, avoid: set<Key>)
    requires Calm(env) && env.lockManager && StraightStmt(c) && ForeseenStmt(c, init, avoid) && !StmtRaises(c)
    requires init <= s.w.store.Keys <= avoid && s.stack != [] && Ready(s.stack[|s.stack| - 1])
    ensures var k, e := |s.stack| - 1, RunStmt(env, c, |s.stack| - 1, s);
            && !e.raised && |e.s.stack| == k + 1 && Ready(e.s.stack[k]) && AroundOf(e.s.stack) == AroundOf(s.stack)
            && init <= e.s.w.store.Keys <= avoid + StmtStores(c)
            && Ran(s.stack[k], e.s.stack[k], false, [c], ExpectedStmt(c, AroundOf(s.stack), init, None))
  {
    StmtOutcome(env, c, s, init, avoid);
  }

  /** A statement that raises ends the body. */
  lemma RaisedHere(env: Env, body: seq<Stmt>, s: State, init: set<Key>, avoid: set<Key>)
    requires Calm(env) && env.lockManager && body != [] && StraightBody(body) && ForeseenBody(body, init, avoid) && StmtRaises(body[0])
    requires init <= s.w.store.Keys <= avoid && s.stack != [] && Ready(s.stack[|s.stack| - 1])
    ensures RunBody(env, body, |s.stack| - 1, s) == RunStmt(env, body[0], |s.stack| - 1, s)
  {
    StmtOutcome(env, body[0], s, init, avoid);
  }

  lemma {:induction false} BodyOutcome(env: Env, body: seq<Stmt>, s: State, init: set<Key>, avoid: set<Key>)
    requires Calm(env) && env.lockManager && StraightBody(body) && ForeseenBody(body, init, avoid)
    requires init <= s.w.store.Keys <= avoid && s.stack != [] && Ready(s.stack[|s.stack| - 1])
    ensures var k := |s.stack| - 1;
            var e := RunBody(env, body, k, s);
            && e.raised == BodyRaises(body) && Progress(s, e.s, BodyWrites(body), BodyStores(body))
            && Ran(s.stack[k], e.s.stack[k], e.raised, body, ExpectedBody(body, AroundOf(s.stack), init, None))
    decreases body, 0
  {
    var k := |s.stack| - 1;
    var t, a := s.stack[k], AroundOf(s.stack);
    if body == [] {
      assert Views(t.children) + [] == Views(t.children);
      NothingAdded(t);
    } else {
      var e := RunStmt(env, body[0], k, s);
      StmtOutcome(env, body[0], s, init, avoid);
      var added := ExpectedStmt(body[0], a, init, None);
      if e.raised {
        assert added + [] == added && RunBody(env, body, k, s) == e;
        LastStatement(body);
      } else {
        BodyOutcome(env, body[1..], e.s, init, avoid + StmtStores(body[0]));
        var f := RunBody(env, body[1..], k, e.s);
        ProgressTwice(s, e.s, f.s, StmtWrites(body[0]), BodyWrites(body[1..]), StmtStores(body[0]), BodyStores(body[1..]));
        RanTwice(t, e.s.stack[k], f.s.stack[k], f.raised, body, added, ExpectedBody(body[1..], a, init, None));
        assert RunBody(env, body, k, s) == f;
      }
    }
  }

  /** The outcome theorem. Started with no transaction open, a straight program ends with none open, raises
      exactly when its text says so, and leaves every transaction in the state, with the staged object, the
      hooks and the write that `Expected` reads off the text and the keys stored initially, under the block
      that encloses it and in exit order. The lock manager
      has to be tolerant only if the program takes locks. */
  lemma OutcomeTheorem(env: Env, b: Block, w: World, init: set<Key>)
    requires Quiet(env) && Safe(env, b) && Straight(b) && init <= w.store.Keys && Foreseen(b, init, w.store.Keys)
    ensures var x := RunBlock(env, b, State([], w));
            && x.s.stack == [] && x.raised == Raises(b) && x.txn.Some?
            && View(x.txn.value) == Expected(b, OUTERMOST, init, Some(RootVerdict(b)))
  {
    var r := RootSettles(env, b, w, init);
    assert View(Closed(r.t, false)) == View(r.t);
  }

  /** The outermost block: its body runs, it settles, and nothing is left to do. */
  lemma RootSettles(env: Env, b: Block, w: World, init: set<Key>) returns (r: Result)
    requires Quiet(env) && Safe(env, b) && Straight(b) && init <= w.store.Keys && Foreseen(b, init, w.store.Keys)
    ensures var e := Tolerant(env);
            var f := RunBody(e, b.body, 0, Enter(e, b.cfg, State([], w)).s);
            && |f.s.stack| == 1 && f.raised == Raises(b)
            && r == (if f.raised then Rollback(e, f.s.stack[0], f.s.w) else Settle(e, 0, f.s.stack[0], f.s.w))
    ensures RunBlock(env, b, State([], w)) == Exited(State([], r.w), Raises(b), Some(Closed(r.t, false)))
    ensures View(r.t) == Expected(b, OUTERMOST, init, Some(RootVerdict(b)))
  {
    var e := Tolerant(env);
    SafeRun(env, b, w);
    BodyOfBlock(e, b, State([], w), init, w.store.Keys);
    var f := RunBody(e, b.body, 0, Enter(e, b.cfg, State([], w)).s);
    SettledOutcome(e, b, OUTERMOST, init, 0, f.s.stack[0], f.s.w, f.raised);
    r := if f.raised then Rollback(e, f.s.stack[0], f.s.w) else Settle(e, 0, f.s.stack[0], f.s.w);
    RootExit(e, 0, f.s, f.raised, r);
  }

  lemma RootExit(env: Env, k: nat, s: State, exc: bool, r: Result)
    requires k == 0 && |s.stack| == 1 && !r.raised
    requires r == if exc then Rollback(env, s.stack[0], s.w) else Settle(env, 0, s.stack[0], s.w)
    ensures Exit(env, 0, s, exc) == Exited(State([], r.w), exc, Some(Closed(r.t, false)))
  {}
}
