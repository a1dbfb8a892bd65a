/** What a finished tree of transactions leaves in the store: exactly the staged values of its committed
    writers, and everything else as it was. Two facts combine to this: nothing but the writes on the trace
    ever touches the store, whatever the lock manager; and in a program of differently named blocks every
    write on the trace belongs to a transaction of the tree, which has written exactly its staged value
    if it is committed, and otherwise nothing. */
module TransactionStore {
  import opened Wrappers
  import opened TransactionModel
  import opened TransactionSingleWrite
  import opened TransactionTolerance

  /** The store after the successful writes of a trace, oldest first. */
  function Replay(store: map<Key, Value>, trace: seq<Event>): map<Key, Value> {
    if trace == [] then store
    else
      var e := trace[|trace| - 1];
      var before := Replay(store, trace[..|trace| - 1]);
      if e.Write? && e.ok then before[e.key := e.value] else before
  }

  /** Nothing but the writes on the trace has touched the store. */
  ghost predicate Explained(store: map<Key, Value>, w: World) {
    w.store == Replay(store, w.trace)
  }

  lemma ReplayAppend(store: map<Key, Value>, trace: seq<Event>, e: Event)
    ensures Replay(store, trace + [e]) ==
            if e.Write? && e.ok then Replay(store, trace)[e.key := e.value] else Replay(store, trace)
  {
    assert (trace + [e])[..|trace|] == trace;
  }

  lemma {:induction false} HooksExplained(env: Env, id: nat, kind: HookKind, hooks: seq<Hook>, w: World, store: map<Key, Value>)
    requires Explained(store, w)
    ensures Explained(store, RunHooks(env, id, kind, hooks, w).w)
  {
    if hooks != [] {
      var e := HookRun(id, kind, hooks[0], !env.fails(w.trace, HookRun(id, kind, hooks[0], true)));
      ReplayAppend(store, w.trace, e);
      HooksExplained(env, id, kind, hooks[1..], w.(trace := w.trace + [e]), store);
    }
  }

  lemma PersistExplained(env: Env, t: Txn, w: World, store: map<Key, Value>)
    requires Explained(store, w)
    ensures Explained(store, Persist(env, t, w).w)
  {
    ReplayAppend(store, w.trace, Write(t.cfg.id, t.PersistKey(), t.staged.value, true));
    ReplayAppend(store, w.trace, Write(t.cfg.id, t.PersistKey(), t.staged.value, false));
  }

  lemma {:induction false} RollbackExplained(env: Env, t: Txn, w: World, store: map<Key, Value>)
    requires Explained(store, w)
    ensures Explained(store, Rollback(env, t, w).w)
    decreases t, 1
  {
    if !t.Terminal() {
      var h := RunHooks(env, t.cfg.id, OnRollback, Reversed(t.rollbackHooks), w);
      HooksExplained(env, t.cfg.id, OnRollback, Reversed(t.rollbackHooks), w, store);
      RollbackAllExplained(env, t.children, h.w, store);
    }
  }

  lemma {:induction false} RollbackAllExplained(env: Env, ts: seq<Txn>, w: World, store: map<Key, Value>)
    requires Explained(store, w)
    ensures Explained(store, RollbackAll(env, ts, w).w)
    decreases ts, 0
  {
    if ts != [] {
      var n := |ts| - 1;
      RollbackExplained(env, ts[n], w, store);
      RollbackAllExplained(env, ts[..n], Rollback(env, ts[n], w).w, store);
    }
  }

  lemma {:induction false} CommitExplained(env: Env, t: Txn, w: World, store: map<Key, Value>)
    requires Explained(store, w)
    ensures Explained(store, Commit(env, t, w).w)
    decreases t, 2
  {
    if !t.Terminal() {
      AttemptExplained(env, t, w, store);
      var a := Attempt(env, t, w);
      RollbackExplained(env, a.t, a.w, store);
    }
  }

  lemma {:induction false} AttemptExplained(env: Env, t: Txn, w: World, store: map<Key, Value>)
    requires Explained(store, w)
    ensures Explained(store, Attempt(env, t, w).w)
    decreases t, 1
  {
    var cs := CommitAll(env, t.children, w);
    var t1 := t.(children := cs.ts);
    CommitAllExplained(env, t.children, w, store);
    var h := RunHooks(env, t.cfg.id, OnCommit, t.commitHooks, cs.w);
    HooksExplained(env, t.cfg.id, OnCommit, t.commitHooks, cs.w, store);
    PersistExplained(env, t1, h.w, store);
  }

  lemma {:induction false} CommitAllExplained(env: Env, ts: seq<Txn>, w: World, store: map<Key, Value>)
    requires Explained(store, w)
    ensures Explained(store, CommitAll(env, ts, w).w)
    decreases ts, 0
  {
    if ts != [] {
      CommitExplained(env, ts[0], w, store);
      CommitAllExplained(env, ts[1..], Commit(env, ts[0], w).w, store);
    }
  }

  /* ---------- Every write belongs to a transaction of the tree ---------- */

  ghost predicate Known(trace: seq<Event>, ids: set<nat>) {
    forall id :: id !in ids ==> Persisted(trace, id) == []
  }

  /** What holds between the steps of a program started on `store`. */
  ghost predicate Sound(s: State, store: map<Key, Value>) {
    Explained(store, s.w) && OnceAll(s.stack, s.w.trace) && Known(s.w.trace, IdsAll(s.stack))
  }

  /** The same, once the outermost block has left the tree `t` behind. */
  ghost predicate SoundTree(t: Txn, w: World, store: map<Key, Value>) {
    Explained(store, w) && Once(t, w.trace) && Known(w.trace, Ids(t))
  }

  /** What is left after the exit of a block, which may have been the outermost one. */
  ghost predicate SoundExit(x: Exited, outermost: bool, store: map<Key, Value>) {
    if outermost && x.txn.Some? then SoundTree(x.txn.value, x.s.w, store) else Sound(x.s, store)
  }

  lemma TopUpdated(s: State, r: Result, store: map<Key, Value>)
    requires s.stack != [] && Sound(s, store) && Explained(store, r.w)
    requires var t := s.stack[|s.stack| - 1];
             Once(r.t, r.w.trace) && Ids(r.t) == Ids(t) && OnlyBy(s.w.trace, r.w.trace, Ids(t))
    ensures Sound(Replace(s, |s.stack| - 1, r), store)
  {
    StackCut(s.stack, |s.stack| - 1, s.w.trace);
    StackUpdated(s.stack, |s.stack| - 1, r.t, s.w.trace, r.w.trace);
  }

  /** Moving transactions around without writing anything. */
  lemma SoundMoved(s: State, s': State, store: map<Key, Value>)
    requires Sound(s, store) && Explained(store, s'.w) && OnlyBy(s.w.trace, s'.w.trace, {})
    requires OnceAll(s'.stack, s'.w.trace) && IdsAll(s'.stack) == IdsAll(s.stack)
    ensures Sound(s', store)
  {}

  lemma ResetSound(env: Env, s: State, store: map<Key, Value>)
    requires s.stack != [] && Sound(s, store)
    ensures SoundExit(Reset(env, |s.stack| - 1, s), |s.stack| == 1, store)
  {
    var k := |s.stack| - 1;
    var x := Reset(env, k, s);
    ResetOnce(env, k, s);
    ResetExplained(env, k, s, store);
    TopIds(s.stack);
    if k > 0 { SoundMoved(s, x.s, store); }
  }

  lemma TopIds(stack: seq<Txn>)
    requires stack != []
    ensures var k := |stack| - 1; IdsAll(stack) == IdsAll(stack[..k]) + Ids(stack[k])
  {
    var k := |stack| - 1;
    assert stack == stack[..k] + [stack[k]];
    TopOnce(stack[..k], stack[k], []);
  }

  lemma ResetExplained(env: Env, k: nat, s: State, store: map<Key, Value>)
    requires k < |s.stack| && Explained(store, s.w)
    ensures Explained(store, Reset(env, k, s).s.w)
  {
    if k > 0 { RollbackExplained(env, Adopting(s.stack[k - 1], Resetting(s, k)), s.w, store); }
  }

  lemma SettleSound(env: Env, s: State, exc: bool, store: map<Key, Value>)
    requires s.stack != [] && Sound(s, store)
    ensures var k := |s.stack| - 1;
            var r := if exc then Rollback(env, s.stack[k], s.w) else Settle(env, k, s.stack[k], s.w);
            Sound(Replace(s, k, r), store)
  {
    var k := |s.stack| - 1;
    var t := s.stack[k];
    StackCut(s.stack, k, s.w.trace);
    SettleOnce(env, k, t, s.w, exc);
    RollbackExplained(env, t, s.w, store);
    CommitExplained(env, t, s.w, store);
    TopUpdated(s, if exc then Rollback(env, t, s.w) else Settle(env, k, t, s.w), store);
  }

  lemma ExitSound(env: Env, s: State, exc: bool, store: map<Key, Value>)
    requires !env.strict && s.stack != [] && Sound(s, store)
    ensures var x := Exit(env, |s.stack| - 1, s, exc); x.txn.Some? && SoundExit(x, |s.stack| == 1, store)
  {
    var k := |s.stack| - 1;
    var r := if exc then Rollback(env, s.stack[k], s.w) else Settle(env, k, s.stack[k], s.w);
    SettleSound(env, s, exc, store);
    ExitPops(env, k, s, exc);
    ResetSound(env, Replace(s, k, r), store);
  }

  lemma OpenedSound(c: Config, s: State, store: map<Key, Value>)
    requires Sound(s, store) && c.id !in IdsAll(s.stack)
    ensures var s1 := State(s.stack + [Opened(c, s)], Begun(c, s));
            Sound(s1, store) && IdsAll(s1.stack) == IdsAll(s.stack) + {c.id}
  {
    var t := Opened(c, s);
    TopOnce(s.stack, t, s.w.trace);
  }

  lemma {:induction false} BlockSound(env: Env, b: Block, s: State, store: map<Key, Value>)
    requires !env.strict && Sound(s, store) && Named(b) && BlockIds(b) !! IdsAll(s.stack)
    ensures SoundExit(RunBlock(env, b, s), s.stack == [], store)
    decreases b, 1
  {
    var k := |s.stack|;
    var e := Enter(env, b.cfg, s);
    if !e.raised {
      OpenedSound(b.cfg, s, store);
      BodySound(env, b.body, k, e.s, store);
      BodyKeepsStack(env, b.body, k, e.s);
      var f := RunBody(env, b.body, k, e.s);
      ExitSound(env, f.s, f.raised, store);
      assert (|f.s.stack| == 1) == (s.stack == []);
      assert RunBlock(env, b, s) == Exit(env, k, f.s, f.raised);
    }
  }

  lemma {:induction false} BodySound(env: Env, body: seq<Stmt>, k: nat, s: State, store: map<Key, Value>)
    requires !env.strict && |s.stack| == k + 1 && Sound(s, store)
    requires NamedBody(body) && BodyIds(body) !! IdsAll(s.stack)
    ensures Sound(RunBody(env, body, k, s).s, store)
    decreases body, 0
  {
    if body != [] {
      StmtSound(env, body[0], k, s, store);
      StmtOnce(env, body[0], k, s);
      StmtKeepsStack(env, body[0], k, s);
      var e := RunStmt(env, body[0], k, s);
      if !e.raised { BodySound(env, body[1..], k, e.s, store); }
    }
  }

  lemma {:induction false} StmtSound(env: Env, c: Stmt, k: nat, s: State, store: map<Key, Value>)
    requires !env.strict && |s.stack| == k + 1 && Sound(s, store)
    requires NamedStmt(c) && StmtIds(c) !! IdsAll(s.stack)
    ensures Sound(RunStmt(env, c, k, s).s, store)
    decreases c, 2
  {
    var t := s.stack[k];
    StackCut(s.stack, k, s.w.trace);
    match c {
      case Nested(b) => BlockSound(env, b, s, store);
      case Guarded(b) => BlockSound(env, b, s, store);
      case Stage(v, onRollback, onCommit) =>
        TopUpdated(s, Result(StageIn(t, v, onRollback, onCommit), s.w, true, false), store);
      case CallCommit =>
        CommitOnce(env, t, s.w);
        CommitExplained(env, t, s.w, store);
        TopUpdated(s, Commit(env, t, s.w), store);
      case CallRollback =>
        RollbackOnce(env, t, s.w);
        RollbackExplained(env, t, s.w, store);
        TopUpdated(s, Rollback(env, t, s.w), store);
      case Raise =>
    }
  }

  /* ---------- The store, read off the tree ---------- */

  /** What the committed writers of a tree have to write. */
  function Writes(t: Txn): set<(Key, Value)>
    decreases t, 1
  {
    (if Writer(t) then {(t.PersistKey(), t.staged.value)} else {}) + WritesAll(t.children)
  }

  function WritesAll(ts: seq<Txn>): set<(Key, Value)>
    decreases ts, 0
  {
    if ts == [] then {} else Writes(ts[0]) + WritesAll(ts[1..])
  }

  lemma {:induction false} WritesArePersisted(t: Txn, trace: seq<Event>, kv: (Key, Value))
    requires Once(t, trace) && kv in Writes(t)
    ensures exists id :: id in Ids(t) && Persisted(trace, id) == [kv]
    decreases t, 1
  {
    if !(Writer(t) && kv == (t.PersistKey(), t.staged.value)) { WritesAllArePersisted(t.children, trace, kv); }
  }

  lemma {:induction false} WritesAllArePersisted(ts: seq<Txn>, trace: seq<Event>, kv: (Key, Value))
    requires OnceAll(ts, trace) && kv in WritesAll(ts)
    ensures exists id :: id in IdsAll(ts) && Persisted(trace, id) == [kv]
    decreases ts, 0
  {
    if kv in Writes(ts[0]) { WritesArePersisted(ts[0], trace, kv); } else { WritesAllArePersisted(ts[1..], trace, kv); }
  }

  lemma {:induction false} PersistedAreWrites(t: Txn, trace: seq<Event>, id: nat, kv: (Key, Value))
    requires Once(t, trace) && id in Ids(t) && kv in Persisted(trace, id)
    ensures kv in Writes(t)
    decreases t, 1
  {
    if id != t.cfg.id { AllPersistedAreWrites(t.children, trace, id, kv); }
  }

  lemma {:induction false} AllPersistedAreWrites(ts: seq<Txn>, trace: seq<Event>, id: nat, kv: (Key, Value))
    requires OnceAll(ts, trace) && id in IdsAll(ts) && kv in Persisted(trace, id)
    ensures kv in WritesAll(ts)
    decreases ts, 0
  {
    if id in Ids(ts[0]) { PersistedAreWrites(ts[0], trace, id, kv); } else { AllPersistedAreWrites(ts[1..], trace, id, kv); }
  }

  ghost predicate WrittenTo(trace: seq<Event>, k: Key, v: Value) {
    exists id :: (k, v) in Persisted(trace, id)
  }

  lemma WrittenToAppend(trace: seq<Event>, e: Event, k: Key, v: Value)
    ensures WrittenTo(trace + [e], k, v) <==> WrittenTo(trace, k, v) || (e.Write? && e.ok && e.key == k && e.value == v)
  {
    forall id { PersistedAppend(trace, e, id); }
    if e.Write? && e.ok && e.key == k && e.value == v {
      assert (k, v) in WrittenBy(e, e.txn);
      assert (k, v) in Persisted(trace + [e], e.txn);
    }
    if id :| (k, v) in Persisted(trace, id) { assert (k, v) in Persisted(trace + [e], id); }
  }

  /** Both stores say the same about `k`. */
  predicate AgreeAt(before: map<Key, Value>, after: map<Key, Value>, k: Key) {
    (k in after <==> k in before) && (k in before ==> after[k] == before[k])
  }

  /** A replayed store holds under `k` the value of some write to `k`, or, if there was none, what it held before. */
  lemma {:induction false} ReplayAt(store: map<Key, Value>, trace: seq<Event>, k: Key)
    ensures var after := Replay(store, trace);
            || (k in after && WrittenTo(trace, k, after[k]))
            || ((forall v :: !WrittenTo(trace, k, v)) && AgreeAt(store, after, k))
  {
    if trace != [] {
      var n := |trace| - 1;
      assert trace == trace[..n] + [trace[n]];
      ReplayAt(store, trace[..n], k);
      forall v { WrittenToAppend(trace[..n], trace[n], k, v); }
    }
  }

  ghost predicate Settled(t: Txn, before: map<Key, Value>, after: map<Key, Value>) {
    forall k: Key ::
      || (k in after && (k, after[k]) in Writes(t))
      || ((forall v :: (k, v) !in Writes(t)) && AgreeAt(before, after, k))
  }

  lemma WritesAreWritten(t: Txn, trace: seq<Event>, k: Key, v: Value)
    requires Once(t, trace) && Known(trace, Ids(t))
    ensures (k, v) in Writes(t) <==> WrittenTo(trace, k, v)
  {
    if (k, v) in Writes(t) { WritesArePersisted(t, trace, (k, v)); }
    if id :| (k, v) in Persisted(trace, id) { PersistedAreWrites(t, trace, id, (k, v)); }
  }

  /** Atomicity. Run any program of differently named blocks on any store, with arbitrary stage, commit and
      rollback calls, swallowed exceptions and failing hooks and writes: the final store differs from the
      initial one exactly by the staged values of the committed writers of the finished tree. Where several
      of them share a key it holds the value of one of them; what was rolled back left nothing behind. */
  lemma Atomicity(env: Env, b: Block, store: map<Key, Value>, held: set<Key>)
    requires Harmless(env, b, State([], World(store, held, []))) && Named(b)
    ensures var x := RunBlock(env, b, State([], World(store, held, [])));
            && (x.txn.None? <==> Enter(env, b.cfg, State([], World(store, held, []))).raised)
            && if x.txn.Some? then Settled(x.txn.value, store, x.s.w.store) else x.s.w.store == store
  {
    var s := State([], World(store, held, []));
    var tolerant := if env.strict then Tolerant(env) else env;
    if env.strict { BlockIndependent(env, b, s); }
    ActiveRestored(env, b, s);
    BlockSound(tolerant, b, s, store);
    var x := RunBlock(env, b, s);
    if x.txn.Some? {
      forall k, v { WritesAreWritten(x.txn.value, x.s.w.trace, k, v); }
      forall k { ReplayAt(store, x.s.w.trace, k); }
    }
  }

  /* ---------- Under every lock manager ---------- */

  lemma ExitExplained(env: Env, k: nat, s: State, exc: bool, store: map<Key, Value>)
    requires k < |s.stack| && Explained(store, s.w)
    ensures Explained(store, Exit(env, k, s, exc).s.w)
  {
    var t := s.stack[k];
    RollbackExplained(env, t, s.w, store);
    CommitExplained(env, t, s.w, store);
    var c := Commit(env, t, s.w);
    RollbackExplained(env, c.t, c.w, store);
    CommitExplained(env, c.t, c.w, store);
    var r := if exc then Rollback(env, t, s.w) else Settle(env, k, t, s.w);
    ResetExplained(env, k, Replace(s, k, r), store);
  }

  lemma {:induction false} BlockExplained(env: Env, b: Block, s: State, store: map<Key, Value>)
    requires Explained(store, s.w)
    ensures Explained(store, RunBlock(env, b, s).s.w)
    decreases b, 1
  {
    var e := Enter(env, b.cfg, s);
    if !e.raised {
      BodyExplained(env, b.body, |s.stack|, e.s, store);
      var f := RunBody(env, b.body, |s.stack|, e.s);
      ExitExplained(env, |s.stack|, f.s, f.raised, store);
    }
  }

  lemma {:induction false} BodyExplained(env: Env, body: seq<Stmt>, k: nat, s: State, store: map<Key, Value>)
    requires k < |s.stack| && Explained(store, s.w)
    ensures Explained(store, RunBody(env, body, k, s).s.w)
    decreases body, 0
  {
    if body != [] {
      StmtExplained(env, body[0], k, s, store);
      var e := RunStmt(env, body[0], k, s);
      if !e.raised { BodyExplained(env, body[1..], k, e.s, store); }
    }
  }

  lemma {:induction false} StmtExplained(env: Env, c: Stmt, k: nat, s: State, store: map<Key, Value>)
    requires k < |s.stack| && Explained(store, s.w)
    ensures Explained(store, RunStmt(env, c, k, s).s.w)
    decreases c, 2
  {
    match c {
      case Nested(b) => BlockExplained(env, b, s, store);
      case Guarded(b) => BlockExplained(env, b, s, store);
      case CallCommit => CommitExplained(env, s.stack[k], s.w, store);
      case CallRollback => RollbackExplained(env, s.stack[k], s.w, store);
      case _ =>
    }
  }

  /** Whatever the lock manager, whatever fails and even if an exit loses its transaction: under each key the
      store holds a value that some transaction wrote successfully, or, if none wrote there, what it held. */
  lemma OnlyWritten(env: Env, b: Block, store: map<Key, Value>, held: set<Key>, k: Key)
    ensures var w := RunBlock(env, b, State([], World(store, held, []))).s.w;
            || (k in w.store && WrittenTo(w.trace, k, w.store[k]))
            || ((forall v :: !WrittenTo(w.trace, k, v)) && AgreeAt(store, w.store, k))
  {
    BlockExplained(env, b, State([], World(store, held, [])), store);
    ReplayAt(store, RunBlock(env, b, State([], World(store, held, []))).s.w.trace, k);
  }
}
