/** A value-level account of nested transactions: what `commit`, `rollback`, `stage`, block entry and
    block exit do to a tree of transactions and to the world outside it (store, locks, hook trace).
    The mutable classes of module Transactions are proved to behave exactly like these functions;
    the modules about outcomes, locks, contagion and single writes prove theorems about them. */
module TransactionModel {
  import opened Wrappers

  type Key = string   // the empty string stands for "no key": the source only tests truthiness
  type Hook = string

  datatype CommitMode = EAGER | LAZY | OFF
  datatype IsolationLevel = READ_COMMITTED | SERIALIZABLE
  datatype TransactionState = PENDING | ACTIVE | STAGED | COMMITTED | ROLLED_BACK

  /** What the store keeps: `Nothing` is the value of a transaction that never staged one. */
  datatype Value = Nothing | Data(payload: string)

  /** A staged object: a plain value is written under the transaction's key, a result record
      under the key recorded in its own metadata. */
  datatype Staged = Plain(value: Value) | Record(key: Key, value: Value)

  datatype HookKind = OnCommit | OnRollback

  /** One observable action; `ok` says whether it succeeded. */
  datatype Event =
    | HookRun(txn: nat, kind: HookKind, hook: Hook, ok: bool)
    | Write(txn: nat, key: Key, value: Value, ok: bool)

  /** The fixed surroundings of a run. `fails` decides, from everything that happened so far, whether
      the next hook or write raises. `strict` says whether the lock manager raises when asked to
      release a lock its caller does not hold. */
  datatype Env = Env(strict: bool, lockManager: bool, fails: (seq<Event>, Event) -> bool)

  datatype World = World(store: map<Key, Value>, held: set<Key>, trace: seq<Event>)

  /** The arguments of a `Transaction`; `id` names it in the trace. */
  datatype Config = Config(id: nat, key: Key, hasStore: bool, mode: Option<CommitMode>,
                           isolation: Option<IsolationLevel>, overwrite: bool, writeOnCommit: bool)
  {
    predicate Keyed() { hasStore && key != "" }
  }

  /** What a transaction was like at its own reset: its state, whether it was `revived`, and whether the
      parent that received it was committed already and is thereby shielded from it. */
  datatype Closing = Closing(state: TransactionState, revived: bool, shielded: bool)

  /** A transaction with the finished children under it. The last three fields are history that no run
      depends on: `found`, that `begin` found a stored record; `revived`, that it was staged after a child
      had been reset rolled back, and has not been rolled back since; and its `closing`. */
  datatype Txn = Txn(cfg: Config, mode: CommitMode, isolation: IsolationLevel, state: TransactionState,
                     staged: Staged, commitHooks: seq<Hook>, rollbackHooks: seq<Hook>,
                     children: seq<Txn>, found: bool, revived: bool, closing: Option<Closing>)
  {
    predicate WasRolledBack() { closing.Some? && closing.value.state == ROLLED_BACK }
    predicate Terminal() { state == ROLLED_BACK || state == COMMITTED }
    predicate Locking() { cfg.Keyed() && isolation == SERIALIZABLE }
    function PersistKey(): Key { if staged.Record? then staged.key else cfg.key }
  }

  /** Some child was rolled back when it was reset. */
  predicate Poisoned(t: Txn) { AnyRolledBack(t.children) }

  predicate AnyRolledBack(ts: seq<Txn>) { ts != [] && (ts[0].WasRolledBack() || AnyRolledBack(ts[1..])) }

  /** The state ROLLED_BACK, and what it means for the history. */
  function Back(t: Txn): Txn { t.(state := ROLLED_BACK, revived := false) }

  function Closed(t: Txn, shielded: bool): Txn { t.(closing := Some(Closing(t.state, t.revived, shielded))) }

  /** The outcome of a step on the world that may raise. */
  datatype Try = Try(w: World, raised: bool)
  /** The outcome of `commit` or `rollback` of one transaction, and of a list of them. */
  datatype Result = Result(t: Txn, w: World, ret: bool, raised: bool)
  datatype Results = Results(ts: seq<Txn>, w: World, raised: bool)

  function Release(env: Env, t: Txn, w: World): Try {
    if !t.Locking() then Try(w, false)
    else Try(w.(held := w.held - {t.cfg.key}), env.strict && t.cfg.key !in w.held)
  }

  /** Runs hooks first to last, stopping at the first that raises. */
  function RunHooks(env: Env, id: nat, kind: HookKind, hooks: seq<Hook>, w: World): Try {
    if hooks == [] then Try(w, false)
    else
      var bad := env.fails(w.trace, HookRun(id, kind, hooks[0], true));
      var w1 := w.(trace := w.trace + [HookRun(id, kind, hooks[0], !bad)]);
      if bad then Try(w1, true) else RunHooks(env, id, kind, hooks[1..], w1)
  }

  function Reversed<T>(s: seq<T>): seq<T> {
    if s == [] then [] else Reversed(s[1..]) + [s[0]]
  }

  function Persist(env: Env, t: Txn, w: World): Try {
    if !(t.cfg.Keyed() && t.cfg.writeOnCommit) then Try(w, false)
    else
      var bad := env.fails(w.trace, Write(t.cfg.id, t.PersistKey(), t.staged.value, true));
      var w1 := w.(trace := w.trace + [Write(t.cfg.id, t.PersistKey(), t.staged.value, !bad)]);
      if bad then Try(w1, true) else Try(w1.(store := w.store[t.PersistKey() := t.staged.value]), false)
  }

  function Rollback(env: Env, t: Txn, w: World): Result
    decreases t, 1
  {
    if t.Terminal() then Result(t, w, false, false)
    else
      var h := RunHooks(env, t.cfg.id, OnRollback, Reversed(t.rollbackHooks), w);
      if h.raised then
        var rel := Release(env, t, h.w);
        Result(t, rel.w, false, rel.raised)
      else
        var cs := RollbackAll(env, t.children, h.w);
        var rel := Release(env, t, cs.w);
        Result(Back(t).(children := cs.ts), rel.w, !cs.raised, rel.raised)
  }

  /** Rolls back last to first, stopping when one raises. */
  function RollbackAll(env: Env, ts: seq<Txn>, w: World): (r: Results)
    ensures |r.ts| == |ts|
    decreases ts, 0
  {
    if ts == [] then Results([], w, false)
    else
      var n := |ts| - 1;
      var last := Rollback(env, ts[n], w);
      if last.raised then Results(ts[..n] + [last.t], last.w, true)
      else
        var rest := RollbackAll(env, ts[..n], last.w);
        Results(rest.ts + [last.t], rest.w, rest.raised)
  }

  function Commit(env: Env, t: Txn, w: World): Result
    decreases t, 2
  {
    if t.Terminal() then
      var rel := Release(env, t, w);
      Result(t, rel.w, false, rel.raised)
    else
      var a := Attempt(env, t, w);
      if a.raised then Rollback(env, a.t, a.w).(ret := false)   // both exception handlers do this
      else a
  }

  /** The `try` part of `commit`: children, hooks, write, state, release. */
  function Attempt(env: Env, t: Txn, w: World): Result
    decreases t, 1
  {
    var cs := CommitAll(env, t.children, w);
    var t1 := t.(children := cs.ts);
    if cs.raised then Result(t1, cs.w, false, true) else Own(env, t1, cs.w)
  }

  /** `commit` after its children: its own hooks, write, state and release. */
  function Own(env: Env, t: Txn, w: World): Result {
    var h := RunHooks(env, t.cfg.id, OnCommit, t.commitHooks, w);
    if h.raised then Result(t, h.w, false, true)
    else
      var p := Persist(env, t, h.w);
      if p.raised then Result(t, p.w, false, true)
      else
        var rel := Release(env, t, p.w);
        Result(t.(state := COMMITTED), rel.w, !rel.raised, rel.raised)
  }

  /** Commits first to last, stopping when one raises; what each commit returns is ignored. */
  function CommitAll(env: Env, ts: seq<Txn>, w: World): (r: Results)
    ensures |r.ts| == |ts|
    decreases ts, 0
  {
    if ts == [] then Results([], w, false)
    else
      var first := Commit(env, ts[0], w);
      if first.raised then Results([first.t] + ts[1..], first.w, true)
      else
        var rest := CommitAll(env, ts[1..], first.w);
        Results([first.t] + rest.ts, rest.w, rest.raised)
  }

  function StageIn(t: Txn, value: Staged, onRollback: seq<Hook>, onCommit: seq<Hook>): Txn {
    if t.state == COMMITTED then t
    else t.(staged := value, rollbackHooks := t.rollbackHooks + onRollback,
            commitHooks := t.commitHooks + onCommit, state := STAGED, revived := Poisoned(t))
  }

  /* ---------- Blocks ---------- */

  /** A `with Transaction(...)` statement and what its body does, in order. */
  datatype Block = Block(cfg: Config, body: seq<Stmt>)

  datatype Stmt =
    | Nested(block: Block)      // a nested block whose exception propagates
    | Guarded(block: Block)     // a nested block inside `try: ... except Exception: pass`
    | Stage(value: Staged, onRollback: seq<Hook>, onCommit: seq<Hook>)
    | CallCommit
    | CallRollback
    | Raise

  /** The open transactions, outermost first; the last one is the active transaction. */
  datatype State = State(stack: seq<Txn>, w: World)

  datatype Exec = Exec(s: State, raised: bool)
  /** A finished (or failed) block and the transaction it leaves behind. */
  datatype Exited = Exited(s: State, raised: bool, txn: Option<Txn>)

  function ModeOf(c: Config, stack: seq<Txn>): CommitMode {
    if c.mode.Some? then c.mode.value
    else if stack == [] then LAZY else stack[|stack| - 1].mode
  }

  function IsolationOf(c: Config, stack: seq<Txn>): IsolationLevel {
    if c.isolation.Some? then c.isolation.value
    else if stack == [] then READ_COMMITTED else stack[|stack| - 1].isolation
  }

  /** Block entry: a configuration error raises before anything is opened. */
  function Enter(env: Env, c: Config, s: State): Exec {
    var iso := IsolationOf(c, s.stack);
    if c.Keyed() && iso == SERIALIZABLE && !env.lockManager then Exec(s, true)
    else Exec(State(s.stack + [Opened(c, s)], Begun(c, s)), false)
  }

  function Opened(c: Config, s: State): Txn {
    var found := !c.overwrite && c.Keyed() && c.key in s.w.store;
    Txn(c, ModeOf(c, s.stack), IsolationOf(c, s.stack), if found then COMMITTED else ACTIVE,
        Plain(Nothing), [], [], [], found, false, None)
  }

  function Begun(c: Config, s: State): World {
    if c.Keyed() && IsolationOf(c, s.stack) == SERIALIZABLE then s.w.(held := s.w.held + {c.key}) else s.w
  }

  /** The transaction at `k` as it is reset. */
  function Resetting(s: State, k: nat): Txn
    requires k < |s.stack|
  {
    Closed(s.stack[k], k > 0 && s.stack[k - 1].state == COMMITTED)
  }

  /** A finished transaction `t` becomes the last child of `p`. */
  function Adopting(p: Txn, t: Txn): Txn { p.(children := p.children + [t]) }

  /** `reset`: hand the transaction at `k` to its parent, drop it (and everything above it) from the
      stack, and roll the parent back if it was rolled back. */
  function Reset(env: Env, k: nat, s: State): (r: Exited)
    requires k < |s.stack|
    ensures |r.s.stack| == k && r.txn.Some?
    ensures k > 0 ==> r.s.stack[..k - 1] == s.stack[..k - 1]
  {
    var t := Resetting(s, k);
    if k == 0 then Exited(State([], s.w), false, Some(t))
    else
      var p := Adopting(s.stack[k - 1], t);
      if t.state != ROLLED_BACK then Exited(State(s.stack[..k - 1] + [p], s.w), false, Some(t))
      else
        var r := Rollback(env, p, s.w);
        Exited(State(s.stack[..k - 1] + [r.t], r.w), r.raised, Some(t))
  }

  function Replace(s: State, k: nat, r: Result): State
    requires k < |s.stack|
  {
    State(s.stack[k := r.t], r.w)
  }

  /** What a normal exit does before `reset`: an EAGER transaction commits; a root then takes
      responsibility, rolling back when its mode is OFF and committing when it is LAZY. */
  function Settle(env: Env, k: nat, t: Txn, w: World): Result {
    var r := if t.mode == EAGER then Commit(env, t, w) else Result(t, w, true, false);
    if r.raised || k > 0 || t.mode == EAGER then r
    else if t.mode == OFF then Rollback(env, r.t, r.w)
    else Commit(env, r.t, r.w)
  }

  /** `__exit__` of the transaction at `k`; `exc` says the body raised. When a release raises before
      `reset`, the transaction stays on the stack. */
  function Exit(env: Env, k: nat, s: State, exc: bool): (r: Exited)
    requires k < |s.stack|
    ensures |r.s.stack| >= k
    ensures k > 0 ==> r.s.stack[..k - 1] == s.stack[..k - 1]
    ensures exc ==> r.raised
  {
    var r := if exc then Rollback(env, s.stack[k], s.w) else Settle(env, k, s.stack[k], s.w);
    var s1 := Replace(s, k, r);
    if r.raised then Exited(s1, true, None)
    else
      var x := Reset(env, k, s1);
      x.(raised := exc || x.raised)
  }

  function RunBlock(env: Env, b: Block, s: State): (r: Exited)
    ensures |r.s.stack| >= |s.stack|
    ensures s.stack != [] ==> r.s.stack[..|s.stack| - 1] == s.stack[..|s.stack| - 1]
    decreases b, 1
  {
    var k := |s.stack|;
    var e := Enter(env, b.cfg, s);
    if e.raised then Exited(e.s, true, None)
    else
      var f := RunBody(env, b.body, k, e.s);
      assert k > 0 ==> f.s.stack[..k - 1] == f.s.stack[..k][..k - 1] == e.s.stack[..k][..k - 1];
      Exit(env, k, f.s, f.raised)
  }

  /** Runs the body of the transaction at index `k`. */
  function RunBody(env: Env, body: seq<Stmt>, k: nat, s: State): (r: Exec)
    requires k < |s.stack|
    ensures k < |r.s.stack|
    ensures r.s.stack[..k] == s.stack[..k]
    decreases body, 0
  {
    if body == [] then Exec(s, false)
    else
      var e := RunStmt(env, body[0], k, s);
      if e.raised then e else RunBody(env, body[1..], k, e.s)
  }

  function RunStmt(env: Env, c: Stmt, k: nat, s: State): (r: Exec)
    requires k < |s.stack|
    ensures k < |r.s.stack|
    ensures r.s.stack[..k] == s.stack[..k]
    decreases c, 2
  {
    match c
    case Nested(b) =>
      var x := RunBlock(env, b, s);
      assert x.s.stack[..k] == x.s.stack[..|s.stack| - 1][..k];
      Exec(x.s, x.raised)
    case Guarded(b) =>
      var x := RunBlock(env, b, s);
      assert x.s.stack[..k] == x.s.stack[..|s.stack| - 1][..k];
      Exec(x.s, false)
    case Stage(v, onRollback, onCommit) =>
      Exec(s.(stack := s.stack[k := StageIn(s.stack[k], v, onRollback, onCommit)]), false)
    case CallCommit =>
      var r := Commit(env, s.stack[k], s.w);
      Exec(Replace(s, k, r), r.raised)
    case CallRollback =>
      var r := Rollback(env, s.stack[k], s.w);
      Exec(Replace(s, k, r), r.raised)
    case Raise => Exec(s, true)
  }
}
