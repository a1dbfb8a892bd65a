/** Nested transactions as mutable objects: `Transaction` nodes updated in place and the context
    variable naming the active one. Every method is proved to do what the function of the same name
    in TransactionModel says, for every program, every store and every pattern of failures. */
module Transactions {
  import opened Wrappers
  import opened TransactionModel
  import M = TransactionModel

  /** What all transactions of one thread share: the context variable, the result store, the locks
      held by this thread, and the trace of hooks and writes. */
  class Context {
    const env: Env
    var store: map<Key, Value>
    var held: set<Key>
    var trace: seq<Event>
    var active: Transaction?

    ghost var open: seq<Transaction>   // entered and not yet reset, outermost first
    ghost var stack: seq<Txn>          // their values
    ghost var reprs: seq<set<object>>  // the objects of each of their trees
    ghost var Repr: set<object>

    constructor (env: Env, store: map<Key, Value>)
      ensures Valid() && fresh(Repr) && open == [] && this.env == env
      ensures Abs() == State([], World(store, {}, []))
    {
      this.env, this.store, held, trace, active := env, store, {}, [], null;
      open, stack, reprs, Repr := [], [], [], {};
    }

    ghost function W(): World reads this { World(store, held, trace) }

    ghost function Abs(): State reads this { State(stack, W()) }

    ghost predicate Valid()
      reads this`open, this`stack, this`reprs, this`Repr, this`active, Repr
    {
      && this !in Repr
      && |open| == |stack|
      && Apart()
      && (forall i :: 0 <= i < |open| ==> OpenAt(i))
      && active == (if open == [] then null else open[|open| - 1])
    }

    ghost predicate Apart()
      reads this`open, this`reprs
    {
      |reprs| == |open| && forall i, j :: 0 <= i < j < |reprs| ==> reprs[i] !! reprs[j]
    }

    ghost predicate OpenAt(i: int)
      reads this`open, this`stack, this`reprs, this`Repr, Repr
      requires 0 <= i < |open| == |stack| == |reprs|
    {
      && open[i] in reprs[i] && reprs[i] <= Repr && open[i].Repr == reprs[i] && open[i].Valid()
      && open[i].node == stack[i]
      && open[i].token == Some(if i == 0 then null else open[i - 1])
    }

    /** Brings `stack` up to date after a change below the open transaction at `k`. */
    ghost method Sync(k: nat)
      requires this !in Repr && |open| == |stack| && Apart() && k < |open|
      requires forall i :: 0 <= i < |open| && i != k ==> OpenAt(i)
      requires open[k] in reprs[k] && reprs[k] <= Repr && open[k].Repr == reprs[k] && open[k].Valid()
      requires open[k].token == Some(if k == 0 then null else open[k - 1])
      requires active == open[|open| - 1]
      modifies this`stack
      ensures Valid() && stack == old(stack)[k := open[k].node]
    {
      stack := stack[k := open[k].node];
      forall i | 0 <= i < |open| ensures OpenAt(i) { assert i != k ==> old(OpenAt(i)); }
    }

    ghost method Push(t: Transaction)
      requires this !in Repr && |open| == |stack| && Apart() && (forall i :: 0 <= i < |open| ==> OpenAt(i))
      requires t.Valid() && t.Repr !! Repr && this !in t.Repr && active == t
      requires t.token == Some(if open == [] then null else open[|open| - 1])
      modifies this`open, this`stack, this`reprs, this`Repr
      ensures Valid() && Repr == old(Repr) + t.Repr
      ensures open == old(open) + [t] && stack == old(stack) + [t.node]
    {
      forall i | 0 <= i < |open| ensures reprs[i] <= Repr { assert OpenAt(i); }
      open, stack, reprs, Repr := open + [t], stack + [t.node], reprs + [t.Repr], Repr + t.Repr;
      forall i | 0 <= i < |open| ensures OpenAt(i) { assert i < |open| - 1 ==> old(OpenAt(i)); }
    }

    /** Forgets the open transaction at `k` and all above it, after the one below took it as a child. */
    ghost method Pop(k: nat)
      requires this !in Repr && |open| == |stack| && Apart() && k < |open|
      requires forall i :: 0 <= i < k - 1 ==> OpenAt(i)
      requires k > 0 ==>
        && open[k - 1] in reprs[k - 1] && reprs[k - 1] + reprs[k] <= Repr
        && open[k - 1].Repr == reprs[k - 1] + reprs[k] && open[k - 1].Valid()
        && open[k - 1].token == Some(if k == 1 then null else open[k - 2])
      requires active == if k == 0 then null else open[k - 1]
      modifies this`open, this`stack, this`reprs
      ensures Valid() && open == old(open)[..k]
      ensures stack == if k == 0 then [] else old(stack)[..k - 1] + [open[k - 1].node]
    {
      if k == 0 {
        open, stack, reprs := [], [], [];
      } else {
        open, stack, reprs := open[..k], stack[..k - 1] + [open[k - 1].node], reprs[..k - 1] + [reprs[k - 1] + reprs[k]];
        forall i | 0 <= i < k ensures OpenAt(i) { assert i < k - 1 ==> old(OpenAt(i)); }
      }
    }

    /** `commit`, `rollback` and `stage` called on an open transaction leave the others alone. */
    method CommitOpen(t: Transaction, ghost k: nat) returns (raised: bool)
      requires Valid() && k < |open| && open[k] == t
      modifies Repr, this`held, this`trace, this`store, this`stack
      ensures Valid() && Repr == old(Repr) && open == old(open)
      ensures var r := M.Commit(env, old(stack)[k], old(W()));
              Abs() == Replace(old(Abs()), k, r) && raised == r.raised
    {
      assert OpenAt(k);
      var _, bad := t.Commit(this);
      forall i | 0 <= i < |open| && i != k ensures OpenAt(i) {
        assert old(OpenAt(i)) && reprs[i] !! reprs[k];
      }
      Sync(k);
      raised := bad;
    }

    method RollbackOpen(t: Transaction, ghost k: nat) returns (raised: bool)
      requires Valid() && k < |open| && open[k] == t
      modifies Repr, this`held, this`trace, this`stack
      ensures Valid() && Repr == old(Repr) && open == old(open)
      ensures var r := M.Rollback(env, old(stack)[k], old(W()));
              Abs() == Replace(old(Abs()), k, r) && raised == r.raised
    {
      assert OpenAt(k);
      var _, bad := t.Rollback(this);
      forall i | 0 <= i < |open| && i != k ensures OpenAt(i) {
        assert old(OpenAt(i)) && reprs[i] !! reprs[k];
      }
      Sync(k);
      raised := bad;
    }

    method StageOpen(t: Transaction, ghost k: nat, value: Staged, onRollback: seq<Hook>, onCommit: seq<Hook>)
      requires Valid() && k < |open| && open[k] == t
      modifies t, this`stack
      ensures Valid() && Repr == old(Repr) && open == old(open)
      ensures Abs() == old(Abs()).(stack := old(stack)[k := StageIn(old(stack)[k], value, onRollback, onCommit)])
    {
      assert OpenAt(k);
      t.Stage(value, onRollback, onCommit);
      forall i | 0 <= i < |open| && i != k ensures OpenAt(i) {
        assert old(OpenAt(i)) && reprs[i] !! reprs[k];
      }
      Sync(k);
    }

    method ReleaseLock(t: Transaction) returns (raised: bool)
      requires t.Mirrored()
      modifies this`held
      ensures M.Release(env, t.node, old(W())) == Try(W(), raised)
    {
      raised := false;
      if t.cfg.Keyed() && t.isolation == Some(SERIALIZABLE) {
        raised := env.strict && t.cfg.key !in held;
        held := held - {t.cfg.key};
      }
    }

    method RunHooks(id: nat, kind: HookKind, hooks: seq<Hook>) returns (raised: bool)
      modifies this`trace
      ensures M.RunHooks(env, id, kind, hooks, old(W())) == Try(W(), raised)
    {
      raised := false;
      var i := 0;
      while i < |hooks| && !raised
        invariant 0 <= i <= |hooks|
        invariant M.RunHooks(env, id, kind, hooks, old(W())) ==
                  if raised then Try(W(), true) else M.RunHooks(env, id, kind, hooks[i..], W())
      {
        raised := env.fails(trace, HookRun(id, kind, hooks[i], true));
        trace := trace + [HookRun(id, kind, hooks[i], !raised)];
        i := i + 1;
      }
    }

    method Persist(t: Transaction) returns (raised: bool)
      requires t.Mirrored()
      modifies this`trace, this`store
      ensures M.Persist(env, t.node, old(W())) == Try(W(), raised)
    {
      raised := false;
      if t.cfg.Keyed() && t.cfg.writeOnCommit {
        var key := if t.staged.Record? then t.staged.key else t.cfg.key;
        raised := env.fails(trace, Write(t.cfg.id, key, t.staged.value, true));
        trace := trace + [Write(t.cfg.id, key, t.staged.value, !raised)];
        if !raised { store := store[key := t.staged.value]; }
      }
    }
  }

  /** How far a loop over children has got: `cur` are the children now, those from (or up to) `i` are
      still to be visited, `bad` says that the last visit raised. */
  ghost predicate Committing(env: Env, cs0: seq<Txn>, w0: World, cur: seq<Txn>, i: nat, w: World, bad: bool) {
    && i <= |cs0| == |cur| && cur[i..] == cs0[i..]
    && CommitAll(env, cs0, w0) ==
       if bad then Results(cur, w, true)
       else var rest := CommitAll(env, cs0[i..], w); Results(cur[..i] + rest.ts, rest.w, rest.raised)
  }

  lemma CommitStep(env: Env, cs0: seq<Txn>, w0: World, cur: seq<Txn>, i: nat, w: World)
    requires i < |cs0| && Committing(env, cs0, w0, cur, i, w, false)
    ensures var r := M.Commit(env, cur[i], w);
            Committing(env, cs0, w0, cur[i := r.t], i + 1, r.w, r.raised)
  {
    var r := M.Commit(env, cur[i], w);
    var next := cur[i := r.t];
    assert cs0[i..][0] == cur[i] && cs0[i..][1..] == cs0[i + 1..];
    assert next[i + 1..] == cur[i..][1..];
    if r.raised {
      assert cur[..i] + ([r.t] + cs0[i + 1..]) == next;
    } else {
      var rest := CommitAll(env, cs0[i + 1..], r.w);
      assert cur[..i] + ([r.t] + rest.ts) == next[..i + 1] + rest.ts;
    }
  }

  ghost predicate RollingBack(env: Env, cs0: seq<Txn>, w0: World, cur: seq<Txn>, i: nat, w: World, bad: bool) {
    && i <= |cs0| == |cur| && cur[..i] == cs0[..i]
    && RollbackAll(env, cs0, w0) ==
       if bad then Results(cur, w, true)
       else var rest := RollbackAll(env, cs0[..i], w); Results(rest.ts + cur[i..], rest.w, rest.raised)
  }

  lemma RollbackStep(env: Env, cs0: seq<Txn>, w0: World, cur: seq<Txn>, i: nat, w: World)
    requires i < |cs0| && RollingBack(env, cs0, w0, cur, i + 1, w, false)
    ensures var r := M.Rollback(env, cur[i], w);
            RollingBack(env, cs0, w0, cur[i := r.t], i, r.w, r.raised)
  {
    var r := M.Rollback(env, cur[i], w);
    var next := cur[i := r.t];
    assert cs0[..i + 1][i] == cur[..i + 1][i] == cur[i] && cs0[..i + 1][..i] == cs0[..i];
    assert next[..i] == cur[..i + 1][..i];
    if r.raised {
      assert (cs0[..i] + [r.t]) + cur[i + 1..] == next;
    } else {
      var rest := RollbackAll(env, cs0[..i], r.w);
      assert (rest.ts + [r.t]) + cur[i + 1..] == rest.ts + next[i..];
    }
  }

  class Transaction {
    const cfg: Config
    var commitMode: Option<CommitMode>
    var isolation: Option<IsolationLevel>
    var state: TransactionState
    var staged: Staged
    var onCommitHooks: seq<Hook>
    var onRollbackHooks: seq<Hook>
    var children: seq<Transaction>
    var token: Option<Transaction?>    // the context variable's previous value while entered

    ghost var node: Txn                // the value of the tree below this transaction
    ghost var Repr: set<object>

    constructor (cfg: Config)
      ensures Pristine() && this.cfg == cfg
    {
      this.cfg, commitMode, isolation := cfg, cfg.mode, cfg.isolation;
      state, staged, onCommitHooks, onRollbackHooks := PENDING, Plain(Nothing), [], [];
      children, token := [], None;
    }

    predicate Pristine()
      reads this
    {
      commitMode == cfg.mode && isolation == cfg.isolation && state == PENDING && staged == Plain(Nothing)
      && onCommitHooks == onRollbackHooks == [] && children == [] && token == None
    }

    /** The tree below an entered transaction is a tree, and `node` is its value. */
    ghost predicate Valid()
      reads this, Repr
      decreases Repr
    {
      && Mirrored()
      && (forall i :: 0 <= i < |children| ==>
            && children[i] in Repr && children[i].Repr <= Repr && this !in children[i].Repr
            && children[i].Valid() && children[i].node == node.children[i])
      && (forall i, j :: 0 <= i < j < |children| ==> children[i].Repr !! children[j].Repr)
    }

    ghost predicate Mirrored()
      reads this
    {
      && this in Repr
      && node.cfg == cfg && commitMode == Some(node.mode) && isolation == Some(node.isolation)
      && node.state == state && node.staged == staged
      && node.commitHooks == onCommitHooks && node.rollbackHooks == onRollbackHooks
      && |children| == |node.children|
    }

    method Stage(value: Staged, onRollback: seq<Hook>, onCommit: seq<Hook>)
      requires Valid()
      modifies this
      ensures Valid() && Repr == old(Repr) && token == old(token)
      ensures node == StageIn(old(node), value, onRollback, onCommit)
    {
      if state != COMMITTED {
        staged := value;
        onRollbackHooks := onRollbackHooks + onRollback;
        onCommitHooks := onCommitHooks + onCommit;
        state := STAGED;
        node := StageIn(node, value, onRollback, onCommit);
      }
    }

    method SetState(s: TransactionState)
      requires Valid()
      modifies this`state, this`node
      ensures Valid() && node == if s == ROLLED_BACK then Back(old(node)) else old(node).(state := s)
    {
      state, node := s, if s == ROLLED_BACK then Back(node) else node.(state := s);
    }

    /** Brings `node` up to date after a change below the child at `i`. */
    ghost method AdoptChild(i: nat)
      requires Mirrored() && i < |children|
      requires forall j :: 0 <= j < |children| ==>
            && children[j] in Repr && children[j].Repr <= Repr && this !in children[j].Repr
            && children[j].Valid() && (j != i ==> children[j].node == node.children[j])
      requires forall i, j :: 0 <= i < j < |children| ==> children[i].Repr !! children[j].Repr
      modifies this`node
      ensures Valid() && node == old(node).(children := old(node).children[i := children[i].node])
    {
      node := node.(children := node.children[i := children[i].node]);
    }

    method Rollback(ctx: Context) returns (ret: bool, raised: bool)
      requires Valid() && ctx !in Repr
      modifies Repr, ctx`held, ctx`trace
      ensures Valid() && Repr == old(Repr) && token == old(token)
      ensures M.Rollback(ctx.env, old(node), old(ctx.W())) == Result(node, ctx.W(), ret, raised)
      decreases Repr, 1
    {
      if state == ROLLED_BACK || state == COMMITTED { return false, false; }
      raised := ctx.RunHooks(cfg.id, OnRollback, Reversed(onRollbackHooks));
      if raised {
        raised := ctx.ReleaseLock(this);
        return false, raised;
      }
      SetState(ROLLED_BACK);
      var bad := RollbackChildren(ctx);
      ret := !bad;
      raised := ctx.ReleaseLock(this);
    }

    method RollbackChildren(ctx: Context) returns (bad: bool)
      requires Valid() && ctx !in Repr
      modifies Repr, ctx`held, ctx`trace
      ensures Valid() && Repr == old(Repr) && token == old(token)
      ensures node == old(node).(children := node.children)
      ensures RollbackAll(ctx.env, old(node).children, old(ctx.W())) == Results(node.children, ctx.W(), bad)
      decreases Repr, 0, 1
    {
      ghost var cs0, w0 := node.children, ctx.W();
      var i := |children|;
      bad := false;
      assert cs0[..i] == cs0;
      while i > 0 && !bad
        invariant 0 <= i <= |children| == |cs0|
        invariant Valid() && Repr == old(Repr) && token == old(token)
        invariant node == old(node).(children := node.children)
        invariant RollingBack(ctx.env, cs0, w0, node.children, i, ctx.W(), bad)
      {
        i := i - 1;
        RollbackStep(ctx.env, cs0, w0, node.children, i, ctx.W());
        bad := RollbackChild(ctx, i);
      }
    }

    method RollbackChild(ctx: Context, i: nat) returns (raised: bool)
      requires Valid() && ctx !in Repr && i < |children|
      modifies Repr, ctx`held, ctx`trace
      ensures Valid() && Repr == old(Repr) && token == old(token) && children == old(children)
      ensures var r := M.Rollback(ctx.env, old(node).children[i], old(ctx.W()));
              && node == old(node).(children := old(node).children[i := r.t])
              && ctx.W() == r.w && raised == r.raised
      decreases Repr, 0, 0
    {
      var child := children[i];
      ghost var others := node.children;
      var _, bad := child.Rollback(ctx);
      assert forall j :: 0 <= j < |children| && j != i ==> children[j].Valid() && children[j].node == others[j];
      AdoptChild(i);
      raised := bad;
    }

    method Commit(ctx: Context) returns (ret: bool, raised: bool)
      requires Valid() && ctx !in Repr
      modifies Repr, ctx`held, ctx`trace, ctx`store
      ensures Valid() && Repr == old(Repr) && token == old(token)
      ensures M.Commit(ctx.env, old(node), old(ctx.W())) == Result(node, ctx.W(), ret, raised)
      decreases Repr, 2
    {
      if state == ROLLED_BACK || state == COMMITTED {
        raised := ctx.ReleaseLock(this);
        return false, raised;
      }
      raised := Attempt(ctx);
      if !raised { return true, false; }
      ret, raised := Rollback(ctx);
      ret := false;
    }

    method Attempt(ctx: Context) returns (raised: bool)
      requires Valid() && ctx !in Repr && state != ROLLED_BACK && state != COMMITTED
      modifies Repr, ctx`held, ctx`trace, ctx`store
      ensures Valid() && Repr == old(Repr) && token == old(token)
      ensures M.Attempt(ctx.env, old(node), old(ctx.W())) == Result(node, ctx.W(), !raised, raised)
      decreases Repr, 1
    {
      raised := CommitChildren(ctx);
      if raised { return; }
      raised := CommitOwn(ctx);
    }

    /** What follows the children: hooks, write, state, release. */
    method CommitOwn(ctx: Context) returns (raised: bool)
      requires Valid() && ctx !in Repr
      modifies this`state, this`node, ctx`held, ctx`trace, ctx`store
      ensures Valid() && Repr == old(Repr) && token == old(token)
      ensures M.Own(ctx.env, old(node), old(ctx.W())) == Result(node, ctx.W(), !raised, raised)
    {
      raised := Publish(ctx);
      if raised { return; }
      SetState(COMMITTED);
      raised := ctx.ReleaseLock(this);
    }

    /** Commit hooks, then the write. */
    method Publish(ctx: Context) returns (raised: bool)
      requires Mirrored()
      modifies ctx`trace, ctx`store
      ensures var h := M.RunHooks(ctx.env, node.cfg.id, OnCommit, node.commitHooks, old(ctx.W()));
              Try(ctx.W(), raised) == if h.raised then h else M.Persist(ctx.env, node, h.w)
    {
      raised := ctx.RunHooks(cfg.id, OnCommit, onCommitHooks);
      if !raised { raised := ctx.Persist(this); }
    }

    method CommitChildren(ctx: Context) returns (bad: bool)
      requires Valid() && ctx !in Repr
      modifies Repr, ctx`held, ctx`trace, ctx`store
      ensures Valid() && Repr == old(Repr) && token == old(token)
      ensures node == old(node).(children := node.children)
      ensures CommitAll(ctx.env, old(node).children, old(ctx.W())) == Results(node.children, ctx.W(), bad)
      decreases Repr, 0, 1
    {
      ghost var cs0, w0 := node.children, ctx.W();
      bad := false;
      var i := 0;
      assert cs0[0..] == cs0;
      while i < |children| && !bad
        invariant 0 <= i <= |children| == |cs0|
        invariant Valid() && Repr == old(Repr) && token == old(token)
        invariant node == old(node).(children := node.children)
        invariant Committing(ctx.env, cs0, w0, node.children, i, ctx.W(), bad)
      {
        CommitStep(ctx.env, cs0, w0, node.children, i, ctx.W());
        bad := CommitChild(ctx, i);
        i := i + 1;
      }
    }

    method CommitChild(ctx: Context, i: nat) returns (raised: bool)
      requires Valid() && ctx !in Repr && i < |children|
      modifies Repr, ctx`held, ctx`trace, ctx`store
      ensures Valid() && Repr == old(Repr) && token == old(token) && children == old(children)
      ensures var r := M.Commit(ctx.env, old(node).children[i], old(ctx.W()));
              && node == old(node).(children := old(node).children[i := r.t])
              && ctx.W() == r.w && raised == r.raised
      decreases Repr, 0, 0
    {
      var child := children[i];
      ghost var others := node.children;
      var _, bad := child.Commit(ctx);
      assert forall j :: 0 <= j < |children| && j != i ==> children[j].Valid() && children[j].node == others[j];
      AdoptChild(i);
      raised := bad;
    }

    function GetParent(ctx: Context): Transaction?
      reads this, ctx
    {
      if token.Some? then token.value else ctx.active
    }

    /** `__enter__`. */
    method Enter(ctx: Context) returns (raised: bool)
      requires ctx.Valid() && Pristine() && this !in ctx.Repr
      modifies this, ctx
      ensures ctx.Valid() && ctx.Repr <= old(ctx.Repr) + {this}
      ensures M.Enter(ctx.env, cfg, old(ctx.Abs())) == Exec(ctx.Abs(), raised)
      ensures ctx.open == if raised then old(ctx.open) else old(ctx.open) + [this]
    {
      Inherit(ctx);
      if cfg.Keyed() && isolation == Some(SERIALIZABLE) && !ctx.env.lockManager { return true; }
      Start(ctx);
      assert forall i :: 0 <= i < |ctx.open| ==> old(ctx.OpenAt(i)) ==> ctx.OpenAt(i);
      ctx.active := this;
      ctx.Push(this);
      return false;
    }

    method Start(ctx: Context)
      requires staged == Plain(Nothing) && onCommitHooks == onRollbackHooks == [] && children == []
      requires commitMode == Some(ModeOf(cfg, ctx.stack)) && isolation == Some(IsolationOf(cfg, ctx.stack))
      modifies this, ctx`held
      ensures Valid() && Repr == {this} && token == Some(ctx.active)
      ensures node == Opened(cfg, old(ctx.Abs())) && ctx.W() == Begun(cfg, old(ctx.Abs()))
    {
      state := ACTIVE;
      Begin(ctx);
      node, Repr := Opened(cfg, old(ctx.Abs())), {this};
      token := Some(ctx.active);
    }

    method Inherit(ctx: Context)
      requires ctx.Valid() && commitMode == cfg.mode && isolation == cfg.isolation && this !in ctx.Repr
      modifies this`commitMode, this`isolation
      ensures commitMode == Some(ModeOf(cfg, ctx.stack)) && isolation == Some(IsolationOf(cfg, ctx.stack))
    {
      var parent := ctx.active;
      assert parent != null ==> ctx.OpenAt(|ctx.open| - 1);
      if commitMode == None { commitMode := if parent != null then parent.commitMode else Some(LAZY); }
      if isolation == None { isolation := if parent != null then parent.isolation else Some(READ_COMMITTED); }
    }

    method Begin(ctx: Context)
      modifies this`state, ctx`held
      ensures ctx.held == old(ctx.held) + if cfg.Keyed() && isolation == Some(SERIALIZABLE) then {cfg.key} else {}
      ensures state == if !cfg.overwrite && cfg.Keyed() && cfg.key in ctx.store then COMMITTED else old(state)
    {
      if cfg.Keyed() && isolation == Some(SERIALIZABLE) { ctx.held := ctx.held + {cfg.key}; }
      if !cfg.overwrite && cfg.Keyed() && cfg.key in ctx.store { state := COMMITTED; }
    }

    method AddChild(t: Transaction)
      requires Valid() && t.Valid() && Repr !! t.Repr
      modifies this
      ensures Valid() && Repr == old(Repr) + t.Repr && token == old(token) && state == old(state)
      ensures node == Adopting(old(node), t.node)
    {
      ghost var before := children;
      children := children + [t];
      node, Repr := Adopting(node, t.node), Repr + t.Repr;
      assert forall i :: 0 <= i < |before| ==> before[i].Valid();
    }

    /** `reset`. */
    method Reset(ctx: Context, ghost k: nat) returns (raised: bool)
      requires ctx.Valid() && k < |ctx.open| && ctx.open[k] == this
      modifies ctx.Repr, ctx`open, ctx`stack, ctx`reprs, ctx`active, ctx`held, ctx`trace
      ensures ctx.Valid() && ctx.Repr == old(ctx.Repr) && ctx.open == old(ctx.open)[..k]
      ensures var x := M.Reset(ctx.env, k, old(ctx.Abs())); ctx.Abs() == x.s && raised == x.raised
      ensures k == 0 ==> Valid() && Some(node) == M.Reset(ctx.env, k, old(ctx.Abs())).txn
    {
      assert ctx.OpenAt(k);
      var parent := Detach(ctx, k);
      raised := false;
      // after the context variable is reset, so that get_transaction() returns the relevant one
      if parent != null && state == ROLLED_BACK {
        raised := ctx.RollbackOpen(parent, k - 1);
      }
    }

    method Detach(ctx: Context, ghost k: nat) returns (parent: Transaction?)
      requires ctx.Valid() && k < |ctx.open| && ctx.open[k] == this
      modifies ctx.Repr, ctx`open, ctx`stack, ctx`reprs, ctx`active
      ensures ctx.Valid() && ctx.Repr == old(ctx.Repr) && ctx.open == old(ctx.open)[..k]
      ensures state == old(state) && parent == if k == 0 then null else ctx.open[k - 1]
      ensures var t := Resetting(old(ctx.Abs()), k);
              && (k == 0 ==> ctx.stack == [] && Valid() && node == t)
              && (k > 0 ==> var p := old(ctx.stack)[k - 1];
                            ctx.stack == old(ctx.stack)[..k - 1] + [Adopting(p, t)])
    {
      assert ctx.OpenAt(k) && (k > 0 ==> ctx.OpenAt(k - 1) && ctx.reprs[k - 1] !! ctx.reprs[k]);
      parent := HandOver(ctx);
      forall i | 0 <= i < k - 1 ensures ctx.OpenAt(i) {
        assert old(ctx.OpenAt(i)) && ctx.reprs[i] !! ctx.reprs[k] && ctx.reprs[i] !! ctx.reprs[k - 1];
      }
      ctx.Pop(k);
    }

    method HandOver(ctx: Context) returns (parent: Transaction?)
      requires Valid() && token.Some? && this != token.value && ctx !in Repr
      requires token.value != null ==> token.value.Valid() && token.value.Repr !! Repr && ctx !in token.value.Repr
      modifies this, token.value, ctx`active
      ensures parent == ctx.active == old(token).value && state == old(state) && token == None
      ensures parent == null ==> Valid() && Repr == old(Repr) && node == Closed(old(node), false)
      ensures parent != null ==>
        && parent.Valid() && parent.Repr == old(parent.Repr) + old(Repr) && parent.token == old(parent.token)
        && parent.node == Adopting(old(parent.node), Closed(old(node), old(parent.node).state == COMMITTED))
    {
      parent := GetParent(ctx);
      Close(ctx, parent != null && parent.state == COMMITTED);
      if parent != null { parent.AddChild(this); }   // commutes with the line above
    }

    /** The context variable gets back the value it had before this transaction was entered. */
    method Close(ctx: Context, ghost shielded: bool)
      requires Valid() && token.Some? && ctx !in Repr
      modifies this`token, this`node, ctx`active
      ensures ctx.active == old(token).value && token == None
      ensures Valid() && node == Closed(old(node), shielded)
    {
      ctx.active, token := token.value, None;
      node := Closed(node, shielded);
    }

    /** `__exit__`; `exc` says that the body raised. */
    method Exit(ctx: Context, exc: bool, ghost k: nat) returns (raised: bool)
      requires ctx.Valid() && k < |ctx.open| && ctx.open[k] == this
      modifies ctx.Repr, ctx
      ensures ctx.Valid() && ctx.Repr == old(ctx.Repr)
      ensures var x := M.Exit(ctx.env, k, old(ctx.Abs()), exc);
              && ctx.Abs() == x.s && raised == x.raised
              && ctx.open == old(ctx.open)[..|x.s.stack|]
              && (k == 0 && x.txn.Some? ==> Valid() && node == x.txn.value)
    {
      if exc {
        raised := ctx.RollbackOpen(this, k);
      } else {
        raised := Settle(ctx, k);
      }
      if raised { return; }
      raised := Reset(ctx, k);
      raised := raised || exc;
    }

    method Settle(ctx: Context, ghost k: nat) returns (raised: bool)
      requires ctx.Valid() && k < |ctx.open| && ctx.open[k] == this
      modifies ctx.Repr, ctx`stack, ctx`held, ctx`trace, ctx`store
      ensures ctx.Valid() && ctx.Repr == old(ctx.Repr)
      ensures var r := M.Settle(ctx.env, k, old(ctx.stack)[k], old(ctx.W()));
              ctx.Abs() == Replace(old(ctx.Abs()), k, r) && raised == r.raised
    {
      assert ctx.OpenAt(k);
      raised := false;
      var mode := commitMode;
      if mode == Some(EAGER) { raised := ctx.CommitOpen(this, k); }
      if raised || GetParent(ctx) != null { return; }   // if parent, let them take responsibility
      if mode == Some(OFF) {
        raised := ctx.RollbackOpen(this, k);
      } else if mode == Some(LAZY) {
        raised := ctx.CommitOpen(this, k);
      }
    }

    /** A whole block: the transaction is created, entered, its body run, and exited. */
    static method RunBlock(ctx: Context, b: Block) returns (txn: Transaction, raised: bool)
      requires ctx.Valid()
      modifies ctx, ctx.Repr
      ensures ctx.Valid() && fresh(ctx.Repr - old(ctx.Repr))
      ensures var x := M.RunBlock(ctx.env, b, old(ctx.Abs()));
              && ctx.Abs() == x.s && raised == x.raised
              && old(ctx.open)[..|old(ctx.open)|] <= ctx.open
              && (old(ctx.open) == [] && x.txn.Some? ==> txn.Valid() && txn.node == x.txn.value)
      decreases b, 1
    {
      ghost var k := |ctx.open|;
      txn := new Transaction(b.cfg);
      raised := txn.Enter(ctx);
      if raised { return; }
      var exc := RunBody(ctx, b.body, txn, k);
      raised := txn.Exit(ctx, exc, k);
    }

    static method RunBody(ctx: Context, body: seq<Stmt>, txn: Transaction, ghost k: nat) returns (raised: bool)
      requires ctx.Valid() && k < |ctx.open| && ctx.open[k] == txn
      modifies ctx, ctx.Repr
      ensures ctx.Valid() && fresh(ctx.Repr - old(ctx.Repr))
      ensures old(ctx.open)[..k + 1] <= ctx.open
      ensures Exec(ctx.Abs(), raised) == M.RunBody(ctx.env, body, k, old(ctx.Abs()))
      decreases body, 0
    {
      raised := false;
      var i := 0;
      ghost var s0 := ctx.Abs();
      assert body[0..] == body;
      while i < |body|
        invariant 0 <= i <= |body| && !raised
        invariant ctx.Valid() && fresh(ctx.Repr - old(ctx.Repr))
        invariant old(ctx.open)[..k + 1] <= ctx.open
        invariant M.RunBody(ctx.env, body, k, s0) == M.RunBody(ctx.env, body[i..], k, ctx.Abs())
      {
        raised := RunStmt(ctx, body[i], txn, k);
        assert body[i..][1..] == body[i + 1..];
        if raised { return; }
        i := i + 1;
      }
    }

    static method RunStmt(ctx: Context, c: Stmt, txn: Transaction, ghost k: nat) returns (raised: bool)
      requires ctx.Valid() && k < |ctx.open| && ctx.open[k] == txn
      modifies ctx, ctx.Repr
      ensures ctx.Valid() && fresh(ctx.Repr - old(ctx.Repr))
      ensures old(ctx.open)[..k + 1] <= ctx.open
      ensures Exec(ctx.Abs(), raised) == M.RunStmt(ctx.env, c, k, old(ctx.Abs()))
      decreases c, 2
    {
      raised := false;
      match c
      case Nested(b) => var _, exc := RunBlock(ctx, b); raised := exc;
      case Guarded(b) => var _, exc := RunBlock(ctx, b);
      case Stage(v, onRollback, onCommit) => assert ctx.OpenAt(k); ctx.StageOpen(txn, k, v, onRollback, onCommit);
      case CallCommit => raised := ctx.CommitOpen(txn, k);
      case CallRollback => raised := ctx.RollbackOpen(txn, k);
      case Raise => raised := true;
    }
  }
}
