/** The theorems about programs, read off the objects: a whole program run on a fresh context. */
module TransactionPrograms {
  import opened Wrappers
  import opened TransactionModel
  import opened Transactions
  import opened TransactionTolerance
  import opened TransactionOutcome
  import TransactionKept
  import TransactionLocks
  import TransactionContagion
  import TransactionSingleWrite
  import TransactionStore
  import TransactionStrictPrograms
  import TransactionTraces

  /** Releasing locks disturbs nothing: the manager is tolerant, or the program takes no locks, or the manager
      raises and the program, in which nothing is found and all locks differ, spoils nothing. */
  predicate Undisturbed(env: Env, b: Block, stored: set<Key>) {
    || Safe(env, b)
    || (env.strict && env.lockManager && Unstored(b, stored) && TransactionKept.Distinct(Expected(b, OUTERMOST, {}, None))
        && !TransactionStrictPrograms.Spoils(b, OUTERMOST, RootVerdict(b)))
  }

  lemma UndisturbedRun(env: Env, b: Block, w: World)
    requires Quiet(env) && Undisturbed(env, b, w.store.Keys) && Straight(b) && w.held == {}
    ensures RunBlock(env, b, State([], w)) == RunBlock(Tolerant(env), b, State([], w))
  {
    if Safe(env, b) { SafeRun(env, b, w); } else { TransactionStrictPrograms.StrictOutcome(env, b, w); }
  }

  /** What is known of the finished tree `t` and the world `w` after a program on a fresh context. */
  ghost predicate AsPromised(b: Block, init: set<Key>, store: map<Key, Value>, t: Txn, w: World) {
    && View(t) == Expected(b, OUTERMOST, init, Some(RootVerdict(b)))
    && w.trace == TransactionTraces.BlockEvents(b, OUTERMOST, init, Some(RootVerdict(b)))
    && w.store == TransactionStore.Replay(store, w.trace)
    && (init == {} ==> w.held == {})
    && (TransactionKept.Distinct(Expected(b, OUTERMOST, init, None)) ==>
          w.held == TransactionKept.Keeps(b, OUTERMOST, init, Some(RootVerdict(b))))
    && (TransactionSingleWrite.Named(b) ==>
          TransactionSingleWrite.Once(t, w.trace) && TransactionStore.Settled(t, store, w.store))
    && TransactionContagion.Sound(t, TransactionContagion.CommitFree(b))
  }

  lemma ProgramKeepsPromises(env: Env, store: map<Key, Value>, b: Block, init: set<Key>)
    requires Quiet(env) && Undisturbed(env, b, store.Keys) && Straight(b)
    requires init <= store.Keys && Foreseen(b, init, store.Keys)
    ensures var x := RunBlock(env, b, State([], World(store, {}, [])));
            x.s.stack == [] && x.raised == Raises(b) && x.txn.Some? && AsPromised(b, init, store, x.txn.value, x.s.w)
  {
    var w, tolerant := World(store, {}, []), Tolerant(env);
    UndisturbedRun(env, b, w);
    OutcomeTheorem(tolerant, b, w, init);
    TransactionTraces.ProgramTrace(tolerant, b, w, init);
    TransactionStore.BlockExplained(env, b, State([], w), store);
    var events := TransactionTraces.BlockEvents(b, OUTERMOST, init, Some(RootVerdict(b)));
    assert [] + events == events;
    if init == {} { TransactionLocks.LocksReleased(tolerant, b, w); }
    if TransactionKept.Distinct(Expected(b, OUTERMOST, init, None)) { TransactionKept.LocksKept(tolerant, b, w, init); }
    if TransactionSingleWrite.Named(b) {
      TransactionSingleWrite.SingleWrite(env, b, w);
      TransactionStore.Atomicity(tolerant, b, store, {});
    }
    TransactionContagion.Contagion(env, b, State([], w));
  }

  /** When no hook and no write fails: the context variable is unset again, the tree of objects below the root
      shows the expected states in exit order, with the expected hooks and staged objects, exactly the
      expected hooks and writes have run, in order, the store is the initial one after those writes, each
      transaction wrote exactly if it should, and rollbacks spread upwards. No
      lock is held if nothing was found, and if locks differ, exactly those that `Keeps` says. */
  method RunProgram(env: Env, store: map<Key, Value>, b: Block, ghost init: set<Key>)
    returns (ctx: Context, root: Transaction, raised: bool)
    requires Quiet(env) && Undisturbed(env, b, store.Keys) && Straight(b)
    requires init <= store.Keys && Foreseen(b, init, store.Keys)
    ensures raised == Raises(b) && ctx.active == null
    ensures root.Valid() && root.state == root.node.state
    ensures AsPromised(b, init, store, root.node, ctx.W())
  {
    ctx := new Context(env, store);
    root, raised := Transaction.RunBlock(ctx, b);
    ProgramKeepsPromises(env, store, b, init);
  }

  /** Whatever the program does, whatever fails and whatever the lock manager: no transaction's own write
      succeeds twice, and under each key the store holds what some transaction wrote there or, if none did,
      what it held. If no release can raise, no transaction is left active either and, unless the
      outermost one could not be opened at all, the store is the initial one overwritten by the committed
      transactions of the tree. */
  method RunAnything(env: Env, store: map<Key, Value>, b: Block) returns (ctx: Context, root: Transaction, raised: bool)
    requires TransactionSingleWrite.Named(b)
    ensures forall id :: id in TransactionSingleWrite.BlockIds(b) ==> |TransactionSingleWrite.Persisted(ctx.trace, id)| <= 1
    ensures forall k ::
      || (k in ctx.store && TransactionStore.WrittenTo(ctx.trace, k, ctx.store[k]))
      || ((forall v :: !TransactionStore.WrittenTo(ctx.trace, k, v)) && TransactionStore.AgreeAt(store, ctx.store, k))
    ensures Harmless(env, b, State([], World(store, {}, []))) ==> ctx.active == null
    ensures Harmless(env, b, State([], World(store, {}, []))) ==>
            if Enter(env, b.cfg, State([], World(store, {}, []))).raised then raised && ctx.store == store
            else root.Valid() && TransactionSingleWrite.Once(root.node, ctx.trace)
                 && TransactionStore.Settled(root.node, store, ctx.store)
  {
    ctx := new Context(env, store);
    root, raised := Transaction.RunBlock(ctx, b);
    ghost var w := World(store, {}, []);
    TransactionSingleWrite.SingleWrite(env, b, w);
    forall k { TransactionStore.OnlyWritten(env, b, store, {}, k); }
    if Harmless(env, b, State([], w)) {
      ActiveRestored(env, b, State([], w));
      TransactionStore.Atomicity(env, b, store, {});
    }
  }
}
