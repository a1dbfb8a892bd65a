/** The outcome of every single transaction of a program, in terms of the blocks around it. */
module TransactionPaths {
  import opened Wrappers
  import opened TransactionModel
  import opened TransactionTolerance
  import opened TransactionOutcome

  /** The nested blocks of a body that start, in order: none after the first that raises. */
  function Started(body: seq<Stmt>): seq<Block> {
    if body == [] then []
    else (if body[0].Nested? then [body[0].block] else []) + if StmtRaises(body[0]) then [] else Started(body[1..])
  }

  /** `path` leads from `b` inwards, naming at each step one of the nested blocks that start. */
  predicate Leads(b: Block, path: seq<nat>)
    decreases |path|
  {
    path == [] || (path[0] < |Started(b.body)| && Leads(Started(b.body)[path[0]], path[1..]))
  }

  function BlockAt(b: Block, path: seq<nat>): Block
    requires Leads(b, path)
    decreases |path|
  {
    if path == [] then b else BlockAt(Started(b.body)[path[0]], path[1..])
  }

  /** The commit mode in effect in the block at `path`. */
  function ModeAt(b: Block, a: Around, path: seq<nat>): CommitMode
    requires Leads(b, path)
    decreases |path|
  {
    if path == [] then Inside(b.cfg, a).mode else ModeAt(Started(b.body)[path[0]], Inside(b.cfg, a), path[1..])
  }

  predicate Reaches(o: Outcome, path: seq<nat>)
    decreases |path|
  {
    path == [] || (path[0] < |o.children| && Reaches(o.children[path[0]], path[1..]))
  }

  function At(o: Outcome, path: seq<nat>): Outcome
    requires Reaches(o, path)
    decreases |path|
  {
    if path == [] then o else At(o.children[path[0]], path[1..])
  }

  lemma {:induction false} ExpectedBodyAt(body: seq<Stmt>, a: Around, init: set<Key>, fate: Option<TransactionState>, i: nat)
    ensures |ExpectedBody(body, a, init, fate)| == |Started(body)|
    ensures i < |Started(body)| ==>
              ExpectedBody(body, a, init, fate)[i] == Expected(Started(body)[i], a, init, fate)
              && (Raises(Started(body)[i]) ==> BodyRaises(body))
  {
    if body != [] && !StmtRaises(body[0]) {
      ExpectedBodyAt(body[1..], a, init, fate, if body[0].Nested? && i > 0 then i - 1 else i);
    }
  }

  /** The block at `path[..i]` is in EAGER mode and no exception escapes from it. */
  predicate CommitsAt(b: Block, a: Around, path: seq<nat>, i: nat)
    requires i <= |path| && Leads(b, path[..i])
  {
    ModeAt(b, a, path[..i]) == EAGER && !Raises(BlockAt(b, path[..i]))
  }

  lemma {:induction false} LeadsPrefix(b: Block, path: seq<nat>, i: nat)
    requires Leads(b, path) && i <= |path|
    ensures Leads(b, path[..i])
    decreases |path|
  {
    if i > 0 {
      assert path[..i][1..] == path[1..][..i - 1];
      LeadsPrefix(Started(b.body)[path[0]], path[1..], i - 1);
    }
  }

  /** Some block on the way to `path` commits by itself. */
  ghost predicate CommitsAlong(b: Block, a: Around, path: seq<nat>)
    requires Leads(b, path)
  {
    exists i :: 0 <= i <= |path| && Leads(b, path[..i]) && CommitsAt(b, a, path, i)
  }

  lemma CommitsAlongFirst(b: Block, a: Around, path: seq<nat>)
    requires Leads(b, path) && path != []
    ensures var c := Started(b.body)[path[0]];
            CommitsAlong(b, a, path) <==>
            (Inside(b.cfg, a).mode == EAGER && !Raises(b)) || CommitsAlong(c, Inside(b.cfg, a), path[1..])
  {
    var c, tail := Started(b.body)[path[0]], path[1..];
    forall i | 0 < i <= |path|
      ensures Leads(b, path[..i]) && Leads(c, tail[..i - 1])
              && CommitsAt(b, a, path, i) == CommitsAt(c, Inside(b.cfg, a), tail, i - 1)
    {
      LeadsPrefix(b, path, i);
      assert path[..i][1..] == tail[..i - 1];
    }
    assert CommitsAt(b, a, path, 0) == (Inside(b.cfg, a).mode == EAGER && !Raises(b));
    if j :| 0 <= j <= |tail| && Leads(c, tail[..j]) && CommitsAt(c, Inside(b.cfg, a), tail, j) {
      assert CommitsAt(b, a, path, j + 1);
    }
  }

  /** What `Expected` says of the block at `path` when nothing is found. */
  lemma {:induction false} ExpectedAt(b: Block, a: Around, v: TransactionState, path: seq<nat>)
    requires Leads(b, path) && (v == COMMITTED || v == ROLLED_BACK)
    ensures var o := Expected(b, a, {}, Some(v));
            && Reaches(o, path) && At(o, path).id == BlockAt(b, path).cfg.id
            && At(o, path).state == if CommitsAlong(b, a, path) || (v == COMMITTED && !Raises(b)) then COMMITTED else ROLLED_BACK
    decreases |path|
  {
    if path == [] {
      assert CommitsAlong(b, a, path) <==> CommitsAt(b, a, path, 0) by { assert path[..0] == path; }
    } else {
      var inside, fate := Inside(b.cfg, a), FateInside(b, a, {}, Some(v));
      var c := Started(b.body)[path[0]];
      ExpectedBodyAt(b.body, inside, {}, fate, path[0]);
      ExpectedAt(c, inside, fate.value, path[1..]);
      CommitsAlongFirst(b, a, path);
    }
  }

  /** The outcome theorem, node by node. When no block finds a record: a transaction is COMMITTED if and only if
      it is, or is enclosed by, one in EAGER mode from which no exception escapes, or the program raises
      nothing and its outermost block is not OFF; and every other one is ROLLED_BACK. */
  lemma CommittedExactly(env: Env, b: Block, w: World, path: seq<nat>)
    requires Quiet(env) && Safe(env, b) && Straight(b) && Unstored(b, w.store.Keys) && Leads(b, path)
    ensures var x := RunBlock(env, b, State([], w));
            && x.txn.Some? && Reaches(View(x.txn.value), path)
            && var o := At(View(x.txn.value), path);
               && o.id == BlockAt(b, path).cfg.id
               && (o.state == COMMITTED <==> CommitsAlong(b, OUTERMOST, path) || (!Raises(b) && b.cfg.mode != Some(OFF)))
               && (o.state == ROLLED_BACK <==> o.state != COMMITTED)
  {
    OutcomeTheorem(env, b, w, {});
    ExpectedAt(b, OUTERMOST, RootVerdict(b), path);
  }
}
