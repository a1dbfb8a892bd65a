/** The algebra of cache policies: what `+` and `-` build, and the key the result computes. */
module CachePolicies {
  import opened Wrappers

  type Key = string
  type Name = string

  /** `Leaf` stands for the policies whose key depends on the task run but not on its inputs' names
      (task source, flow parameters, run id, a custom key function). */
  datatype Policy =
    | NoCache
    | Leaf(id: nat)
    | Inputs(exclude: set<Name>)
    | Compound(policies: seq<Policy>)

  /** A task run: the keys its leaf policies compute, its inputs, and the two uses of `hash_objects`. */
  datatype TaskRun = TaskRun(leaf: nat -> Option<Key>, inputs: map<Name, string>,
                             hashKeys: seq<Key> -> Key, hashInputs: map<Name, string> -> Key)

  /* ---------- compute_key ---------- */

  function ComputeKey(p: Policy, run: TaskRun): Option<Key>
    decreases p, 1
  {
    match p
    case NoCache => None
    case Leaf(i) => run.leaf(i)
    case Inputs(ex) => InputsKey(ex, run)
    case Compound(ps) => HashAll(KeysOf(ps, run), run)
  }

  function InputsKey(exclude: set<Name>, run: TaskRun): Option<Key> {
    if run.inputs == map[] then None else Some(run.hashInputs(run.inputs - exclude))
  }

  function HashAll(keys: seq<Key>, run: TaskRun): Option<Key> {
    if keys == [] then None else Some(run.hashKeys(keys))
  }

  function KeysOf(ps: seq<Policy>, run: TaskRun): seq<Key>
    decreases ps, 0
  {
    if ps == [] then [] else Listed(ComputeKey(ps[0], run)) + KeysOf(ps[1..], run)
  }

  function Listed(k: Option<Key>): seq<Key> { if k.Some? then [k.value] else [] }

  /** `CompoundCachePolicy.compute_key`: collect the keys that are not None, hash them if any. */
  method CompoundKey(ps: seq<Policy>, run: TaskRun) returns (key: Option<Key>)
    ensures key == ComputeKey(Compound(ps), run)
  {
    var keys: seq<Key> := [];
    assert ps[0..] == ps;
    for i := 0 to |ps|
      invariant keys + KeysOf(ps[i..], run) == KeysOf(ps, run)
    {
      var k := ComputeKey(ps[i], run);
      assert ps[i..][1..] == ps[i + 1..];
      Regroup(keys, Listed(k), KeysOf(ps[i + 1..], run));
      if k.Some? { keys := keys + [k.value]; }
    }
    assert ps[|ps|..] == [] && keys + [] == keys;
    if keys == [] { return None; }
    return Some(run.hashKeys(keys));
  }

  /** A dictionary with the given items, set in order. */
  function Dict(items: seq<(Name, string)>): map<Name, string> {
    if items == [] then map[] else Dict(items[..|items| - 1])[items[|items| - 1].0 := items[|items| - 1].1]
  }

  /** `Inputs.compute_key`: copy the inputs that are not excluded into a new dictionary, and hash it. */
  method KeyOfInputs(items: seq<(Name, string)>, exclude: set<Name>, run: TaskRun) returns (key: Option<Key>)
    requires run.inputs == Dict(items)
    ensures key == ComputeKey(Inputs(exclude), run)
  {
    if |items| == 0 { return None; }
    assert items[|items| - 1].0 in run.inputs;
    var hashed: map<Name, string> := map[];
    for i := 0 to |items|
      invariant hashed == Dict(items[..i]) - exclude
    {
      assert items[..i + 1][..i] == items[..i];
      if items[i].0 !in exclude { hashed := hashed[items[i].0 := items[i].1]; }
    }
    assert items[..|items|] == items;
    return Some(run.hashInputs(hashed));
  }

  /* ---------- Building ---------- */

  function Parts(p: Policy): seq<Policy> { if p.Compound? then p.policies else [p] }

  function Flatten(ps: seq<Policy>): seq<Policy> {
    if ps == [] then [] else Parts(ps[0]) + Flatten(ps[1..])
  }

  function WithoutInputs(ps: seq<Policy>): seq<Policy> {
    if ps == [] then [] else (if ps[0].Inputs? then [] else [ps[0]]) + WithoutInputs(ps[1..])
  }

  predicate HasInputs(ps: seq<Policy>) { ps != [] && (ps[0].Inputs? || HasInputs(ps[1..])) }

  function AllExcludes(ps: seq<Policy>): set<Name> {
    if ps == [] then {} else (if ps[0].Inputs? then ps[0].exclude else {}) + AllExcludes(ps[1..])
  }

  /** `__post_init__`: flatten compounds one level, keep one Inputs policy, last, with every exclusion. */
  function Normalised(ps: seq<Policy>): seq<Policy> {
    var flat := Flatten(ps);
    WithoutInputs(flat) + if HasInputs(flat) then [Inputs(AllExcludes(flat))] else []
  }

  method PostInit(policies: seq<Policy>) returns (r: seq<Policy>)
    ensures r == Normalised(policies)
  {
    var flat: seq<Policy> := [];
    assert policies[0..] == policies;
    for i := 0 to |policies|
      invariant flat + Flatten(policies[i..]) == Flatten(policies)
    {
      var part := Parts(policies[i]);
      assert policies[i..][1..] == policies[i + 1..];
      Regroup(flat, part, Flatten(policies[i + 1..]));
      flat := flat + part;
    }
    assert policies[|policies|..] == [] && flat + [] == flat;
    r := Deduplicate(flat);
  }

  /** The second half of `__post_init__`. */
  method Deduplicate(flat: seq<Policy>) returns (r: seq<Policy>)
    ensures r == WithoutInputs(flat) + if HasInputs(flat) then [Inputs(AllExcludes(flat))] else []
  {
    var found, excludes := false, {};
    r := [];
    assert flat[0..] == flat;
    for i := 0 to |flat|
      invariant HasInputs(flat) == (found || HasInputs(flat[i..]))
      invariant AllExcludes(flat) == excludes + AllExcludes(flat[i..])
      invariant WithoutInputs(flat) == r + WithoutInputs(flat[i..])
    {
      var p, before := flat[i], r;
      assert flat[i..][0] == p && flat[i..][1..] == flat[i + 1..];
      if p.Inputs? {
        found, excludes := true, excludes + p.exclude;
      } else {
        r := r + [p];
        Regroup(before, [p], WithoutInputs(flat[i + 1..]));
      }
    }
    assert flat[|flat|..] == [];
    if found { r := r + [Inputs(excludes)]; }
  }

  /** `+`, by the class of the left operand. Adding NONE to a compound keeps it as a member. */
  function Add(a: Policy, b: Policy): Policy {
    match a
    case NoCache => b
    case Compound(ps) => Compound(Normalised(ps + if b.Compound? then b.policies else [b]))
    case _ => if b.NoCache? then a else Compound(Normalised([a, b]))
  }

  /** `-`, which only Inputs policies and compounds with one react to. */
  function Sub(a: Policy, n: Name): Policy {
    match a
    case Inputs(ex) => Inputs(ex + {n})
    case Compound(ps) => if HasInputs(ps) then Compound(Normalised(ps + [Inputs({n})])) else a
    case _ => a
  }

  /* ---------- Expressions and their meaning ---------- */

  datatype Expr =
    | NoneAtom
    | LeafAtom(id: nat)
    | InputsAtom(exclude: set<Name>)
    | Plus(left: Expr, right: Expr)
    | Minus(body: Expr, name: Name)

  function Build(e: Expr): Policy {
    match e
    case NoneAtom => NoCache
    case LeafAtom(i) => Leaf(i)
    case InputsAtom(ex) => Inputs(ex)
    case Plus(l, r) => Add(Build(l), Build(r))
    case Minus(b, n) => Sub(Build(b), n)
  }

  /** The leaves other than NONE and Inputs, left to right; whether there is an Inputs policy; and the
      names it excludes. */
  datatype Summary = Summary(leaves: seq<nat>, inputs: bool, excluded: set<Name>)

  const EMPTY := Summary([], false, {})

  function Join(a: Summary, b: Summary): Summary {
    Summary(a.leaves + b.leaves, a.inputs || b.inputs, a.excluded + b.excluded)
  }

  /** Exclusions add up over the whole expression, and a subtracted name counts if what it is
      subtracted from contains an Inputs policy. */
  function Summarise(e: Expr): Summary {
    match e
    case NoneAtom => EMPTY
    case LeafAtom(i) => Summary([i], false, {})
    case InputsAtom(ex) => Summary([], true, ex)
    case Plus(l, r) => Join(Summarise(l), Summarise(r))
    case Minus(b, n) => var s := Summarise(b); if s.inputs then s.(excluded := s.excluded + {n}) else s
  }

  /** How many leaves other than NONE there are. */
  function Count(e: Expr): nat {
    match e
    case NoneAtom => 0
    case Plus(l, r) => Count(l) + Count(r)
    case Minus(b, _) => Count(b)
    case _ => 1
  }

  /** The keys of the leaves in order, without those that have none. */
  function LeafKeys(ids: seq<nat>, run: TaskRun): seq<Key> {
    if ids == [] then []
    else (match run.leaf(ids[0]) case Some(k) => [k] case None => []) + LeafKeys(ids[1..], run)
  }

  /** Inputs give a key only if there are any. */
  function SummaryKeys(s: Summary, run: TaskRun): seq<Key> {
    LeafKeys(s.leaves, run) + if s.inputs && run.inputs != map[] then [run.hashInputs(run.inputs - s.excluded)] else []
  }

  /** The flat meaning of an expression: with one leaf other than NONE its own key, with more the hash of
      the keys of the leaves in order and then of the inputs that are not excluded. */
  function Meaning(e: Expr, run: TaskRun): Option<Key> {
    var keys := SummaryKeys(Summarise(e), run);
    if keys == [] then None else if Count(e) >= 2 then Some(run.hashKeys(keys)) else Some(keys[0])
  }

  /* ---------- Proof: + and - preserve the summary ---------- */

  function SummaryOf(p: Policy): Summary
    decreases p, 1
  {
    match p
    case NoCache => EMPTY
    case Leaf(i) => Summary([i], false, {})
    case Inputs(ex) => Summary([], true, ex)
    case Compound(ps) => SummaryOfAll(ps)
  }

  function SummaryOfAll(ps: seq<Policy>): Summary
    decreases ps, 0
  {
    if ps == [] then EMPTY else Join(SummaryOf(ps[0]), SummaryOfAll(ps[1..]))
  }

  lemma JoinLaws(a: Summary, b: Summary, c: Summary)
    ensures Join(Join(a, b), c) == Join(a, Join(b, c)) && Join(EMPTY, a) == a == Join(a, EMPTY)
  {
    assert (a.leaves + b.leaves) + c.leaves == a.leaves + (b.leaves + c.leaves);
    assert [] + a.leaves == a.leaves == a.leaves + [];
  }

  lemma {:induction false} SummaryAppend(a: seq<Policy>, b: seq<Policy>)
    ensures SummaryOfAll(a + b) == Join(SummaryOfAll(a), SummaryOfAll(b))
  {
    JoinLaws(SummaryOfAll(b), EMPTY, EMPTY);
    if a == [] {
      assert a + b == b;
    } else {
      assert (a + b)[1..] == a[1..] + b;
      SummaryAppend(a[1..], b);
      JoinLaws(SummaryOf(a[0]), SummaryOfAll(a[1..]), SummaryOfAll(b));
    }
  }

  lemma SummarySingle(p: Policy)
    ensures SummaryOfAll([p]) == SummaryOf(p)
  {
    JoinLaws(SummaryOf(p), EMPTY, EMPTY);
    assert [p][1..] == [];
  }

  lemma {:induction false} SummaryFlatten(ps: seq<Policy>)
    ensures SummaryOfAll(Flatten(ps)) == SummaryOfAll(ps)
  {
    if ps != [] {
      SummaryFlatten(ps[1..]);
      SummaryAppend(Parts(ps[0]), Flatten(ps[1..]));
      SummarySingle(ps[0]);
    }
  }

  /** A flat list: its summary is what deduplication collects. */
  lemma {:induction false} SummaryDeduplicated(ps: seq<Policy>)
    requires NoCompounds(ps)
    ensures var s := SummaryOfAll(ps);
            && SummaryOfAll(WithoutInputs(ps)) == Summary(s.leaves, false, {})
            && s.inputs == HasInputs(ps) && s.excluded == AllExcludes(ps) && (!s.inputs ==> s.excluded == {})
  {
    if ps != [] {
      SummaryDeduplicated(ps[1..]);
      var rest := WithoutInputs(ps[1..]);
      if ps[0].Inputs? {
        assert WithoutInputs(ps) == rest;
      } else {
        assert WithoutInputs(ps) == [ps[0]] + rest && ([ps[0]] + rest)[1..] == rest;
      }
    }
  }

  predicate NoCompounds(ps: seq<Policy>) { ps == [] || (!ps[0].Compound? && NoCompounds(ps[1..])) }

  /** Flat, with Inputs only at the end. */
  predicate Normal(ps: seq<Policy>) {
    ps == [] || (!ps[0].Compound? && (ps[0].Inputs? ==> |ps| == 1) && Normal(ps[1..]))
  }

  predicate FlatParts(ps: seq<Policy>) { ps == [] || (NoCompounds(Parts(ps[0])) && FlatParts(ps[1..])) }

  lemma {:induction false} NoCompoundsAppend(a: seq<Policy>, b: seq<Policy>)
    ensures NoCompounds(a + b) == (NoCompounds(a) && NoCompounds(b))
  {
    if a == [] { assert a + b == b; } else {
      assert (a + b)[1..] == a[1..] + b;
      NoCompoundsAppend(a[1..], b);
    }
  }

  lemma {:induction false} FlattenFlat(ps: seq<Policy>)
    requires FlatParts(ps)
    ensures NoCompounds(Flatten(ps))
  {
    if ps != [] {
      FlattenFlat(ps[1..]);
      NoCompoundsAppend(Parts(ps[0]), Flatten(ps[1..]));
    }
  }

  lemma {:induction false} DeduplicatedNormal(ps: seq<Policy>, tail: seq<Policy>)
    requires NoCompounds(ps) && (tail == [] || (|tail| == 1 && tail[0].Inputs?))
    ensures Normal(WithoutInputs(ps) + tail)
  {
    if ps == [] {
      assert WithoutInputs(ps) + tail == tail;
    } else {
      DeduplicatedNormal(ps[1..], tail);
      var rest := WithoutInputs(ps[1..]) + tail;
      if ps[0].Inputs? {
        assert WithoutInputs(ps) + tail == rest;
      } else {
        assert WithoutInputs(ps) + tail == [ps[0]] + rest && ([ps[0]] + rest)[1..] == rest;
      }
    }
  }

  /** `__post_init__` keeps the summary and establishes the normal form. */
  lemma NormalisedSummary(ps: seq<Policy>)
    requires FlatParts(ps)
    ensures Normal(Normalised(ps)) && SummaryOfAll(Normalised(ps)) == SummaryOfAll(ps)
  {
    var flat := Flatten(ps);
    FlattenFlat(ps);
    SummaryFlatten(ps);
    SummaryDeduplicated(flat);
    var tail := if HasInputs(flat) then [Inputs(AllExcludes(flat))] else [];
    DeduplicatedNormal(flat, tail);
    SummaryAppend(WithoutInputs(flat), tail);
    if tail != [] { SummarySingle(tail[0]); }
    assert SummaryOfAll(ps).leaves + [] == SummaryOfAll(ps).leaves;
  }

  /** What an expression builds. */
  ghost predicate Shaped(p: Policy, e: Expr) {
    && SummaryOf(p) == Summarise(e)
    && (p.NoCache? <==> Count(e) == 0) && (p.Compound? <==> Count(e) >= 2)
    && (p.Compound? ==> Normal(p.policies))
  }

  lemma {:induction false} NormalFlat(ps: seq<Policy>)
    requires Normal(ps)
    ensures NoCompounds(ps) && FlatParts(ps) && HasInputs(ps) == SummaryOfAll(ps).inputs
  {
    if ps != [] { NormalFlat(ps[1..]); }
  }

  lemma {:induction false} FlatPartsAppend(a: seq<Policy>, b: seq<Policy>)
    ensures FlatParts(a + b) == (FlatParts(a) && FlatParts(b))
  {
    if a == [] { assert a + b == b; } else {
      assert (a + b)[1..] == a[1..] + b;
      FlatPartsAppend(a[1..], b);
    }
  }

  lemma {:induction false} BuildShaped(e: Expr)
    ensures Shaped(Build(e), e)
  {
    match e
    case Plus(l, r) => BuildShaped(l); BuildShaped(r); AddShaped(Build(l), l, Build(r), r);
    case Minus(b, n) => BuildShaped(b); SubShaped(Build(b), b, n);
    case _ =>
  }

  lemma PartsFlat(p: Policy)
    requires p.Compound? ==> Normal(p.policies)
    ensures FlatParts([p]) && FlatParts(Parts(p)) && SummaryOfAll(Parts(p)) == SummaryOf(p)
  {
    SummarySingle(p);
    assert [p][1..] == [];
    if p.Compound? { NormalFlat(p.policies); }
  }

  lemma AddShaped(p: Policy, l: Expr, q: Policy, r: Expr)
    requires Shaped(p, l) && Shaped(q, r)
    ensures Shaped(Add(p, q), Plus(l, r))
  {
    JoinLaws(SummaryOf(p), EMPTY, EMPTY);
    JoinLaws(SummaryOf(q), EMPTY, EMPTY);
    PartsFlat(p);
    PartsFlat(q);
    if p.Compound? {
      FlatPartsAppend(p.policies, Parts(q));
      SummaryAppend(p.policies, Parts(q));
      NormalisedSummary(p.policies + Parts(q));
    } else if !p.NoCache? && !q.NoCache? {
      FlatPartsAppend([p], [q]);
      SummaryAppend([p], [q]);
      SummarySingle(p);
      SummarySingle(q);
      assert [p] + [q] == [p, q];
      NormalisedSummary([p, q]);
    }
  }

  lemma SubShaped(p: Policy, e: Expr, n: Name)
    requires Shaped(p, e)
    ensures Shaped(Sub(p, n), Minus(e, n))
  {
    if p.Compound? {
      NormalFlat(p.policies);
      PartsFlat(Inputs({n}));
      FlatPartsAppend(p.policies, [Inputs({n})]);
      SummaryAppend(p.policies, [Inputs({n})]);
      NormalisedSummary(p.policies + [Inputs({n})]);
    }
  }

  /* ---------- Proof: the key depends on the summary ---------- */

  lemma {:induction false} LeafKeysAppend(a: seq<nat>, b: seq<nat>, run: TaskRun)
    ensures LeafKeys(a + b, run) == LeafKeys(a, run) + LeafKeys(b, run)
  {
    if a == [] { assert a + b == b; } else {
      assert (a + b)[1..] == a[1..] + b;
      LeafKeysAppend(a[1..], b, run);
    }
  }

  lemma {:induction false} KeysOfNormal(ps: seq<Policy>, run: TaskRun)
    requires Normal(ps)
    ensures KeysOf(ps, run) == SummaryKeys(SummaryOfAll(ps), run)
  {
    if ps != [] {
      KeysOfNormal(ps[1..], run);
      if ps[0].Inputs? {
        assert ps[1..] == [] && LeafKeys([], run) == [];
        var k := InputsKey(ps[0].exclude, run);
        assert SummaryOfAll(ps) == Summary([], true, ps[0].exclude);
        assert KeysOf(ps, run) == Listed(k) + [] == [] + Listed(k);
      } else {
        LeafKeysOne(ps[0], run);
        SummaryKeysAfter(SummaryOf(ps[0]), SummaryOfAll(ps[1..]), run);
      }
    }
  }

  lemma SummaryKeysAfter(s: Summary, rest: Summary, run: TaskRun)
    requires !s.inputs && s.excluded == {}
    ensures SummaryKeys(Join(s, rest), run) == LeafKeys(s.leaves, run) + SummaryKeys(rest, run)
  {
    LeafKeysAppend(s.leaves, rest.leaves, run);
    assert Join(s, rest).excluded == rest.excluded;
  }

  lemma LeafKeysOne(p: Policy, run: TaskRun)
    requires p.Leaf? || p.NoCache?
    ensures LeafKeys(SummaryOf(p).leaves, run) == Listed(ComputeKey(p, run))
  {
    if p.Leaf? { assert [p.id][1..] == []; }
  }

  /** The policy built by any expression of `+` and `-` computes the key that the expression means. */
  lemma KeyIsMeaning(e: Expr, run: TaskRun)
    ensures ComputeKey(Build(e), run) == Meaning(e, run)
  {
    BuildShaped(e);
    var p := Build(e);
    if p.Compound? { KeysOfNormal(p.policies, run); } else if p.Leaf? { LeafKeysOne(p, run); }
  }

  /** A run without inputs gets no key from inputs: an expression whose only parts other than NONE are Inputs
      has no key there, and any other has the key that its leaves alone give it. */
  lemma NoInputsNoKey(e: Expr, run: TaskRun)
    requires run.inputs == map[]
    ensures Summarise(e).leaves == [] ==> ComputeKey(Build(e), run) == None
    ensures ComputeKey(Build(e), run) == None <==> LeafKeys(Summarise(e).leaves, run) == []
    ensures ComputeKey(Build(e), run).Some? && Count(e) >= 2 ==>
              ComputeKey(Build(e), run).value == run.hashKeys(LeafKeys(Summarise(e).leaves, run))
  {
    KeyIsMeaning(e, run);
    assert LeafKeys(Summarise(e).leaves, run) + [] == LeafKeys(Summarise(e).leaves, run);
  }

  /** Adding is associative as far as keys go. */
  lemma Associative(a: Expr, b: Expr, c: Expr, run: TaskRun)
    ensures ComputeKey(Build(Plus(Plus(a, b), c)), run) == ComputeKey(Build(Plus(a, Plus(b, c))), run)
  {
    KeyIsMeaning(Plus(Plus(a, b), c), run);
    KeyIsMeaning(Plus(a, Plus(b, c)), run);
    JoinLaws(Summarise(a), Summarise(b), Summarise(c));
    assert Summarise(Plus(a, b)) == Join(Summarise(a), Summarise(b)) && Count(Plus(a, b)) == Count(a) + Count(b);
    assert Summarise(Plus(b, c)) == Join(Summarise(b), Summarise(c)) && Count(Plus(b, c)) == Count(b) + Count(c);
    assert Summarise(Plus(Plus(a, b), c)) == Summarise(Plus(a, Plus(b, c)));
  }

  /** NONE is neutral on both sides as far as keys go. */
  lemma NoneNeutral(e: Expr, run: TaskRun)
    ensures ComputeKey(Build(Plus(e, NoneAtom)), run) == ComputeKey(Build(e), run) == ComputeKey(Build(Plus(NoneAtom, e)), run)
  {
    KeyIsMeaning(e, run);
    KeyIsMeaning(Plus(e, NoneAtom), run);
    KeyIsMeaning(Plus(NoneAtom, e), run);
    JoinLaws(Summarise(e), EMPTY, EMPTY);
    assert Summarise(Plus(e, NoneAtom)) == Summarise(e) == Summarise(Plus(NoneAtom, e));
  }

  lemma {:induction false} NormalAt(ps: seq<Policy>, i: nat)
    requires Normal(ps) && i < |ps|
    ensures !ps[i].Compound? && (ps[i].Inputs? ==> i == |ps| - 1)
  {
    if i > 0 { NormalAt(ps[1..], i - 1); }
  }

  /** Compounds stay flat: no compound inside, at most one Inputs policy, and that one last. */
  lemma Flat(e: Expr, i: nat)
    requires Build(e).Compound? && i < |Build(e).policies|
    ensures !Build(e).policies[i].Compound?
    ensures Build(e).policies[i].Inputs? ==> i == |Build(e).policies| - 1
  {
    BuildShaped(e);
    NormalAt(Build(e).policies, i);
  }

  /** Two task runs that differ only in their inputs. */
  ghost predicate SameButInputs(r1: TaskRun, r2: TaskRun) {
    r1.leaf == r2.leaf && r1.hashKeys == r2.hashKeys && r1.hashInputs == r2.hashInputs
  }

  lemma {:induction false} SameLeafKeys(ids: seq<nat>, r1: TaskRun, r2: TaskRun)
    requires SameButInputs(r1, r2)
    ensures LeafKeys(ids, r1) == LeafKeys(ids, r2)
  {
    if ids != [] { SameLeafKeys(ids[1..], r1, r2); }
  }

  /** Two runs with non-empty inputs that agree outside the excluded names get the same key. */
  lemma ExcludedInputsIgnored(e: Expr, r1: TaskRun, r2: TaskRun)
    requires SameButInputs(r1, r2) && r1.inputs != map[] && r2.inputs != map[]
    requires r1.inputs - Summarise(e).excluded == r2.inputs - Summarise(e).excluded
    ensures ComputeKey(Build(e), r1) == ComputeKey(Build(e), r2)
  {
    KeyIsMeaning(e, r1);
    KeyIsMeaning(e, r2);
    SameLeafKeys(Summarise(e).leaves, r1, r2);
  }

  /** With collision-free hashing nothing else is ignored: the keys of a policy with an Inputs part are
      equal exactly when the inputs agree outside the excluded names. */
  lemma OnlyExcludedInputsIgnored(e: Expr, r1: TaskRun, r2: TaskRun)
    requires SameButInputs(r1, r2) && r1.inputs != map[] && r2.inputs != map[] && Summarise(e).inputs
    requires forall a, b :: r1.hashInputs(a) == r1.hashInputs(b) ==> a == b
    requires forall a, b :: r1.hashKeys(a) == r1.hashKeys(b) ==> a == b
    ensures ComputeKey(Build(e), r1) == ComputeKey(Build(e), r2)
            <==> r1.inputs - Summarise(e).excluded == r2.inputs - Summarise(e).excluded
  {
    KeyIsMeaning(e, r1);
    KeyIsMeaning(e, r2);
    var s := Summarise(e);
    SameLeafKeys(s.leaves, r1, r2);
    OneLeaf(e);
    var before := LeafKeys(s.leaves, r1);
    var k1, k2 := r1.hashInputs(r1.inputs - s.excluded), r1.hashInputs(r2.inputs - s.excluded);
    assert (before + [k1])[|before|] == k1 && (before + [k2])[|before|] == k2;
  }

  lemma {:induction false} OneLeaf(e: Expr)
    ensures |Summarise(e).leaves| + (if Summarise(e).inputs then 1 else 0) <= Count(e)
  {
    match e
    case Plus(l, r) => OneLeaf(l); OneLeaf(r);
    case Minus(b, _) => OneLeaf(b);
    case _ =>
  }

  /** Where a name is subtracted matters: take two task runs with non-empty inputs that differ in the input
      `n` and in nothing else. With collision-free hashing their keys differ if `n` was subtracted from
      something without an Inputs policy and Inputs were added afterwards, and agree if `n` was subtracted
      from the sum. */
  lemma EarlySubtractionLost(e: Expr, n: Name, r1: TaskRun, r2: TaskRun)
    requires !Summarise(e).inputs
    requires SameButInputs(r1, r2) && r1.inputs != map[] && r2.inputs != map[]
    requires r1.inputs != r2.inputs && r1.inputs - {n} == r2.inputs - {n}
    requires forall a, b :: r1.hashInputs(a) == r1.hashInputs(b) ==> a == b
    requires forall a, b :: r1.hashKeys(a) == r1.hashKeys(b) ==> a == b
    ensures var early, late := Plus(Minus(e, n), InputsAtom({})), Minus(Plus(e, InputsAtom({})), n);
            && ComputeKey(Build(early), r1) != ComputeKey(Build(early), r2)
            && ComputeKey(Build(late), r1) == ComputeKey(Build(late), r2)
  {
    var early, late := Plus(Minus(e, n), InputsAtom({})), Minus(Plus(e, InputsAtom({})), n);
    NoInputsNoExclusions(e);
    assert Summarise(Minus(e, n)) == Summarise(e);
    assert Summarise(early).inputs && Summarise(early).excluded == {};
    assert Summarise(late).excluded == {n};
    OnlyExcludedInputsIgnored(early, r1, r2);
    assert r1.inputs - {} == r1.inputs && r2.inputs - {} == r2.inputs;
    ExcludedInputsIgnored(late, r1, r2);
  }

  lemma {:induction false} NoInputsNoExclusions(e: Expr)
    ensures !Summarise(e).inputs ==> Summarise(e).excluded == {}
  {
    match e
    case Plus(l, r) => NoInputsNoExclusions(l); NoInputsNoExclusions(r);
    case Minus(b, _) => NoInputsNoExclusions(b);
    case _ =>
  }
}
