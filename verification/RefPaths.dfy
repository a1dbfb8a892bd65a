/** The worklist of the settings reference generator: it records, for every referenced model, a dotted path
    of properties that leads to it. There is no visited set; references are simply followed. */
module RefPaths {
  import opened Wrappers

  /** A property of a schema and its direct `$ref`, if it has one. */
  datatype Prop = Prop(name: string, ref: Option<string>)
  datatype Schema = Schema(props: seq<Prop>)

  /** The root schema and its `$defs`. */
  datatype Graph = Graph(root: Schema, defs: map<string, Schema>)

  /** `ref.split("/")[-1]`. */
  function LastSegment(ref: string): string {
    if ref == "" then "" else if ref[|ref| - 1] == '/' then "" else LastSegment(ref[..|ref| - 1]) + [ref[|ref| - 1]]
  }

  /** Following one reference: through which property, to which name. */
  datatype Hop = Hop(prop: string, name: string)

  function NameOf(p: Prop): string
    requires p.ref.Some?
  {
    LastSegment(p.ref.value)
  }

  predicate Offers(s: Schema, h: Hop) {
    exists i :: 0 <= i < |s.props| && Is(s.props[i], h)
  }

  predicate Is(p: Prop, h: Hop) { p.ref.Some? && p.name == h.prop && NameOf(p) == h.name }

  /** The schema that hop `i` of a walk starts from. */
  predicate HopFrom(g: Graph, w: seq<Hop>, i: nat)
    requires i < |w|
  {
    if i == 0 then Offers(g.root, w[0]) else w[i - 1].name in g.defs && Offers(g.defs[w[i - 1].name], w[i])
  }

  /** `w` leads from the root through properties with direct references. */
  ghost predicate Leads(g: Graph, w: seq<Hop>) { forall i :: 0 <= i < |w| ==> HopFrom(g, w, i) }

  ghost predicate LeadsTo(g: Graph, w: seq<Hop>, name: string) { w != [] && Leads(g, w) && w[|w| - 1].name == name }

  /** The dotted path: a dot is put between two parts unless the path so far is empty. */
  function Dotted(w: seq<Hop>): string {
    if w == [] then "" else Extended(Dotted(w[..|w| - 1]), w[|w| - 1].prop)
  }

  /** The name of a reference is what follows its last slash. */
  lemma {:induction false} LastSegmentFollowsSlash(ref: string)
    ensures var n := |ref| - |LastSegment(ref)|;
            n >= 0 && ref[n..] == LastSegment(ref) && '/' !in LastSegment(ref) && (n > 0 ==> ref[n - 1] == '/')
  {
    if ref != "" && ref[|ref| - 1] != '/' {
      LastSegmentFollowsSlash(ref[..|ref| - 1]);
      var n := |ref| - |LastSegment(ref)|;
      assert ref[n..] == ref[..|ref| - 1][n..] + [ref[|ref| - 1]];
    }
  }

  /** Names joined by dots. */
  function Joined(names: seq<string>): string {
    if names == [] then "" else if |names| == 1 then names[0] else names[0] + "." + Joined(names[1..])
  }

  function Props(w: seq<Hop>): seq<string> { seq(|w|, i requires 0 <= i < |w| => w[i].prop) }

  /** The dotted path of a walk is the names of its properties joined by dots. */
  lemma {:induction false} DottedIsJoined(w: seq<Hop>)
    requires w != [] ==> w[0].prop != ""
    ensures Dotted(w) == Joined(Props(w)) && (w != [] ==> Dotted(w) != "")
  {
    if w != [] {
      var n := |w| - 1;
      DottedIsJoined(w[..n]);
      assert Props(w) == Props(w[..n]) + [w[n].prop] && Props(w)[0] == w[0].prop;
      if n > 0 { JoinedSnoc(Props(w[..n]), w[n].prop); }
    }
  }

  lemma {:induction false} JoinedSnoc(names: seq<string>, name: string)
    requires names != []
    ensures Joined(names + [name]) == Joined(names) + "." + name
  {
    assert (names + [name])[1..] == names[1..] + [name];
    if |names| > 1 {
      JoinedSnoc(names[1..], name);
    } else {
      assert names[1..] + [name] == [name];
    }
  }

  function Extended(path: string, prop: string): string { if path != "" then path + "." + prop else prop }

  /** `w` is one of the deepest ways to `name`. */
  ghost predicate Deepest(g: Graph, w: seq<Hop>, name: string) {
    LeadsTo(g, w, name) && forall v :: LeadsTo(g, v, name) ==> |v| <= |w|
  }

  /** The names reachable from the root, ranked so that references go strictly down: no cycle. */
  datatype Ranking = Ranking(reach: set<string>, rank: string -> nat)

  ghost predicate Below(g: Graph, o: Ranking, props: seq<Prop>, bound: nat) {
    forall i :: 0 <= i < |props| && props[i].ref.Some? && NameOf(props[i]) in g.defs
      ==> NameOf(props[i]) in o.reach && o.rank(NameOf(props[i])) < bound
  }

  ghost predicate Acyclic(g: Graph, o: Ranking) {
    && (exists bound :: Below(g, o, g.root.props, bound))
    && (forall n :: n in o.reach && n in g.defs ==> Below(g, o, g.defs[n].props, o.rank(n)))
  }

  /* ---------- Cycles ---------- */

  /** Some walk from the root comes back to a name. */
  ghost predicate Cyclic(g: Graph) { exists w: seq<Hop>, i, j :: 0 <= i < j < |w| && Leads(g, w) && Same(w, i, j) }

  predicate Same(w: seq<Hop>, i: nat, j: nat)
    requires i < |w| && j < |w|
  {
    w[i].name == w[j].name
  }

  /** `w` leads on from the definition `n`. */
  ghost predicate Onward(g: Graph, n: string, w: seq<Hop>) {
    n in g.defs && w != [] && Offers(g.defs[n], w[0]) && forall i :: 1 <= i < |w| ==> HopFrom(g, w, i)
  }

  ghost predicate Connects(g: Graph, n: string, m: string) { exists w: seq<Hop> :: Onward(g, n, w) && w[|w| - 1].name == m }

  ghost function Beyond(g: Graph, n: string): set<string> { set m | m in g.defs && Connects(g, n, m) }

  ghost predicate Reached(g: Graph, n: string) { exists w :: LeadsTo(g, w, n) }

  /** Ranked by how many definitions lie beyond. */
  ghost function Ranked(g: Graph): Ranking {
    Ranking((set n | n in g.defs && Reached(g, n)), n => |Beyond(g, n)|)
  }

  /** Without a cycle the ranking exists. */
  lemma NoCycleRanked(g: Graph)
    requires !Cyclic(g)
    ensures Acyclic(g, Ranked(g))
  {
    var o, props := Ranked(g), g.root.props;
    forall i | 0 <= i < |props| && props[i].ref.Some? && NameOf(props[i]) in g.defs
      ensures NameOf(props[i]) in o.reach && o.rank(NameOf(props[i])) < |g.defs.Keys| + 1
    {
      var h := Hop(props[i].name, NameOf(props[i]));
      assert Is(props[i], h) && LeadsTo(g, [h], h.name);
      SubsetSize(Beyond(g, h.name), g.defs.Keys);
    }
    assert Below(g, o, props, |g.defs.Keys| + 1);
    forall n | n in o.reach && n in g.defs ensures Below(g, o, g.defs[n].props, o.rank(n)) {
      var w :| LeadsTo(g, w, n);
      forall p | p in g.defs[n].props && p.ref.Some? && NameOf(p) in g.defs
        ensures NameOf(p) in o.reach && o.rank(NameOf(p)) < o.rank(n)
      {
        RankFalls(g, w, n, p);
      }
    }
  }

  lemma {:induction false} SubsetSize(a: set<string>, b: set<string>)
    requires a <= b
    ensures |a| <= |b|
  {
    if a != {} {
      var x :| x in a;
      SubsetSize(a - {x}, b - {x});
    }
  }

  lemma RankFalls(g: Graph, w: seq<Hop>, n: string, p: Prop)
    requires !Cyclic(g) && LeadsTo(g, w, n) && n in g.defs
    requires p in g.defs[n].props && p.ref.Some? && NameOf(p) in g.defs
    ensures Reached(g, NameOf(p)) && |Beyond(g, NameOf(p))| < |Beyond(g, n)|
  {
    var h := Hop(p.name, NameOf(p));
    var i :| 0 <= i < |g.defs[n].props| && g.defs[n].props[i] == p;
    assert Is(g.defs[n].props[i], h) && Offers(g.defs[n], h);
    LeadsSnoc(g, w, h);
    assert LeadsTo(g, w + [h], h.name);
    OneHop(g, n, h);
    forall m | m in Beyond(g, h.name) ensures m in Beyond(g, n) && m != h.name {
      HopThen(g, n, h, m);
      if Connects(g, h.name, h.name) { BackAgain(g, w + [h]); }
    }
    SubsetSize(Beyond(g, h.name) + {h.name}, Beyond(g, n));
  }

  lemma OneHop(g: Graph, n: string, h: Hop)
    requires n in g.defs && Offers(g.defs[n], h)
    ensures Connects(g, n, h.name)
  {
    assert Onward(g, n, [h]) && [h][|[h]| - 1].name == h.name;
  }

  lemma HopThen(g: Graph, n: string, h: Hop, m: string)
    requires n in g.defs && Offers(g.defs[n], h) && Connects(g, h.name, m)
    ensures Connects(g, n, m)
  {
    var v: seq<Hop> :| Onward(g, h.name, v) && v[|v| - 1].name == m;
    var u := [h] + v;
    forall i | 1 <= i < |u| ensures HopFrom(g, u, i) {
      if i > 1 { assert HopFrom(g, v, i - 1); }
    }
    assert Onward(g, n, u) && u[|u| - 1].name == m;
  }

  lemma BackAgain(g: Graph, w: seq<Hop>)
    requires w != [] && Leads(g, w) && Connects(g, w[|w| - 1].name, w[|w| - 1].name)
    ensures Cyclic(g)
  {
    var v: seq<Hop> :| Onward(g, w[|w| - 1].name, v) && v[|v| - 1].name == w[|w| - 1].name;
    WalkOn(g, w, v);
    assert Same(w + v, |w| - 1, |w| + |v| - 1);
  }

  lemma {:induction false} WalkOn(g: Graph, w: seq<Hop>, v: seq<Hop>)
    requires w != [] && Leads(g, w) && Onward(g, w[|w| - 1].name, v)
    ensures Leads(g, w + v)
  {
    var u := w + v;
    forall i | 0 <= i < |u| ensures HopFrom(g, u, i) {
      if i < |w| { assert HopFrom(g, w, i); } else if i > |w| { assert HopFrom(g, v, i - |w|); }
    }
  }

  /** What scanning one schema appends to the worklist. */
  function Appended(g: Graph, path: string, props: seq<Prop>): seq<Entry> {
    if props == [] then []
    else
      var p := props[|props| - 1];
      Appended(g, path, props[..|props| - 1])
      + if p.ref.Some? && NameOf(p) in g.defs then [Entry(Extended(path, p.name), g.defs[NameOf(p)])] else []
  }

  lemma AppendedStep(g: Graph, q: seq<Entry>, path: string, props: seq<Prop>, j: nat)
    requires j < |props|
    ensures var p := props[j];
            q + Appended(g, path, props[..j + 1]) ==
            if p.ref.Some? && NameOf(p) in g.defs
            then q + Appended(g, path, props[..j]) + [Entry(Extended(path, p.name), g.defs[NameOf(p)])]
            else q + Appended(g, path, props[..j])
  {
    assert props[..j + 1][..j] == props[..j];
    assert Appended(g, path, props[..j]) + [] == Appended(g, path, props[..j]);
  }

  /** The worklist after `n` rounds; an empty one stays empty. */
  function After(g: Graph, n: nat): seq<Entry> {
    if n == 0 then [Entry("", g.root)]
    else
      var q := After(g, n - 1);
      if q == [] then [] else q[1..] + Appended(g, q[0].path, q[0].schema.props)
  }

  /** On a cycle the worklist is not empty after any number of rounds. */
  lemma CycleNeverEnds(g: Graph, n: nat)
    requires Cyclic(g)
    ensures After(g, n) != []
  {
    var w: seq<Hop>, i, j :| 0 <= i < j < |w| && Leads(g, w) && Same(w, i, j);
    var names := set k | 0 <= k <= j :: w[k].name;
    NextInto(g, w, i, j, names, -1);
    forall m | m in names && m in g.defs ensures OffersInto(g, g.defs[m], names) {
      var k :| 0 <= k <= j && w[k].name == m;
      NextInto(g, w, i, j, names, if k < j then k else i);
    }
    assert Closed(g, names);
    StaysBusy(g, names, n);
  }

  lemma NextInto(g: Graph, w: seq<Hop>, i: nat, j: nat, names: set<string>, k: int)
    requires i < j < |w| && Leads(g, w) && Same(w, i, j) && -1 <= k < j
    requires forall l :: 0 <= l <= j ==> w[l].name in names
    ensures k == -1 ==> OffersInto(g, g.root, names)
    ensures k >= 0 ==> w[k].name in g.defs && OffersInto(g, g.defs[w[k].name], names)
  {
    assert HopFrom(g, w, k + 1);
    assert HopFrom(g, w, if k + 1 == j then i + 1 else k + 2);
  }

  /** `s` has a reference to a definition among `names`. */
  ghost predicate OffersInto(g: Graph, s: Schema, names: set<string>) {
    exists h :: Offers(s, h) && h.name in names && h.name in g.defs
  }

  ghost predicate Closed(g: Graph, names: set<string>) {
    forall m {:trigger OffersInto(g, g.defs[m], names)} :: m in names && m in g.defs ==> OffersInto(g, g.defs[m], names)
  }

  ghost predicate Busy(g: Graph, q: seq<Entry>, names: set<string>) {
    exists i :: 0 <= i < |q| && OffersInto(g, q[i].schema, names)
  }

  lemma {:induction false} StaysBusy(g: Graph, names: set<string>, n: nat)
    requires OffersInto(g, g.root, names)
    requires Closed(g, names)
    ensures Busy(g, After(g, n), names)
  {
    if n == 0 {
      assert OffersInto(g, After(g, 0)[0].schema, names);
    } else {
      StaysBusy(g, names, n - 1);
      RoundBusy(g, After(g, n - 1), names);
    }
  }

  lemma RoundBusy(g: Graph, q: seq<Entry>, names: set<string>)
    requires Busy(g, q, names) && Closed(g, names)
    ensures Busy(g, q[1..] + Appended(g, q[0].path, q[0].schema.props), names)
  {
    var i :| 0 <= i < |q| && OffersInto(g, q[i].schema, names);
    var more := Appended(g, q[0].path, q[0].schema.props);
    if i > 0 {
      assert (q[1..] + more)[i - 1] == q[i];
    } else {
      var l := AppendedOffers(g, q[0], names);
      assert (q[1..] + more)[|q| - 1 + l] == more[l];
    }
  }

  lemma AppendedOffers(g: Graph, e: Entry, names: set<string>) returns (l: nat)
    requires OffersInto(g, e.schema, names) && Closed(g, names)
    ensures var more := Appended(g, e.path, e.schema.props); l < |more| && OffersInto(g, more[l].schema, names)
  {
    var h :| Offers(e.schema, h) && h.name in names && h.name in g.defs;
    var k :| 0 <= k < |e.schema.props| && Is(e.schema.props[k], h);
    assert OffersInto(g, g.defs[h.name], names);
    l := AppendedHas(g, e.path, e.schema.props, k);
  }

  lemma {:induction false} AppendedHas(g: Graph, path: string, props: seq<Prop>, k: nat) returns (l: nat)
    requires k < |props| && props[k].ref.Some? && NameOf(props[k]) in g.defs
    ensures var more := Appended(g, path, props); l < |more| && more[l].schema == g.defs[NameOf(props[k])]
  {
    if k == |props| - 1 {
      l := |Appended(g, path, props[..k])|;
    } else {
      l := AppendedHas(g, path, props[..|props| - 1], k);
    }
  }

  /* ---------- Termination ---------- */

  /** How many entries the references of `props` will ever put on the worklist. */
  ghost function Weight(g: Graph, o: Ranking, props: seq<Prop>, bound: nat): nat
    requires Acyclic(g, o) && Below(g, o, props, bound)
    decreases bound, |props|
  {
    if props == [] then 0
    else
      (if props[0].ref.Some? && NameOf(props[0]) in g.defs
       then 1 + Weight(g, o, g.defs[NameOf(props[0])].props, o.rank(NameOf(props[0]))) else 0)
      + Weight(g, o, props[1..], bound)
  }

  /** An entry of the worklist: the path so far and the schema to scan. */
  datatype Entry = Entry(path: string, schema: Schema)

  /** What is known about an entry: how it was reached, and a bound on the ranks below it. */
  datatype Note = Note(walk: seq<Hop>, bound: nat)

  ghost predicate Noted(g: Graph, o: Ranking, e: Entry, n: Note) {
    && Leads(g, n.walk) && e.path == Dotted(n.walk) && Below(g, o, e.schema.props, n.bound)
    && (if n.walk == [] then e.schema == g.root
        else n.walk[|n.walk| - 1].name in g.defs && e.schema == g.defs[n.walk[|n.walk| - 1].name])
  }

  ghost predicate AllNoted(g: Graph, o: Ranking, queue: seq<Entry>, notes: seq<Note>) {
    |notes| == |queue| && forall i :: 0 <= i < |queue| ==> Noted(g, o, queue[i], notes[i])
  }

  ghost function Total(g: Graph, o: Ranking, queue: seq<Entry>, notes: seq<Note>): nat
    requires Acyclic(g, o) && AllNoted(g, o, queue, notes)
  {
    if queue == [] then 0
    else 1 + Weight(g, o, queue[0].schema.props, notes[0].bound) + Total(g, o, queue[1..], notes[1..])
  }

  lemma {:induction false} TotalSnoc(g: Graph, o: Ranking, queue: seq<Entry>, notes: seq<Note>, e: Entry, n: Note)
    requires Acyclic(g, o) && AllNoted(g, o, queue, notes) && Noted(g, o, e, n)
    ensures AllNoted(g, o, queue + [e], notes + [n])
    ensures Total(g, o, queue + [e], notes + [n]) == Total(g, o, queue, notes) + 1 + Weight(g, o, e.schema.props, n.bound)
  {
    if queue == [] {
      assert queue + [e] == [e] && notes + [n] == [n];
    } else {
      assert (queue + [e])[1..] == queue[1..] + [e] && (notes + [n])[1..] == notes[1..] + [n];
      TotalSnoc(g, o, queue[1..], notes[1..], e, n);
    }
  }

  /* ---------- Progress ---------- */

  ghost predicate Prefix(u: seq<Hop>, w: seq<Hop>) { |u| < |w| && w[..|u|] == u }

  /** Breadth first: depths along the worklist never decrease, and span at most two levels, which start
      at `depth`. */
  ghost predicate Levelled(notes: seq<Note>, depth: nat) {
    && (forall i, j :: 0 <= i < j < |notes| ==> |notes[i].walk| <= |notes[j].walk|)
    && (forall i :: 0 <= i < |notes| ==> depth <= |notes[i].walk| <= depth + 1)
  }

  /** What was recorded so far are walks no deeper than `depth + 1`. */
  ghost predicate Recorded(g: Graph, paths: map<string, string>, best: map<string, seq<Hop>>, depth: nat) {
    && paths.Keys == best.Keys
    && forall r :: r in best ==> LeadsTo(g, best[r], r) && paths[r] == Dotted(best[r]) && |best[r]| <= depth + 1
  }

  /** The walk `w` has been dealt with: its end is recorded at least as deep. */
  ghost predicate Done(best: map<string, seq<Hop>>, w: seq<Hop>)
    requires w != []
  {
    var r := w[|w| - 1].name; r in best && |w| <= |best[r]|
  }

  ghost predicate Queued(notes: seq<Note>, w: seq<Hop>) { exists i :: 0 <= i < |notes| && Prefix(notes[i].walk, w) }

  /** The walk `w` goes on from `u` through a property not scanned yet. */
  ghost predicate Ahead(u: seq<Hop>, props: seq<Prop>, from: nat, w: seq<Hop>) {
    Prefix(u, w) && exists j :: from <= j < |props| && Is(props[j], w[|u|])
  }

  lemma LeadsSnoc(g: Graph, u: seq<Hop>, h: Hop)
    requires Leads(g, u)
    requires if u == [] then Offers(g.root, h) else u[|u| - 1].name in g.defs && Offers(g.defs[u[|u| - 1].name], h)
    ensures Leads(g, u + [h])
  {
    var w := u + [h];
    forall i | 0 <= i < |w| ensures HopFrom(g, w, i) {
      if i < |u| { assert HopFrom(g, u, i); }
    }
  }

  /** Round by round the loop does what `After` says, and without a cycle it ends. */
  method BuildRefPaths(g: Graph) returns (paths: map<string, string>)
    requires !Cyclic(g)
    ensures forall r :: r in paths <==> exists w :: LeadsTo(g, w, r)
    ensures forall r :: r in paths ==> exists w :: Deepest(g, w, r) && paths[r] == Dotted(w)
  {
    ghost var o := Ranked(g);
    NoCycleRanked(g);
    paths := map[];
    var queue := [Entry("", g.root)];
    ghost var rounds: nat := 0;
    ghost var b :| Below(g, o, g.root.props, b);
    ghost var notes, best := [Note([], b)], map[];
    ghost var depth: nat := 0;
    while queue != []
      invariant AllNoted(g, o, queue, notes) && Levelled(notes, depth) && Recorded(g, paths, best, depth)
      invariant forall w :: w != [] && Leads(g, w) ==> Done(best, w) || Queued(notes, w)
      invariant queue == After(g, rounds)
      decreases Total(g, o, queue, notes)
    {
      var e := queue[0];
      ghost var n := notes[0];
      Popped(g, o, queue, notes, best, depth);
      queue, notes := queue[1..], notes[1..];
      paths, queue, notes, best := Scan(g, o, e, n, paths, queue, notes, best);
      depth, rounds := |n.walk|, rounds + 1;
    }
    AllDone(g, paths, best, depth);
  }

  lemma Popped(g: Graph, o: Ranking, queue: seq<Entry>, notes: seq<Note>, best: map<string, seq<Hop>>, depth: nat)
    requires queue != [] && AllNoted(g, o, queue, notes) && Levelled(notes, depth)
    requires forall w :: w != [] && Leads(g, w) ==> Done(best, w) || Queued(notes, w)
    ensures AllNoted(g, o, queue[1..], notes[1..]) && Levelled(notes[1..], |notes[0].walk|)
    ensures forall w :: w != [] && Leads(g, w) ==> Done(best, w) || Queued(notes[1..], w) || Prefix(notes[0].walk, w)
  {
    forall w | w != [] && Leads(g, w) && !Done(best, w)
      ensures Queued(notes[1..], w) || Prefix(notes[0].walk, w)
    {
      var i :| 0 <= i < |notes| && Prefix(notes[i].walk, w);
      if i > 0 { assert notes[1..][i - 1] == notes[i]; }
    }
  }

  lemma AllDone(g: Graph, paths: map<string, string>, best: map<string, seq<Hop>>, depth: nat)
    requires Recorded(g, paths, best, depth) && forall w :: w != [] && Leads(g, w) ==> Done(best, w)
    ensures forall r :: r in paths <==> exists w :: LeadsTo(g, w, r)
    ensures forall r :: r in paths ==> exists w :: Deepest(g, w, r) && paths[r] == Dotted(w)
  {
    forall r ensures r in paths <==> exists w :: LeadsTo(g, w, r) {
      if r in paths { assert LeadsTo(g, best[r], r); }
      if w :| LeadsTo(g, w, r) { assert Done(best, w); }
    }
    forall r | r in paths ensures exists w :: Deepest(g, w, r) && paths[r] == Dotted(w) {
      forall v | LeadsTo(g, v, r) ensures |v| <= |best[r]| { assert Done(best, v); }
      assert Deepest(g, best[r], r);
    }
  }

  /** The inner loop has come to property `j` of a schema reached by `u`. */
  ghost predicate Scanning(g: Graph, o: Ranking, u: seq<Hop>, props: seq<Prop>, j: nat, paths: map<string, string>,
                           queue: seq<Entry>, notes: seq<Note>, best: map<string, seq<Hop>>) {
    && AllNoted(g, o, queue, notes) && Levelled(notes, |u|) && Recorded(g, paths, best, |u|)
    && forall w :: w != [] && Leads(g, w) ==> Done(best, w) || Queued(notes, w) || Ahead(u, props, j, w)
  }

  /** Scan one schema, recording every reference and appending the defined ones. */
  method Scan(g: Graph, ghost o: Ranking, e: Entry, ghost n: Note, paths0: map<string, string>, queue0: seq<Entry>,
              ghost notes0: seq<Note>, ghost best0: map<string, seq<Hop>>)
    returns (paths: map<string, string>, queue: seq<Entry>, ghost notes: seq<Note>, ghost best: map<string, seq<Hop>>)
    requires Acyclic(g, o) && Noted(g, o, e, n) && AllNoted(g, o, queue0, notes0)
    requires Levelled(notes0, |n.walk|) && Recorded(g, paths0, best0, |n.walk|)
    requires forall w :: w != [] && Leads(g, w) ==> Done(best0, w) || Queued(notes0, w) || Prefix(n.walk, w)
    ensures AllNoted(g, o, queue, notes) && Levelled(notes, |n.walk|) && Recorded(g, paths, best, |n.walk|)
    ensures forall w :: w != [] && Leads(g, w) ==> Done(best, w) || Queued(notes, w)
    ensures Total(g, o, queue, notes) == Total(g, o, queue0, notes0) + Weight(g, o, e.schema.props, n.bound)
    ensures queue == queue0 + Appended(g, e.path, e.schema.props)
  {
    paths, queue, notes, best := paths0, queue0, notes0, best0;
    var props := e.schema.props;
    forall w | Leads(g, w) && Prefix(n.walk, w) ensures Ahead(n.walk, props, 0, w) {
      assert HopFrom(g, w, |n.walk|) && w[..|n.walk|] == n.walk;
    }
    assert props[0..] == props;
    for j := 0 to |props|
      invariant Scanning(g, o, n.walk, props, j, paths, queue, notes, best)
      invariant queue == queue0 + Appended(g, e.path, props[..j])
      invariant Below(g, o, props[j..], n.bound)
      invariant Total(g, o, queue, notes) + Weight(g, o, props[j..], n.bound)
             == Total(g, o, queue0, notes0) + Weight(g, o, props, n.bound)
    {
      var p := props[j];
      var newPath := Extended(e.path, p.name);
      WeightStep(g, o, props, j, n.bound);
      AppendedStep(g, queue0, e.path, props, j);
      if p.ref.Some? {
        var name := NameOf(p);
        ghost var walk := n.walk + [Hop(p.name, name)];
        ghost var note := Note(walk, o.rank(name));
        RecordStep(g, o, e, n, j, paths, queue, notes, best);
        paths, best := paths[name := newPath], best[name := walk];
        if name in g.defs {
          queue, notes := queue + [Entry(newPath, g.defs[name])], notes + [note];
        }
      } else {
        SkipStep(g, o, n.walk, props, j, paths, queue, notes, best);
      }
    }
    assert props[..|props|] == props;
  }

  lemma WeightStep(g: Graph, o: Ranking, props: seq<Prop>, j: nat, bound: nat)
    requires Acyclic(g, o) && j < |props| && Below(g, o, props[j..], bound)
    ensures Below(g, o, props[j + 1..], bound)
    ensures var p := props[j];
            && (p.ref.Some? && NameOf(p) in g.defs ==>
                  NameOf(p) in o.reach && o.rank(NameOf(p)) < bound && Below(g, o, g.defs[NameOf(p)].props, o.rank(NameOf(p))))
            && Weight(g, o, props[j..], bound) == Weight(g, o, props[j + 1..], bound)
               + if p.ref.Some? && NameOf(p) in g.defs then 1 + Weight(g, o, g.defs[NameOf(p)].props, o.rank(NameOf(p))) else 0
  {
    var rest := props[j..];
    assert rest[0] == props[j] && rest[1..] == props[j + 1..];
    var tail := props[j + 1..];
    forall i | 0 <= i < |tail| ensures tail[i] == rest[i + 1] {}
  }

  lemma SkipStep(g: Graph, o: Ranking, u: seq<Hop>, props: seq<Prop>, j: nat, paths: map<string, string>,
                 queue: seq<Entry>, notes: seq<Note>, best: map<string, seq<Hop>>)
    requires j < |props| && props[j].ref.None? && Scanning(g, o, u, props, j, paths, queue, notes, best)
    ensures Scanning(g, o, u, props, j + 1, paths, queue, notes, best)
  {
    forall w | w != [] && Leads(g, w) && Ahead(u, props, j, w) ensures Ahead(u, props, j + 1, w) {}
  }

  lemma RecordStep(g: Graph, o: Ranking, e: Entry, n: Note, j: nat, paths: map<string, string>,
                   queue: seq<Entry>, notes: seq<Note>, best: map<string, seq<Hop>>)
    requires Acyclic(g, o) && Noted(g, o, e, n) && j < |e.schema.props| && e.schema.props[j].ref.Some?
    requires Scanning(g, o, n.walk, e.schema.props, j, paths, queue, notes, best)
    ensures var p := e.schema.props[j];
            var name, newPath := NameOf(p), Extended(e.path, p.name);
            var walk := n.walk + [Hop(p.name, name)];
            var paths', best' := paths[name := newPath], best[name := walk];
            if name in g.defs then
              var child, note := Entry(newPath, g.defs[name]), Note(walk, o.rank(name));
              && Scanning(g, o, n.walk, e.schema.props, j + 1, paths', queue + [child], notes + [note], best')
              && Below(g, o, child.schema.props, note.bound)
              && Total(g, o, queue + [child], notes + [note])
                 == Total(g, o, queue, notes) + 1 + Weight(g, o, child.schema.props, note.bound)
            else Scanning(g, o, n.walk, e.schema.props, j + 1, paths', queue, notes, best')
  {
    var props, p := e.schema.props, e.schema.props[j];
    var name := NameOf(p);
    var h := Hop(p.name, name);
    var walk := n.walk + [h];
    NewWalk(g, o, e, n, j);
    RecordedAlso(g, paths, best, |n.walk|, walk, name);
    var best' := best[name := walk];
    var notes' := notes;
    if name in g.defs {
      var child, note := Entry(Extended(e.path, p.name), g.defs[name]), Note(walk, o.rank(name));
      TotalSnoc(g, o, queue, notes, child, note);
      LevelledSnoc(notes, |n.walk|, note);
      notes' := notes + [note];
    }
    forall w | w != [] && Leads(g, w) ensures Done(best', w) || Queued(notes', w) || Ahead(n.walk, props, j + 1, w) {
      StillCovered(g, n.walk, props, j, h, best, notes, best', notes', w);
    }
  }

  lemma NewWalk(g: Graph, o: Ranking, e: Entry, n: Note, j: nat)
    requires Acyclic(g, o) && Noted(g, o, e, n) && j < |e.schema.props| && e.schema.props[j].ref.Some?
    ensures var p := e.schema.props[j];
            var name, walk := NameOf(p), n.walk + [Hop(p.name, NameOf(p))];
            && LeadsTo(g, walk, name) && Dotted(walk) == Extended(e.path, p.name)
            && (name in g.defs ==> Noted(g, o, Entry(Extended(e.path, p.name), g.defs[name]), Note(walk, o.rank(name))))
  {
    var p := e.schema.props[j];
    var h := Hop(p.name, NameOf(p));
    assert Is(p, h) && Offers(e.schema, h);
    LeadsSnoc(g, n.walk, h);
    var walk := n.walk + [h];
    assert walk[..|walk| - 1] == n.walk;
  }

  lemma RecordedAlso(g: Graph, paths: map<string, string>, best: map<string, seq<Hop>>, depth: nat, walk: seq<Hop>, name: string)
    requires Recorded(g, paths, best, depth) && LeadsTo(g, walk, name) && |walk| == depth + 1
    ensures Recorded(g, paths[name := Dotted(walk)], best[name := walk], depth)
  {}

  lemma LevelledSnoc(notes: seq<Note>, depth: nat, note: Note)
    requires Levelled(notes, depth) && |note.walk| == depth + 1
    ensures Levelled(notes + [note], depth)
  {}

  lemma StillCovered(g: Graph, u: seq<Hop>, props: seq<Prop>, j: nat, h: Hop, best0: map<string, seq<Hop>>, notes0: seq<Note>,
                     best: map<string, seq<Hop>>, notes: seq<Note>, w: seq<Hop>)
    requires w != [] && Leads(g, w) && j < |props| && props[j].ref.Some? && h == Hop(props[j].name, NameOf(props[j]))
    requires Done(best0, w) || Queued(notes0, w) || Ahead(u, props, j, w)
    requires best == best0[h.name := u + [h]] && (h.name in best0 ==> |best0[h.name]| <= |u| + 1)
    requires notes0 <= notes
    requires h.name in g.defs ==> |notes| == |notes0| + 1 && notes[|notes0|].walk == u + [h]
    ensures Done(best, w) || Queued(notes, w) || Ahead(u, props, j + 1, w)
  {
    if Done(best0, w) {
    } else if Queued(notes0, w) {
      var i :| 0 <= i < |notes0| && Prefix(notes0[i].walk, w);
      assert notes[i] == notes0[i];
    } else {
      var i :| j <= i < |props| && Is(props[i], w[|u|]);
      if i == j {
        assert w[|u|] == h;
        if |w| > |u| + 1 {
          assert HopFrom(g, w, |u| + 1);
          assert w[..|u| + 1] == w[..|u|] + [w[|u|]] == u + [h];
          assert Prefix(notes[|notes0|].walk, w);
        }
      }
    }
  }
}
