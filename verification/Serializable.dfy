/** Many holders running flat SERIALIZABLE transactions against one store, every lock operation,
    existence check and write being a separate step that can interleave with anything. */
module Serializable {
  type Key = string
  type Value = string
  type Holder = nat

  datatype Mode = EAGER | LAZY | OFF

  /** Where a holder is in its current transaction (between transactions it is idle). */
  datatype Phase =
    | Idle
    | Acquired(key: Key, mode: Mode)                        // lock taken, existence not checked yet
    | Open(key: Key, mode: Mode, found: bool, staged: Value)   // inside the block; `found` means COMMITTED
    | Committing(key: Key, staged: Value)                   // commit hooks ran, about to write
    | Wrote(key: Key)                                       // written, now COMMITTED, lock not released yet
    | RolledBack(key: Key)                                  // rolled back, lock not released yet

  /** One successful write, newest last. */
  datatype Entry = Entry(holder: Holder, key: Key, value: Value)

  datatype System = System(store: map<Key, Value>, locks: map<Key, Holder>, at: map<Holder, Phase>, log: seq<Entry>)

  function PhaseOf(s: System, h: Holder): Phase { if h in s.at then s.at[h] else Idle }

  datatype Step =
    | Acquire(key: Key, mode: Mode)
    | CheckExists
    | Stage(value: Value)
    | LeaveNormally(hooksSucceed: bool)
    | LeaveByException
    | Persist(succeeds: bool)
    | Release

  function Free(locks: map<Key, Holder>, k: Key): map<Key, Holder> { locks - {k} }

  /** What holder `h` may do next; steps that are not enabled block. */
  ghost predicate Next(s: System, h: Holder, c: Step, s': System) {
    var ph := PhaseOf(s, h);
    match c
    case Acquire(k, mode) =>
      // blocks while another holder has the lock; a holder that still has it gets it again
      ph.Idle? && (k in s.locks ==> s.locks[k] == h)
      && s' == s.(locks := s.locks[k := h], at := s.at[h := Acquired(k, mode)])
    case CheckExists =>
      ph.Acquired? && s' == s.(at := s.at[h := Open(ph.key, ph.mode, ph.key in s.store, "")])
    case Stage(v) =>
      ph.Open? && s' == if ph.found then s else s.(at := s.at[h := Open(ph.key, ph.mode, false, v)])
    case LeaveNormally(ok) =>
      ph.Open?
      && s' == if ph.found then
                 if ph.mode == OFF then s.(at := s.at[h := Idle])   // rollback returns before its release
                 else s.(at := s.at[h := Idle], locks := Free(s.locks, ph.key))   // commit only releases
               else if ph.mode == OFF || !ok then s.(at := s.at[h := RolledBack(ph.key)])
               else s.(at := s.at[h := Committing(ph.key, ph.staged)])
    case LeaveByException =>
      ph.Open?
      && s' == if ph.found then s.(at := s.at[h := Idle]) else s.(at := s.at[h := RolledBack(ph.key)])
    case Persist(ok) =>
      // a write is refused while the key is locked by someone else
      ph.Committing? && (ok ==> (ph.key in s.locks ==> s.locks[ph.key] == h))
      && s' == if ok then s.(store := s.store[ph.key := ph.staged], at := s.at[h := Wrote(ph.key)],
                             log := s.log + [Entry(h, ph.key, ph.staged)])
               else s.(at := s.at[h := RolledBack(ph.key)])
    case Release =>
      (ph.Wrote? || ph.RolledBack?) && s' == s.(at := s.at[h := Idle], locks := Free(s.locks, ph.key))
  }

  ghost predicate Init(s: System) { s.locks == map[] && s.at == map[] && s.log == [] }

  /** A run: states, and which holder took which step between them. */
  datatype Run = Run(states: seq<System>, moves: seq<(Holder, Step)>)

  ghost predicate IsRun(r: Run) {
    && |r.states| == |r.moves| + 1 && Init(r.states[0])
    && forall i :: 0 <= i < |r.moves| ==> Next(r.states[i], r.moves[i].0, r.moves[i].1, r.states[i + 1])
  }

  function Writes(log: seq<Entry>, k: Key): nat {
    if log == [] then 0 else Writes(log[..|log| - 1], k) + if log[|log| - 1].key == k then 1 else 0
  }

  predicate Holds(ph: Phase) { !ph.Idle? }

  /** A transaction that has not found a record and has not written one yet. */
  predicate Unwritten(ph: Phase) { (ph.Open? && !ph.found) || ph.Committing? || ph.RolledBack? }

  ghost predicate Inv(s: System, init: map<Key, Value>) {
    LocksHeld(s) && PhasesMatchStore(s) && LogMatchesStore(s, init)
  }

  ghost predicate LocksHeld(s: System) {
    forall h :: h in s.at && Holds(s.at[h]) ==> s.at[h].key in s.locks && s.locks[s.at[h].key] == h
  }

  ghost predicate PhasesMatchStore(s: System) {
    && (forall h :: h in s.at && Unwritten(s.at[h]) ==> s.at[h].key !in s.store)
    && (forall h :: h in s.at && (s.at[h].Wrote? || (s.at[h].Open? && s.at[h].found)) ==> s.at[h].key in s.store)
  }

  ghost predicate LogMatchesStore(s: System, init: map<Key, Value>) {
    && (forall k :: k in init ==> k in s.store && s.store[k] == init[k])
    && (forall k :: Writes(s.log, k) == if k in s.store && k !in init then 1 else 0)
    && (forall i :: 0 <= i < |s.log| ==> s.log[i].key in s.store && s.store[s.log[i].key] == s.log[i].value)
  }

  lemma StepKeepsInv(s: System, h: Holder, c: Step, s': System, init: map<Key, Value>)
    requires Inv(s, init) && Next(s, h, c, s')
    ensures Inv(s', init)
    ensures forall k :: k in s.store ==> k in s'.store && s'.store[k] == s.store[k]
  {
    StepKeepsLocks(s, h, c, s');
    StepKeepsPhases(s, h, c, s');
    if c.Persist? && c.succeeds { StepKeepsLog(s, h, c, s', init); }
  }

  lemma StepKeepsLocks(s: System, h: Holder, c: Step, s': System)
    requires LocksHeld(s) && Next(s, h, c, s')
    ensures LocksHeld(s')
  {}

  lemma StepKeepsPhases(s: System, h: Holder, c: Step, s': System)
    requires LocksHeld(s) && PhasesMatchStore(s) && Next(s, h, c, s')
    ensures PhasesMatchStore(s')
  {}

  lemma StepKeepsLog(s: System, h: Holder, c: Step, s': System, init: map<Key, Value>)
    requires PhasesMatchStore(s) && LogMatchesStore(s, init) && Next(s, h, c, s') && c.Persist? && c.succeeds
    ensures LogMatchesStore(s', init)
  {
    var ph := PhaseOf(s, h);
    assert Unwritten(ph) && ph.key !in s.store;
    assert s'.log[..|s'.log| - 1] == s.log;
  }

  lemma {:induction false} RunKeepsInv(r: Run, i: nat)
    requires IsRun(r) && i < |r.states|
    ensures Inv(r.states[i], r.states[0].store)
  {
    if i > 0 {
      RunKeepsInv(r, i - 1);
      StepKeepsInv(r.states[i - 1], r.moves[i - 1].0, r.moves[i - 1].1, r.states[i], r.states[0].store);
    }
  }

  lemma {:induction false} StoreGrows(r: Run, i: nat, j: nat)
    requires IsRun(r) && i <= j < |r.states|
    ensures forall k :: k in r.states[i].store ==> k in r.states[j].store && r.states[j].store[k] == r.states[i].store[k]
    decreases j - i
  {
    if i < j {
      StoreGrows(r, i, j - 1);
      RunKeepsInv(r, j - 1);
      StepKeepsInv(r.states[j - 1], r.moves[j - 1].0, r.moves[j - 1].1, r.states[j], r.states[0].store);
    }
  }

  /** Mutual exclusion: at no point of any run are two holders in a transaction on the same key. */
  lemma MutualExclusion(r: Run, i: nat, g: Holder, h: Holder)
    requires IsRun(r) && i < |r.states|
    requires Holds(PhaseOf(r.states[i], g)) && Holds(PhaseOf(r.states[i], h))
    requires PhaseOf(r.states[i], g).key == PhaseOf(r.states[i], h).key
    ensures g == h
  {
    RunKeepsInv(r, i);
  }

  /** Exactly once: over every interleaving each key is written at most once, never if it was stored
      before the run, and exactly once if it is stored at the end and was not before. */
  lemma ExactlyOnce(r: Run, i: nat, k: Key)
    requires IsRun(r) && i < |r.states|
    ensures Writes(r.states[i].log, k) == if k in r.states[i].store && k !in r.states[0].store then 1 else 0
    ensures k in r.states[0].store ==> k in r.states[i].store && r.states[i].store[k] == r.states[0].store[k]
  {
    RunKeepsInv(r, i);
  }

  /** Once a holder has written a key, every transaction on it that checks later finds itself committed,
      and reads the value that was written then, at any later time. */
  lemma LaterTransactionsFind(r: Run, i: nat, j: nat, e: nat)
    requires IsRun(r) && i <= j < |r.moves| && e < |r.states[i].log|
    requires r.moves[j].1 == CheckExists && PhaseOf(r.states[j], r.moves[j].0).Acquired?
    requires PhaseOf(r.states[j], r.moves[j].0).key == r.states[i].log[e].key
    ensures var k, after := r.states[i].log[e].key, PhaseOf(r.states[j + 1], r.moves[j].0);
            && after.Open? && after.found
            && forall n :: j < n < |r.states| ==> k in r.states[n].store && r.states[n].store[k] == r.states[i].log[e].value
  {
    RunKeepsInv(r, i);
    StoreGrows(r, i, j);
    var k := r.states[i].log[e].key;
    forall n | j < n < |r.states|
      ensures k in r.states[n].store && r.states[n].store[k] == r.states[i].log[e].value
    {
      StoreGrows(r, i, n);
    }
  }

  /** A rolled-back holder leaves the key free: after its release nobody holds the lock and nothing is
      stored, so that whoever asks next can acquire it and will find no record. */
  lemma RollbackFreesKey(r: Run, i: nat, g: Holder, mode: Mode)
    requires IsRun(r) && i < |r.moves| && r.moves[i].1 == Release && PhaseOf(r.states[i], r.moves[i].0).RolledBack?
    requires PhaseOf(r.states[i + 1], g).Idle?
    ensures var k, s := PhaseOf(r.states[i], r.moves[i].0).key, r.states[i + 1];
            && k !in s.locks && k !in s.store
            && var s1 := s.(locks := s.locks[k := g], at := s.at[g := Acquired(k, mode)]);
               && Next(s, g, Acquire(k, mode), s1)
               && Next(s1, g, CheckExists, s1.(at := s1.at[g := Open(k, mode, false, "")]))
  {
    RunKeepsInv(r, i);
  }

  /** The holder of the lock of `k` is in a transaction on `k`. */
  predicate InUse(s: System, k: Key)
    requires k in s.locks
  {
    var ph := PhaseOf(s, s.locks[k]);
    Holds(ph) && ph.key == k
  }

  ghost predicate LocksInUse(s: System) { forall k :: k in s.locks ==> InUse(s, k) || k in s.store }

  lemma StepKeepsInUse(s: System, h: Holder, c: Step, s': System)
    requires LocksHeld(s) && PhasesMatchStore(s) && LocksInUse(s) && Next(s, h, c, s')
    ensures LocksInUse(s')
  {
    forall k | k in s'.locks ensures InUse(s', k) || k in s'.store {
      if k in s.locks { assert InUse(s, k) || k in s.store; }
    }
  }

  /** A lock whose holder is not in a transaction on its key is only ever that of a stored key: only a
      transaction that found a record can end (by an exception, or with mode OFF) and keep its lock. */
  lemma {:induction false} AbandonedOnlyWhenStored(r: Run, i: nat)
    requires IsRun(r) && i < |r.states|
    ensures LocksInUse(r.states[i])
  {
    if i > 0 {
      AbandonedOnlyWhenStored(r, i - 1);
      RunKeepsInv(r, i - 1);
      StepKeepsInUse(r.states[i - 1], r.moves[i - 1].0, r.moves[i - 1].1, r.states[i]);
    }
  }

  /* ---------- What becomes of each transaction ---------- */

  type Moves = seq<(Holder, Step)>

  /** What a holder asked for in its latest `Acquire`, and what it staged last since then. */
  datatype Request = Request(key: Key, mode: Mode, staged: Value)

  function Latest(moves: Moves, h: Holder): Request {
    if moves == [] then Request("", LAZY, "")
    else
      var before, last := Latest(moves[..|moves| - 1], h), moves[|moves| - 1];
      if last.0 != h then before
      else match last.1
        case Acquire(k, mode) => Request(k, mode, "")
        case Stage(v) => before.(staged := v)
        case _ => before
  }

  /** The phase of a holder agrees with what it asked for. */
  ghost predicate AsRequested(ph: Phase, q: Request) {
    match ph
    case Idle => true
    case Acquired(k, mode) => k == q.key && mode == q.mode && q.staged == ""
    case Open(k, mode, found, v) => k == q.key && mode == q.mode && (!found ==> v == q.staged)
    case Committing(k, v) => k == q.key && v == q.staged
    case Wrote(k) => k == q.key
    case RolledBack(k) => k == q.key
  }

  lemma {:induction false} PhaseAsRequested(r: Run, h: Holder, i: nat)
    requires IsRun(r) && i < |r.states|
    ensures AsRequested(PhaseOf(r.states[i], h), Latest(r.moves[..i], h))
  {
    if i > 0 {
      PhaseAsRequested(r, h, i - 1);
      assert Next(r.states[i - 1], r.moves[i - 1].0, r.moves[i - 1].1, r.states[i]);
      assert r.moves[..i][..i - 1] == r.moves[..i - 1] && r.moves[..i][i - 1] == r.moves[i - 1];
    }
  }

  /** `j` is the holder's next move after its move `i`. */
  predicate NextMove(moves: Moves, h: Holder, i: nat, j: nat) {
    i < j < |moves| && moves[i].0 == moves[j].0 == h && forall m :: i < m < j ==> moves[m].0 != h
  }

  /** The entries of a holder in the log. */
  function EntriesOf(log: seq<Entry>, h: Holder): seq<Entry> {
    if log == [] then []
    else EntriesOf(log[..|log| - 1], h) + if log[|log| - 1].holder == h then [log[|log| - 1]] else []
  }

  /** Until a holder moves again, its phase and its entries stay. */
  lemma {:induction false} StaysUntilNextMove(r: Run, h: Holder, i: nat, j: nat)
    requires IsRun(r) && i < j < |r.states| && forall m :: i < m < j ==> r.moves[m].0 != h
    ensures PhaseOf(r.states[j], h) == PhaseOf(r.states[i + 1], h)
    ensures EntriesOf(r.states[j].log, h) == EntriesOf(r.states[i + 1].log, h)
    decreases j
  {
    if i + 1 < j {
      StaysUntilNextMove(r, h, i, j - 1);
      var s, s' := r.states[j - 1], r.states[j];
      assert Next(s, r.moves[j - 1].0, r.moves[j - 1].1, s') && r.moves[j - 1].0 != h;
      assert s'.log != s.log ==> s'.log[..|s'.log| - 1] == s.log;
    }
  }

  /** A holder leaves its transaction, which has found no record. */
  ghost predicate Leaves(r: Run, h: Holder, i: nat) {
    && IsRun(r) && i < |r.moves| && r.moves[i].0 == h && (r.moves[i].1.LeaveNormally? || r.moves[i].1.LeaveByException?)
    && PhaseOf(r.states[i], h).Open? && !PhaseOf(r.states[i], h).found
  }

  /** It ends normally, its hooks succeed and it was not asked for with mode OFF. */
  predicate ShouldCommit(moves: Moves, h: Holder, i: nat)
    requires i < |moves|
  {
    moves[i].1 == LeaveNormally(true) && Latest(moves[..i], h).mode != OFF
  }

  /** A transaction that should commit goes on to write, can do so at any time, and once its write succeeds
      its key is stored with the value that it staged last, as its next entry in the log. */
  lemma CommittingWrites(r: Run, h: Holder, i: nat, j: nat)
    requires Leaves(r, h, i) && ShouldCommit(r.moves, h, i) && NextMove(r.moves, h, i, j)
    ensures var q, s, s' := Latest(r.moves[..i], h), r.states[j], r.states[j + 1];
            && r.moves[j].1.Persist?
            && (exists to :: Next(s, h, Persist(true), to))
            && (r.moves[j].1.succeeds ==>
                  && q.key in s'.store && s'.store[q.key] == q.staged
                  && EntriesOf(s'.log, h) == EntriesOf(r.states[i].log, h) + [Entry(h, q.key, q.staged)])
            && (!r.moves[j].1.succeeds ==> s'.log == s.log && PhaseOf(s', h) == RolledBack(q.key))
  {
    PhaseAsRequested(r, h, i);
    assert Next(r.states[i], h, r.moves[i].1, r.states[i + 1]);
    StaysUntilNextMove(r, h, i, j);
    RunKeepsInv(r, j);
    var q, s, s' := Latest(r.moves[..i], h), r.states[j], r.states[j + 1];
    assert PhaseOf(s, h) == Committing(q.key, q.staged);
    assert Next(s, h, r.moves[j].1, s');
    var to := s.(store := s.store[q.key := q.staged], at := s.at[h := Wrote(q.key)], log := s.log + [Entry(h, q.key, q.staged)]);
    assert Next(s, h, Persist(true), to);
    if r.moves[j].1.succeeds { assert s'.log[..|s'.log| - 1] == s.log; }
  }

  /** A transaction that should not commit writes nothing: the holder's next move is to give the lock back,
      and then its key is unlocked and not stored, and the log has no new entry of the holder. */
  lemma RollingBackWritesNothing(r: Run, h: Holder, i: nat, j: nat)
    requires Leaves(r, h, i) && !ShouldCommit(r.moves, h, i) && NextMove(r.moves, h, i, j)
    ensures var q, s' := Latest(r.moves[..i], h), r.states[j + 1];
            && r.moves[j].1 == Release && q.key !in s'.locks && q.key !in s'.store
            && EntriesOf(s'.log, h) == EntriesOf(r.states[i].log, h)
  {
    PhaseAsRequested(r, h, i);
    assert Next(r.states[i], h, r.moves[i].1, r.states[i + 1]);
    StaysUntilNextMove(r, h, i, j);
    RunKeepsInv(r, j);
    assert PhaseOf(r.states[j], h) == RolledBack(Latest(r.moves[..i], h).key);
    assert Next(r.states[j], h, r.moves[j].1, r.states[j + 1]);
  }

  /** Every release frees the lock, and after a write, successful or not, the next move is a release. */
  lemma WriteThenRelease(r: Run, h: Holder, i: nat, j: nat)
    requires IsRun(r) && NextMove(r.moves, h, i, j) && r.moves[i].1.Persist?
    ensures r.moves[j].1 == Release && PhaseOf(r.states[i], h).Committing?
    ensures PhaseOf(r.states[j + 1], h) == Idle && PhaseOf(r.states[i], h).key !in r.states[j + 1].locks
  {
    assert Next(r.states[i], h, r.moves[i].1, r.states[i + 1]);
    StaysUntilNextMove(r, h, i, j);
    assert Next(r.states[j], h, r.moves[j].1, r.states[j + 1]);
  }

  /** A transaction that found a record writes nothing and is over at once; it gives its lock back if and only
      if it ends normally and its mode is not OFF. */
  lemma FoundLeaves(r: Run, h: Holder, i: nat)
    requires IsRun(r) && i < |r.moves| && r.moves[i].0 == h && (r.moves[i].1.LeaveNormally? || r.moves[i].1.LeaveByException?)
    requires PhaseOf(r.states[i], h).Open? && PhaseOf(r.states[i], h).found
    ensures var q, s, s' := Latest(r.moves[..i], h), r.states[i], r.states[i + 1];
            && PhaseOf(s', h) == Idle && s'.log == s.log && s'.store == s.store && q.key in s.store
            && (q.key !in s'.locks <==> r.moves[i].1.LeaveNormally? && q.mode != OFF)
  {
    PhaseAsRequested(r, h, i);
    RunKeepsInv(r, i);
    assert Next(r.states[i], h, r.moves[i].1, r.states[i + 1]);
  }
}
