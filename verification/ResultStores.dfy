/** The result store: an in-memory cache of records over one or two file systems. */
module ResultStores {
  import opened Wrappers

  datatype Outcome<+T> = Ok(value: T) | Failed

  type Parts = seq<string>

  /** A path as pathlib sees it: its components, absolute or not. */
  datatype Path = Rel(parts: Parts) | Abs(parts: Parts)

  /** `_resolve_path` of a local file system with the given base path. */
  function Resolve(base: Parts, p: Path): Parts {
    match p case Rel(q) => base + q case Abs(q) => q
  }

  /** `Path.relative_to`, which raises outside the base. */
  function RelativeTo(p: Path, base: Parts): Outcome<Path> {
    if p.Abs? && base <= p.parts then Ok(Rel(p.parts[|base|..])) else Failed
  }

  datatype Metadata = Metadata(storageKey: Path, expiration: Option<nat>)
  datatype Record = Record(value: string, metadata: Metadata)

  /** File contents, up to a round-tripping serializer: a record with its metadata, a bare result, or
      bare metadata. Loading one kind as another fails. */
  datatype Content = Whole(record: Record) | Result(value: string) | Meta(metadata: Metadata)

  datatype MetadataStorage = WithResults | Discarded | Separate(base: Parts)

  /** Where a write stops: not at all, before it stored anything, or between its two storage calls. */
  datatype Fault = NoFault | AtFirst | BetweenWrites

  /** The calls of a run. */
  datatype Op =
    | DoWrite(key: Parts, value: string, expiration: Option<nat>)
    | DoRead(key: Parts)
    | DoExists(key: Parts, now: nat)
    | DoEvict(paths: set<Path>)

  /** What was asked to be written under a key, and what a run answers. */
  datatype Entry = Entry(value: string, expiration: Option<nat>)
  datatype Answer = Got(entry: Option<Entry>) | There(answer: bool)

  /** What a read gives, apart from where it was stored. */
  function Seen(r: Outcome<Record>): Option<Entry> {
    match r case Ok(rec) => Some(Entry(rec.value, rec.metadata.expiration)) case Failed => None
  }

  /** What a plain map of entries would do and answer: evictions do not exist, a read gives the last entry
      written for its key, and one that has not expired is there. */
  function PlainAfter(op: Op, m: map<Parts, Entry>): map<Parts, Entry> {
    match op
    case DoWrite(k, v, e) => m[k := Entry(v, e)]
    case _ => m
  }

  function PlainAnswer(op: Op, m: map<Parts, Entry>): seq<Answer> {
    match op
    case DoRead(k) => [Got(if k in m then Some(m[k]) else None)]
    case DoExists(k, now) =>
      [There(k in m && match m[k].expiration case None => true case Some(t) => now < t)]
    case _ => []
  }

  function Reference(ops: seq<Op>, m: map<Parts, Entry>): seq<Answer> {
    if ops == [] then [] else PlainAnswer(ops[0], m) + Reference(ops[1..], PlainAfter(ops[0], m))
  }

  class ResultStore {
    const base: Parts              // of the result storage
    const saved: bool              // the storage block has a document id
    const layout: MetadataStorage
    const cacheInMemory: bool
    var files: map<Parts, Content>       // the result storage
    var metaFiles: map<Parts, Content>   // the metadata storage, when separate
    var cache: map<Path, Record>
    var lockedByOthers: set<Path>

    /** What a plain map would hold after the same writes, by relative key. */
    ghost var plain: map<Parts, Entry>

    constructor (base: Parts, saved: bool, layout: MetadataStorage, cacheInMemory: bool)
      ensures Pointed() && Coherent() && plain == map[] && lockedByOthers == {}
      ensures this.base == base && this.saved == saved && this.layout == layout && this.cacheInMemory == cacheInMemory
    {
      this.base, this.saved, this.layout, this.cacheInMemory := base, saved, layout, cacheInMemory;
      files, metaFiles, cache, lockedByOthers, plain := map[], map[], map[], {}, map[];
    }

    /** `_resolved_key_path`, which is also the storage key that `create_result_record` records. */
    function ResolvedKeyPath(key: Path): Path {
      if saved then key else Abs(Resolve(base, key))
    }

    function CreateResultRecord(key: Path, value: string, expiration: Option<nat>): Record {
      Record(value, Metadata(ResolvedKeyPath(key), expiration))
    }

    /** The key under which metadata is stored and locks are taken; computing it may raise. */
    function BaseKey(r: Record): Outcome<Path> {
      if saved then Ok(r.metadata.storageKey) else RelativeTo(r.metadata.storageKey, base)
    }

    lemma BaseKeyOf(key: Path, value: string, expiration: Option<nat>)
      ensures var at, k := Resolve(base, key), BaseKey(CreateResultRecord(key, value, expiration));
              (k.Ok? <==> saved || base <= at) && (k.Ok? ==> k.value == if saved then key else Rel(at[|base|..]))
      ensures key.Rel? ==> BaseKey(CreateResultRecord(key, value, expiration)) == Ok(key)
    {
      if key.Rel? { assert (base + key.parts)[|base|..] == key.parts && base <= base + key.parts; }
    }

    /* ---------- Invariants ---------- */

    /** Metadata that is present points at result content that is present. */
    ghost predicate Pointed()
      reads this
    {
      forall p :: p in metaFiles ==> metaFiles[p].Meta? && Resolve(base, metaFiles[p].metadata.storageKey) in files
    }

    /** Storage holds exactly the plain map, under relative keys, and the cache agrees with it. */
    ghost predicate Coherent()
      reads this
    {
      && (forall k :: k in plain ==> Stored(k, RecordOf(k)))
      && (layout.WithResults? ==> forall k: Parts :: base + k in files ==> k in plain)
      && (layout.Separate? ==> forall k: Parts :: layout.base + k in metaFiles ==> k in plain)
      && CacheAgrees()
    }

    ghost predicate CacheAgrees()
      reads this
    {
      && (forall p :: p in cache ==> exists k :: k in plain && p == ResolvedKeyPath(Rel(k)) && cache[p] == RecordOf(k))
      && (!cacheInMemory ==> cache == map[])
    }

    /** The record of the entry under `k`. */
    ghost function RecordOf(k: Parts): Record
      reads this
      requires k in plain
    {
      Record(plain[k].value, Metadata(ResolvedKeyPath(Rel(k)), plain[k].expiration))
    }

    ghost predicate Stored(k: Parts, r: Record)
      reads this
    {
      match layout
      case WithResults => base + k in files && files[base + k] == Whole(r)
      case Discarded => true
      case Separate(mb) =>
        && mb + k in metaFiles && metaFiles[mb + k] == Meta(r.metadata)
        && base + k in files && files[base + k] == Result(r.value)
    }

    /* ---------- Operations ---------- */

    method Write(key: Path, value: string, expiration: Option<nat>, fault: Fault) returns (ok: bool)
      modifies this`files, this`metaFiles, this`cache, this`plain
      ensures old(Pointed()) ==> Pointed()
      ensures var at := Resolve(base, key);
              ok <==> (fault == NoFault && (saved || base <= at)
                       && (if saved then key else Rel(at[|base|..])) !in lockedByOthers)
      ensures key.Rel? ==> (ok <==> fault == NoFault && key !in lockedByOthers)
      ensures old(Coherent()) && key.Rel? && fault != BetweenWrites ==>
        && Coherent()
        && plain == if ok then old(plain)[key.parts := Entry(value, expiration)] else old(plain)
    {
      var r := CreateResultRecord(key, value, expiration);
      ghost var k := key.parts;
      Cancel(base, k);
      if layout.Separate? { Cancel(layout.base, k); }
      BaseKeyOf(key, value, expiration);
      ok := PersistResultRecord(r, fault);
      if ok && key.Rel? {
        plain := plain[k := Entry(value, expiration)];
        if old(Coherent()) {
          assert RecordOf(k) == r;
          forall j | j in plain ensures Stored(j, RecordOf(j)) { assert j != k ==> old(Stored(j, RecordOf(j))); }
          forall p | p in cache
            ensures exists j :: j in plain && p == ResolvedKeyPath(Rel(j)) && cache[p] == RecordOf(j)
          {
            if p == r.metadata.storageKey && cacheInMemory {
              assert k in plain;
            } else {
              var j :| j in old(plain) && p == ResolvedKeyPath(Rel(j)) && old(cache)[p] == old(RecordOf(j));
              assert j != k && j in plain;
            }
          }
        }
      }
    }

    /** `_persist_result_record`: one storage call, or two when metadata is kept apart, then the cache. */
    method PersistResultRecord(r: Record, fault: Fault) returns (ok: bool)
      modifies this`files, this`metaFiles, this`cache
      ensures ok <==> fault == NoFault && BaseKey(r).Ok? && BaseKey(r).value !in lockedByOthers
      ensures old(Pointed()) ==> Pointed()
      ensures ok ==>
        && files == old(files)[Resolve(base, r.metadata.storageKey) := if layout.WithResults? then Whole(r) else Result(r.value)]
        && metaFiles == (if layout.Separate? then old(metaFiles)[Resolve(layout.base, BaseKey(r).value) := Meta(r.metadata)]
                         else old(metaFiles))
        && cache == if cacheInMemory then old(cache)[r.metadata.storageKey := r] else old(cache)
      ensures !ok ==> metaFiles == old(metaFiles) && cache == old(cache)
                      && (fault != BetweenWrites ==> files == old(files))
    {
      ok := false;
      var key := BaseKey(r);
      if key.Failed? || key.value in lockedByOthers || fault == AtFirst { return; }
      if layout.WithResults? {
        if fault == BetweenWrites { return; }
        files := files[Resolve(base, r.metadata.storageKey) := Whole(r)];
      } else {
        files := files[Resolve(base, r.metadata.storageKey) := Result(r.value)];
        if fault == BetweenWrites { return; }
        if layout.Separate? {
          metaFiles := metaFiles[Resolve(layout.base, key.value) := Meta(r.metadata)];
        }
      }
      if cacheInMemory { cache := cache[r.metadata.storageKey := r]; }
      ok := true;
    }

    /** What a read without the cache gives. */
    function Fetch(key: Path): Outcome<Record>
      reads this
    {
      match layout
      case WithResults =>
        var p := Resolve(base, key);
        if p in files && files[p].Whole? then Ok(files[p].record) else Failed
      case Discarded => Failed
      case Separate(mb) =>
        var p := Resolve(mb, key);
        if p in metaFiles && metaFiles[p].Meta? then
          var md := metaFiles[p].metadata;
          var q := Resolve(base, md.storageKey);
          if q in files && files[q].Result? then Ok(Record(files[q].value, md)) else Failed
        else Failed
    }

    /** `_read`, once the lock is free. */
    method Read(key: Path) returns (r: Outcome<Record>)
      modifies this`cache
      ensures var p := ResolvedKeyPath(key);
              && r == (if p in old(cache) then Ok(old(cache)[p]) else old(Fetch(key)))
              && cache == if p !in old(cache) && r.Ok? && cacheInMemory then old(cache)[p := r.value] else old(cache)
      ensures old(Coherent()) && key.Rel? && !layout.Discarded? ==>
        && Coherent() && Seen(r) == (if key.parts in plain then Some(plain[key.parts]) else None)
        && (r.Ok? ==> r.value.metadata.storageKey == ResolvedKeyPath(key))
      ensures layout.Discarded? && ResolvedKeyPath(key) !in old(cache) ==> r.Failed?
    {
      ghost var k := key.parts;
      var p := ResolvedKeyPath(key);
      Cancel(base, k);
      if p in cache { return Ok(cache[p]); }
      r := Fetch(key);
      if r.Ok? && cacheInMemory { cache := cache[p := r.value]; }
    }

    method EvictAny(paths: set<Path>)
      modifies this`cache
      ensures cache == old(cache) - paths && (old(Coherent()) ==> Coherent())
    {
      cache := cache - paths;
    }

    /** `_exists`; `now` is the current time. */
    method Exists(key: Path, now: nat) returns (b: bool)
      ensures b && Pointed() ==>
        match layout
        case WithResults => Resolve(base, key) in files
        case Discarded => false
        case Separate(mb) => var p := Resolve(mb, key);
                             p in metaFiles && metaFiles[p].Meta? && Resolve(base, metaFiles[p].metadata.storageKey) in files
      ensures Coherent() && key.Rel? && !layout.Discarded? ==>
        (b <==> key.parts in plain && match plain[key.parts].expiration case None => true case Some(t) => t > now)
    {
      var md: Option<Metadata> := None;
      match layout {
        case WithResults =>
          var p := Resolve(base, key);
          if p in files && files[p].Whole? { md := Some(files[p].record.metadata); }
        case Discarded =>
        case Separate(mb) =>
          var p := Resolve(mb, key);
          if p in metaFiles && metaFiles[p].Meta? { md := Some(metaFiles[p].metadata); }
      }
      if md == None { return false; }
      b := md.value.expiration == None || md.value.expiration.value > now;
    }

    /* ---------- Runs ---------- */

    method Do(op: Op) returns (out: seq<Answer>)
      requires Coherent() && !layout.Discarded? && lockedByOthers == {}
      modifies this`files, this`metaFiles, this`cache, this`plain
      ensures Coherent() && out == PlainAnswer(op, old(plain)) && plain == PlainAfter(op, old(plain))
    {
      out := [];
      match op {
        case DoWrite(k, v, e) => var _ := Write(Rel(k), v, e, NoFault);
        case DoRead(k) => var r := Read(Rel(k)); out := [Got(Seen(r))];
        case DoExists(k, now) => var b := Exists(Rel(k), now); out := [There(b)];
        case DoEvict(ps) => EvictAny(ps);
      }
    }

    /** Cache transparency: whatever the cache size, the flag and the layout (with real metadata
        storage), and however records are evicted in between, a run of writes, reads and existence checks
        under relative keys answers as a plain map of the values and expirations written would. */
    method Run(ops: seq<Op>) returns (outs: seq<Answer>)
      requires Coherent() && !layout.Discarded? && lockedByOthers == {}
      modifies this`files, this`metaFiles, this`cache, this`plain
      ensures Coherent() && outs == Reference(ops, old(plain))
    {
      outs := [];
      assert ops[0..] == ops;
      for i := 0 to |ops|
        invariant Coherent()
        invariant outs + Reference(ops[i..], plain) == Reference(ops, old(plain))
      {
        ghost var before := outs;
        var out := Do(ops[i]);
        assert ops[i..][1..] == ops[i + 1..];
        outs := outs + out;
        Regroup(before, out, Reference(ops[i + 1..], plain));
      }
      assert ops[|ops|..] == [];
    }

    /** Crash consistency: over every sequence of writes under any keys, each possibly failing before,
        or between, its two storage calls, metadata never points at missing content. */
    method RunFaulty(writes: seq<(Path, string, Fault)>)
      requires Pointed()
      modifies this`files, this`metaFiles, this`cache, this`plain
      ensures Pointed()
    {
      for i := 0 to |writes|
        invariant Pointed()
      {
        var _ := Write(writes[i].0, writes[i].1, None, writes[i].2);
      }
    }
  }

  /** Both keys name the same file in every storage that the layout uses. */
  predicate Aliases(store: ResultStore, written: Path, key: Path) {
    && Resolve(store.base, key) == Resolve(store.base, written)
    && match store.layout
       case WithResults => true
       case Discarded => false
       case Separate(mb) =>
         var at := store.BaseKey(store.CreateResultRecord(written, "", None));
         at.Ok? ==> Resolve(mb, key) == Resolve(mb, at.value)
  }

  /** A write under one key and a read under another key of the same files. The read gives what was
      written if and only if both keys have the same cache key, or nothing else is cached under the
      key read; with an unsaved storage block the first is always so. */
  method ReadBack(store: ResultStore, written: Path, key: Path, value: string) returns (ok: bool, r: Outcome<Record>)
    requires Aliases(store, written, key)
    modifies store`files, store`metaFiles, store`cache
    ensures var p, rec := store.ResolvedKeyPath(key), store.CreateResultRecord(written, value, None);
            ok ==>
              && (r == Ok(rec) <==> (store.cacheInMemory && p == store.ResolvedKeyPath(written))
                                     || p !in old(store.cache) || old(store.cache)[p] == rec)
              && (!store.saved ==> p == store.ResolvedKeyPath(written))
  {
    ok := store.PersistResultRecord(store.CreateResultRecord(written, value, None), NoFault);
    r := store.Read(key);
  }

  /** With a saved storage block an absolute key and a relative one can name the same file under two
      cache keys: the read under the relative key then returns what the cache kept, not what was
      written last. */
  method StaleThroughAbsoluteKey() returns (cached: Outcome<Record>, stored: Outcome<Record>)
    ensures cached.Ok? && cached.value.value == "old"
    ensures stored.Ok? && stored.value.value == "new"
  {
    var store := new ResultStore(["base"], true, WithResults, true);
    var first := store.CreateResultRecord(Rel(["k"]), "old", None);
    assert store.BaseKey(first) == Ok(Rel(["k"]));
    var _ := store.PersistResultRecord(first, NoFault);
    var r := store.CreateResultRecord(Abs(["base", "k"]), "new", None);
    assert store.BaseKey(r) == Ok(Abs(["base", "k"]));
    var _ := store.PersistResultRecord(r, NoFault);
    assert ["base"] + ["k"] == ["base", "k"];
    stored := store.Fetch(Rel(["k"]));
    cached := store.Read(Rel(["k"]));
  }

  /** With a null metadata storage a written record can be read only while the cache keeps it. */
  method NullMetadataForgets() returns (before: Outcome<Record>, after: Outcome<Record>)
    ensures before.Ok? && after.Failed?
  {
    var store := new ResultStore(["base"], false, Discarded, true);
    var r := store.CreateResultRecord(Rel(["k"]), "v", None);
    assert ["base"] + ["k"] == ["base", "k"] && ["base", "k"][..1] == ["base"];
    var _ := store.PersistResultRecord(r, NoFault);
    before := store.Read(Rel(["k"]));
    store.EvictAny({Abs(["base", "k"])});
    after := store.Read(Rel(["k"]));
  }

  lemma Cancel(base: Parts, k: Parts)
    ensures forall j: Parts :: base + j == base + k ==> j == k
  {
    forall j: Parts | base + j == base + k ensures j == k {
      assert (base + j)[|base|..] == j && (base + k)[|base|..] == k;
    }
  }
}
