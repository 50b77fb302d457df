/**
 * The memory manager of the optimising runtime: the bounded object pool,
 * the value interner, the generations' size accounting, the
 * reference-count table, the field-layout optimiser and the manager's
 * usage counters. Raw pointers are modelled as natural-number addresses,
 * and a shared `Arc<Value>` as a handle into the interner's table of
 * stored values.
 */
module Memory {
  import opened Wrappers
  import opened Values
  import Utf8
  import Errors

  // ---------------------------------------------------------------------
  // MemoryPool
  // ---------------------------------------------------------------------

  /** What a pool holds and what it has counted. */
  datatype PoolState<T> = PoolState(pool: seq<T>, capacity: nat, allocatedCount: nat, reused: nat)

  /**
   * `acquire`: the most recently released object when the pool holds one,
   * otherwise a newly created one. Exactly one of the two counters moves.
   */
  function Acquired<T>(s: PoolState<T>, created: T): (r: (T, PoolState<T>))
    ensures r.1.capacity == s.capacity && |r.1.pool| <= |s.pool|
    ensures r.1.allocatedCount + r.1.reused == s.allocatedCount + s.reused + 1
    ensures r.1.reused == s.reused + 1 <==> |s.pool| > 0
  {
    if |s.pool| > 0 then
      (s.pool[|s.pool| - 1], s.(pool := s.pool[..|s.pool| - 1], reused := s.reused + 1))
    else
      (created, s.(allocatedCount := s.allocatedCount + 1))
  }

  /** `release`: the object is kept only while the pool is below capacity; otherwise it is dropped. */
  function Released<T>(s: PoolState<T>, obj: T): (r: PoolState<T>)
    ensures r.capacity == s.capacity && r.allocatedCount == s.allocatedCount && r.reused == s.reused
    ensures |s.pool| <= s.capacity ==> |r.pool| <= r.capacity
  {
    if |s.pool| < s.capacity then s.(pool := s.pool + [obj]) else s
  }

  /** Releasing into a pool with room and acquiring again hands back that same object and restores the pool. */
  lemma ReleaseThenAcquire<T>(s: PoolState<T>, obj: T, created: T)
    requires |s.pool| < s.capacity
    ensures Acquired(Released(s, obj), created).0 == obj
    ensures Acquired(Released(s, obj), created).1.pool == s.pool
  {
    var p := s.pool + [obj];
    assert p[..|p| - 1] == s.pool;
  }

  /** Releasing into a full pool drops the object and leaves the pool as it was. */
  lemma ReleaseIntoFullPool<T>(s: PoolState<T>, obj: T)
    requires |s.pool| >= s.capacity
    ensures Released(s, obj) == s
  {
  }

  /** A run of acquires: the objects handed out and the pool afterwards. */
  function AcquiredMany<T>(s: PoolState<T>, created: T, n: nat): (r: (seq<T>, PoolState<T>))
    ensures |r.0| == n
    ensures r.1.allocatedCount + r.1.reused == s.allocatedCount + s.reused + n
    decreases n
  {
    if n == 0 then ([], s)
    else
      var first := Acquired(s, created);
      var rest := AcquiredMany(first.1, created, n - 1);
      ([first.0] + rest.0, rest.1)
  }

  /** Of n acquires, as many as the pool holds are served from it; each of the rest creates a new object. */
  lemma {:induction false} AcquiresCreateOnlyWhenEmpty<T>(s: PoolState<T>, created: T, n: nat)
    decreases n
    ensures AcquiredMany(s, created, n).1.reused == s.reused + (if n <= |s.pool| then n else |s.pool|)
    ensures AcquiredMany(s, created, n).1.allocatedCount == s.allocatedCount + (if n <= |s.pool| then 0 else n - |s.pool|)
  {
    if n > 0 {
      AcquiresCreateOnlyWhenEmpty(Acquired(s, created).1, created, n - 1);
    }
  }

  /** `MemoryPool<T>`: a stack of released objects, bounded by its capacity. */
  class MemoryPool<T> {
    var pool: seq<T>
    const capacity: nat
    var allocatedCount: nat
    var reused: nat
    /** What `create_fn` returns. */
    const created: T

    function State(): PoolState<T>
      reads this
    {
      PoolState(pool, capacity, allocatedCount, reused)
    }

    ghost predicate Valid()
      reads this
    {
      |pool| <= capacity
    }

    constructor (capacity: nat, created: T)
      ensures Valid() && State() == PoolState([], capacity, 0, 0) && this.created == created
    {
      pool := [];
      this.capacity := capacity;
      allocatedCount := 0;
      reused := 0;
      this.created := created;
    }

    method Acquire() returns (r: T)
      requires Valid()
      modifies this
      ensures Valid()
      ensures (r, State()) == Acquired(old(State()), created)
    {
      if |pool| > 0 {
        r := pool[|pool| - 1];
        pool := pool[..|pool| - 1];
        reused := reused + 1;
      } else {
        allocatedCount := allocatedCount + 1;
        r := created;
      }
    }

    method Release(obj: T)
      requires Valid()
      modifies this
      ensures Valid()
      ensures State() == Released(old(State()), obj)
    {
      if |pool| < capacity {
        pool := pool + [obj];
      }
    }
  }

  // ---------------------------------------------------------------------
  // ValueInterner
  // ---------------------------------------------------------------------

  /**
   * The interner's tables. Each key maps to the handle of its one stored
   * entry; `entries` holds every entry ever handed out, so that handle h
   * denotes `entries[h]`. The first three are the fixed `true`, `false`
   * and `null` entries.
   */
  datatype InternTables = InternTables(
    integers: map<int, nat>,
    floats: map<real, nat>,
    strings: map<string, nat>,
    entries: seq<Value>)

  const TRUE_HANDLE: nat := 0
  const FALSE_HANDLE: nat := 1
  const NULL_HANDLE: nat := 2

  /** `ValueInterner::new`: empty tables and the three fixed entries. */
  function NewTables(): (t: InternTables)
    ensures Consistent(t)
  {
    InternTables(map[], map[], map[], [Boolean(true), Boolean(false), Null])
  }

  /** Every handle in a table denotes an entry holding its key's value. */
  ghost predicate Consistent(t: InternTables)
  {
    |t.entries| >= 3 &&
    t.entries[TRUE_HANDLE] == Boolean(true) && t.entries[FALSE_HANDLE] == Boolean(false) &&
    t.entries[NULL_HANDLE] == Null &&
    (forall i :: i in t.integers ==> t.integers[i] < |t.entries| && t.entries[t.integers[i]] == Integer(i)) &&
    (forall x :: x in t.floats ==> t.floats[x] < |t.entries| && t.entries[t.floats[x]] == Float(x)) &&
    (forall s :: s in t.strings ==> t.strings[s] < |t.entries| && t.entries[t.strings[s]] == Str(s))
  }

  /** The values the interner shares: integers, floats, strings, booleans and null. */
  predicate Scalar(v: Value)
  {
    v.Integer? || v.Float? || v.Str? || v.Boolean? || v.Null?
  }

  /**
   * `intern_value`: the handle for v, and the tables afterwards. A scalar
   * key seen before gets its stored handle back; a new one gets a new
   * entry; any other value gets an entry of its own every time.
   */
  function Interned(t: InternTables, v: Value): (r: (nat, InternTables))
    requires Consistent(t)
    ensures Consistent(r.1) && r.0 < |r.1.entries| && r.1.entries[r.0] == v
    ensures t.entries <= r.1.entries
  {
    var next := |t.entries|;
    match v
    case Integer(i) =>
      if i in t.integers then (t.integers[i], t)
      else (next, t.(integers := t.integers[i := next], entries := t.entries + [v]))
    case Float(x) =>
      if x in t.floats then (t.floats[x], t)
      else (next, t.(floats := t.floats[x := next], entries := t.entries + [v]))
    case Str(s) =>
      if s in t.strings then (t.strings[s], t)
      else (next, t.(strings := t.strings[s := next], entries := t.entries + [v]))
    case Boolean(b) => (if b then TRUE_HANDLE else FALSE_HANDLE, t)
    case Null => (NULL_HANDLE, t)
    case _ => (next, t.(entries := t.entries + [v]))
  }

  /** Interning a scalar a second time hands back the same handle and changes nothing. */
  lemma InternShares(t: InternTables, v: Value)
    requires Consistent(t) && Scalar(v)
    ensures Interned(Interned(t, v).1, v) == (Interned(t, v).0, Interned(t, v).1)
  {
  }

  /** Arrays, objects, big integers and functions are never shared: each call stores a new entry. */
  lemma ComplexNotShared(t: InternTables, v: Value)
    requires Consistent(t) && !Scalar(v)
    ensures Interned(t, v).0 == |t.entries|
    ensures Interned(Interned(t, v).1, v).0 == |t.entries| + 1
  {
  }

  /** Two scalars interned one after the other share a handle exactly when they are equal. */
  lemma SharedIffEqual(t: InternTables, a: Value, b: Value)
    requires Consistent(t) && Scalar(a) && Scalar(b)
    ensures Interned(Interned(t, a).1, b).0 == Interned(t, a).0 <==> a == b
  {
    var (h, t1) := Interned(t, a);
    var (k, t2) := Interned(t1, b);
    assert t1.entries <= t2.entries && h < |t1.entries|;
    assert t2.entries[h] == a;
    if a == b {
      InternShares(t, a);
    }
  }

  /** `ValueInterner`: the tables, updated in place by each call. */
  class ValueInterner {
    var tables: InternTables

    ghost predicate Valid()
      reads this
    {
      Consistent(tables)
    }

    constructor ()
      ensures Valid() && tables == NewTables()
    {
      tables := NewTables();
    }

    method InternValue(v: Value) returns (h: nat)
      requires Valid()
      modifies this
      ensures Valid()
      ensures (h, tables) == Interned(old(tables), v)
    {
      hide Consistent;
      ghost var expected := Interned(tables, v);
      var next := |tables.entries|;
      match v {
        case Integer(i) =>
          if i in tables.integers {
            h := tables.integers[i];
          } else {
            h := next;
            tables := tables.(integers := tables.integers[i := next], entries := tables.entries + [v]);
          }
        case Float(x) =>
          if x in tables.floats {
            h := tables.floats[x];
          } else {
            h := next;
            tables := tables.(floats := tables.floats[x := next], entries := tables.entries + [v]);
          }
        case Str(s) =>
          if s in tables.strings {
            h := tables.strings[s];
          } else {
            h := next;
            tables := tables.(strings := tables.strings[s := next], entries := tables.entries + [v]);
          }
        case Boolean(b) =>
          h := if b then TRUE_HANDLE else FALSE_HANDLE;
        case Null =>
          h := NULL_HANDLE;
        case _ =>
          h := next;
          tables := tables.(entries := tables.entries + [v]);
      }
    }
  }

  // ---------------------------------------------------------------------
  // Size estimates
  // ---------------------------------------------------------------------

  /** Bytes of a string: its UTF-8 length, as Rust's `str::len` counts. */
  function ByteLength(s: string): nat
  {
    |Utf8.Encode(s)|
  }

  /** `Generation::estimate_object_size`: the size a generation charges for a value. */
  function ObjectSize(v: Value): nat
  {
    match v
    case Integer(_) => 8
    case Float(_) => 8
    case Boolean(_) => 1
    case Null => 0
    case Str(s) => ByteLength(s)
    case Array(items) => |items| * 8
    case Object(props) => |props| * 16
    case _ => 64
  }

  /** `AdvancedMemoryManager::estimate_value_size`: the size the manager's counters charge. */
  function ValueSize(v: Value): nat
  {
    match v
    case Integer(_) => 8
    case Float(_) => 8
    case Boolean(_) => 1
    case Null => 0
    case Str(s) => ByteLength(s) + 24
    case Array(items) => |items| * 8 + 24
    case Object(props) => |props| * 16 + 24
    case _ => 64
  }

  /** The two estimates differ only by the 24-byte header the manager adds to strings, arrays and objects. */
  lemma ValueSizeAddsHeader(v: Value)
    ensures ValueSize(v) == ObjectSize(v) + (if v.Str? || v.Array? || v.Object? then 24 else 0)
  {
  }

  /** The sizes of a run of values, added up. */
  function TotalSize(objects: seq<Value>): nat
  {
    if |objects| == 0 then 0 else TotalSize(objects[..|objects| - 1]) + ObjectSize(objects[|objects| - 1])
  }

  lemma TotalSizeAppend(objects: seq<Value>, v: Value)
    ensures TotalSize(objects + [v]) == TotalSize(objects) + ObjectSize(v)
  {
    assert (objects + [v])[..|objects|] == objects;
  }

  // ---------------------------------------------------------------------
  // Generation and GenerationalGC
  // ---------------------------------------------------------------------

  const CAPACITY_EXCEEDED := "Generation capacity exceeded"

  /** `Generation`: the objects it holds and the size it has charged for them. */
  class Generation {
    var objects: seq<Value>
    var size: nat
    const capacity: nat
    var collectionCount: nat

    /** The charged size covers every object held; collection clears objects but never lowers it. */
    ghost predicate Valid()
      reads this
    {
      size >= TotalSize(objects)
    }

    constructor (capacity: nat)
      ensures Valid() && objects == [] && size == 0 && this.capacity == capacity && collectionCount == 0
    {
      objects := [];
      size := 0;
      this.capacity := capacity;
      collectionCount := 0;
    }

    /** `add_object`: refused once the charged size has reached capacity; otherwise the object is held and charged. */
    method AddObject(obj: Value) returns (r: Result<(), Errors.FlowError>)
      requires Valid()
      modifies this
      ensures Valid() && collectionCount == old(collectionCount)
      ensures r.Err? <==> old(size) >= capacity
      ensures r.Err? ==> r.error == Errors.RuntimeErrorNoLine(CAPACITY_EXCEEDED) &&
                         objects == old(objects) && size == old(size)
      ensures r.Ok? ==> objects == old(objects) + [obj] && size == old(size) + ObjectSize(obj)
    {
      if size >= capacity {
        return Err(Errors.RuntimeErrorNoLine(CAPACITY_EXCEEDED));
      }
      TotalSizeAppend(objects, obj);
      size := size + ObjectSize(obj);
      objects := objects + [obj];
      r := Ok(());
    }
  }

  /** The young generation's capacity and the size past which it is collected: 1 MiB each. */
  const YOUNG_CAPACITY: nat := 1024 * 1024
  const COLLECTION_THRESHOLD: nat := 1024 * 1024

  /**
   * `GenerationalGC`, as the manager drives it. The manager registers no
   * root, so marking finds nothing: a young collection frees every young
   * object and promotes none, and the old and permanent generations stay
   * empty.
   */
  class GenerationalGC {
    const young: Generation
    var youngCollections: nat
    var totalCollections: nat

    ghost predicate Valid()
      reads this, young
    {
      young.Valid() && young.capacity == YOUNG_CAPACITY
    }

    constructor ()
      ensures Valid() && fresh(young) && young.objects == [] && young.size == 0
      ensures youngCollections == 0 && totalCollections == 0
    {
      young := new Generation(YOUNG_CAPACITY);
      youngCollections := 0;
      totalCollections := 0;
    }

    /** `collect_young_generation` with an empty root set: every young object is freed; the charged size stays. */
    method CollectYoungGeneration()
      requires Valid()
      modifies this, young
      ensures Valid()
      ensures young.objects == [] && young.size == old(young.size)
      ensures young.collectionCount == old(young.collectionCount) + 1
      ensures youngCollections == old(youngCollections) + 1 && totalCollections == old(totalCollections) + 1
    {
      young.objects := [];
      young.collectionCount := young.collectionCount + 1;
      youngCollections := youngCollections + 1;
      totalCollections := totalCollections + 1;
    }

    /** `allocate`: add to the young generation, then collect it once its size passes the threshold. */
    method Allocate(v: Value) returns (r: Result<(), Errors.FlowError>)
      requires Valid()
      modifies this, young
      ensures Valid()
      ensures r.Err? <==> old(young.size) >= YOUNG_CAPACITY
      ensures r.Err? ==> r.error == Errors.RuntimeErrorNoLine(CAPACITY_EXCEEDED) && young.size == old(young.size)
      ensures r.Ok? ==> young.size == old(young.size) + ObjectSize(v)
      ensures r.Ok? && young.size > COLLECTION_THRESHOLD ==> young.objects == [] && youngCollections == old(youngCollections) + 1
      ensures r.Ok? && young.size <= COLLECTION_THRESHOLD ==> young.objects == old(young.objects) + [v] && youngCollections == old(youngCollections)
    {
      r := young.AddObject(v);
      if r.Err? {
        return;
      }
      if young.size > COLLECTION_THRESHOLD {
        CollectYoungGeneration();
      }
    }
  }

  // ---------------------------------------------------------------------
  // RefCountManager
  // ---------------------------------------------------------------------

  /** A count still above this after a decrement marks the address as a potential cycle. */
  const CYCLE_COLLECTION_THRESHOLD: nat := 100

  /** The reference-count table, the potential cycles and the queue of addresses to examine. */
  datatype RefCounts = RefCounts(counts: map<nat, nat>, potentialCycles: set<nat>, queue: seq<nat>)

  /** Every tracked address holds at least one reference, so a decrement never goes below zero. */
  predicate AllPositive(counts: map<nat, nat>)
  {
    forall p :: p in counts ==> counts[p] >= 1
  }

  /** `increment_ref`: the address gets one more reference, starting from zero when untracked. */
  function Incremented(rc: RefCounts, p: nat): (r: RefCounts)
    ensures AllPositive(rc.counts) ==> AllPositive(r.counts)
    ensures r.counts.Keys == rc.counts.Keys + {p}
    ensures r.potentialCycles == rc.potentialCycles && r.queue == rc.queue
  {
    rc.(counts := rc.counts[p := (if p in rc.counts then rc.counts[p] else 0) + 1])
  }

  /**
   * `decrement_ref`: one reference fewer. The result says whether the
   * address has just lost its last reference, in which case it is no
   * longer tracked.
   */
  function Decremented(rc: RefCounts, p: nat): (r: (RefCounts, bool))
    requires AllPositive(rc.counts)
    ensures AllPositive(r.0.counts)
    ensures r.1 <==> p in rc.counts && rc.counts[p] == 1
    ensures r.0.counts.Keys == if r.1 then rc.counts.Keys - {p} else rc.counts.Keys
  {
    if p !in rc.counts then (rc, false)
    else
      var c := rc.counts[p] - 1;
      if c == 0 then (rc.(counts := rc.counts - {p}), true)
      else if c > CYCLE_COLLECTION_THRESHOLD then
        (rc.(counts := rc.counts[p := c], potentialCycles := rc.potentialCycles + {p}, queue := rc.queue + [p]), false)
      else (rc.(counts := rc.counts[p := c]), false)
  }

  /** Decrementing an untracked address changes nothing and frees nothing. */
  lemma DecrementUntracked(rc: RefCounts, p: nat)
    requires AllPositive(rc.counts) && p !in rc.counts
    ensures Decremented(rc, p) == (rc, false)
  {
  }

  /**
   * A decrement undoes an increment on the counts; it frees the address
   * exactly when the increment had started tracking it.
   */
  lemma DecrementUndoesIncrement(rc: RefCounts, p: nat)
    requires AllPositive(rc.counts)
    ensures Decremented(Incremented(rc, p), p).0.counts == rc.counts
    ensures Decremented(Incremented(rc, p), p).1 <==> p !in rc.counts
  {
    var up := Incremented(rc, p);
    if p in rc.counts {
      assert up.counts[p] - 1 == rc.counts[p];
      assert up.counts[p := rc.counts[p]] == rc.counts;
    } else {
      assert up.counts - {p} == rc.counts;
    }
  }

  /** A decrement queues the address as a potential cycle exactly when more than 100 references remain. */
  lemma CycleCandidates(rc: RefCounts, p: nat)
    requires AllPositive(rc.counts)
    ensures var r := Decremented(rc, p).0;
      (r.queue == rc.queue + [p] && p in r.potentialCycles) <==>
      (p in rc.counts && rc.counts[p] - 1 > CYCLE_COLLECTION_THRESHOLD)
    ensures var r := Decremented(rc, p).0;
      !(p in rc.counts && rc.counts[p] - 1 > CYCLE_COLLECTION_THRESHOLD) ==>
      r.queue == rc.queue && r.potentialCycles == rc.potentialCycles
  {
    var r := Decremented(rc, p).0;
    if r.queue == rc.queue + [p] {
      assert |r.queue| != |rc.queue|;
    }
  }

  /** `RefCountManager`: the table and the cycle bookkeeping, updated in place. */
  class RefCountManager {
    var counts: map<nat, nat>
    var potentialCycles: set<nat>
    var queue: seq<nat>

    function State(): RefCounts
      reads this
    {
      RefCounts(counts, potentialCycles, queue)
    }

    ghost predicate Valid()
      reads this
    {
      AllPositive(counts)
    }

    constructor ()
      ensures Valid() && State() == RefCounts(map[], {}, [])
    {
      counts := map[];
      potentialCycles := {};
      queue := [];
    }

    method IncrementRef(p: nat)
      requires Valid()
      modifies this
      ensures Valid() && State() == Incremented(old(State()), p)
    {
      var c := if p in counts then counts[p] else 0;
      counts := counts[p := c + 1];
    }

    method DecrementRef(p: nat) returns (freed: bool)
      requires Valid()
      modifies this
      ensures Valid() && (State(), freed) == Decremented(old(State()), p)
    {
      freed := false;
      if p in counts {
        var c := counts[p] - 1;
        if c == 0 {
          counts := counts - {p};
          return true;
        } else if c > CYCLE_COLLECTION_THRESHOLD {
          potentialCycles := potentialCycles + {p};
          queue := queue + [p];
        }
        counts := counts[p := c];
      }
    }
  }

  // ---------------------------------------------------------------------
  // MemoryLayoutOptimizer
  // ---------------------------------------------------------------------

  /** `OptimizedLayout`: the field order and its byte accounting. */
  datatype OptimizedLayout = OptimizedLayout(fieldOrder: seq<string>, paddingBytes: nat, totalSize: nat, cacheLineAligned: bool)

  const DEFAULT_FIELD_SIZE: nat := 8
  const DEFAULT_ALIGNMENT: nat := 8
  const CACHE_LINE: nat := 64

  /** A field's size, 8 bytes unless recorded. */
  function FieldSize(sizes: map<string, nat>, field: string): nat
  {
    if field in sizes then sizes[field] else DEFAULT_FIELD_SIZE
  }

  /** A field's alignment, 8 bytes unless recorded. */
  function FieldAlignment(aligns: map<string, nat>, field: string): nat
  {
    if field in aligns then aligns[field] else DEFAULT_ALIGNMENT
  }

  /** No alignment is zero (a zero would make `total_size % alignment` panic). */
  predicate AlignmentsPositive(aligns: map<string, nat>)
  {
    forall f :: f in aligns ==> aligns[f] > 0
  }

  /** A product of a positive number and a whole number other than zero is at least that number in size. */
  lemma ProductAwayFromZero(a: int, d: int)
    requires a > 0 && d != 0
    ensures d > 0 ==> a * d >= a
    ensures d < 0 ==> a * d <= -a
  {
    if d > 0 {
      assert a * d == a * (d - 1) + a;
      assert a * (d - 1) >= 0;
    } else {
      assert a * d == -(a * (-d - 1)) - a;
      assert a * (-d - 1) >= 0;
    }
  }

  /** A multiple of `a` leaves no remainder. */
  lemma MultipleHasNoRemainder(a: nat, k: nat)
    requires a > 0
    ensures (a * k) % a == 0
  {
    var x := a * k;
    var q, r := x / a, x % a;
    assert x == a * q + r && 0 <= r < a;
    assert a * (k - q) == r;
    if k - q != 0 {
      ProductAwayFromZero(a, k - q);
    }
  }

  /** The padding that brings `total` up to a multiple of `alignment`. */
  function Padding(total: nat, alignment: nat): (r: nat)
    requires alignment > 0
    ensures r < alignment && (total + r) % alignment == 0
  {
    var q, m := total / alignment, total % alignment;
    assert total == alignment * q + m;
    if m != 0 then
      assert total + (alignment - m) == alignment * (q + 1);
      MultipleHasNoRemainder(alignment, q + 1);
      alignment - m
    else
      MultipleHasNoRemainder(alignment, q);
      0
  }

  /** The fields' sizes, added up. */
  function SumSizes(sizes: map<string, nat>, fields: seq<string>): nat
  {
    if |fields| == 0 then 0 else FieldSize(sizes, fields[0]) + SumSizes(sizes, fields[1..])
  }

  /**
   * The placement loop of `compute_optimal_layout` from running totals
   * `total` and `padding`: each field is aligned, then its size is added.
   */
  function Placed(sizes: map<string, nat>, aligns: map<string, nat>, fields: seq<string>, total: nat, padding: nat): (nat, nat)
    requires AlignmentsPositive(aligns)
    decreases |fields|
  {
    if |fields| == 0 then (total, padding)
    else
      var pad := Padding(total, FieldAlignment(aligns, fields[0]));
      Placed(sizes, aligns, fields[1..], total + pad + FieldSize(sizes, fields[0]), padding + pad)
  }

  /** Every byte of the total is either a field's own size or padding. */
  lemma {:induction false} PlacedAccounts(sizes: map<string, nat>, aligns: map<string, nat>, fields: seq<string>, total: nat, padding: nat)
    requires AlignmentsPositive(aligns)
    ensures Placed(sizes, aligns, fields, total, padding).1 >= padding
    ensures Placed(sizes, aligns, fields, total, padding).0 ==
            total + (Placed(sizes, aligns, fields, total, padding).1 - padding) + SumSizes(sizes, fields)
    decreases |fields|
  {
    if |fields| > 0 {
      var pad := Padding(total, FieldAlignment(aligns, fields[0]));
      PlacedAccounts(sizes, aligns, fields[1..], total + pad + FieldSize(sizes, fields[0]), padding + pad);
    }
  }

  /** Fields with no recorded size or alignment pack at 8 bytes each with no padding. */
  lemma {:induction false} DefaultFieldsPack(sizes: map<string, nat>, aligns: map<string, nat>, fields: seq<string>, total: nat, padding: nat)
    requires AlignmentsPositive(aligns)
    requires forall i :: 0 <= i < |fields| ==> fields[i] !in sizes && fields[i] !in aligns
    requires total % DEFAULT_ALIGNMENT == 0
    ensures Placed(sizes, aligns, fields, total, padding) == (total + DEFAULT_FIELD_SIZE * |fields|, padding)
    decreases |fields|
  {
    if |fields| > 0 {
      assert Padding(total, FieldAlignment(aligns, fields[0])) == 0;
      DefaultFieldsPack(sizes, aligns, fields[1..], total + DEFAULT_FIELD_SIZE, padding);
    }
  }

  /** `sort_by` on name length: a field goes after every earlier field no longer than it. */
  function InsertByLength(field: string, sorted: seq<string>): (r: seq<string>)
    ensures |r| == |sorted| + 1
  {
    if |sorted| == 0 then [field]
    else if |field| < |sorted[0]| then [field] + sorted
    else [sorted[0]] + InsertByLength(field, sorted[1..])
  }

  /** The stable sort of the fields by name length. */
  function SortByLength(fields: seq<string>): (r: seq<string>)
    ensures |r| == |fields|
  {
    if |fields| == 0 then []
    else InsertByLength(fields[|fields| - 1], SortByLength(fields[..|fields| - 1]))
  }

  predicate ByLength(s: seq<string>)
  {
    forall i, j :: 0 <= i < j < |s| ==> |s[i]| <= |s[j]|
  }

  /** Inserting a field no shorter than a bound among fields no shorter than it keeps every field above the bound. */
  lemma {:induction false} InsertByLengthAbove(field: string, sorted: seq<string>, bound: nat)
    requires bound <= |field|
    requires forall k :: 0 <= k < |sorted| ==> bound <= |sorted[k]|
    ensures forall k :: 0 <= k < |InsertByLength(field, sorted)| ==> bound <= |InsertByLength(field, sorted)[k]|
  {
    if |sorted| > 0 && |field| >= |sorted[0]| {
      InsertByLengthAbove(field, sorted[1..], bound);
    }
  }

  lemma {:induction false} InsertByLengthOrders(field: string, sorted: seq<string>)
    requires ByLength(sorted)
    ensures ByLength(InsertByLength(field, sorted))
  {
    if |sorted| > 0 && |field| >= |sorted[0]| {
      InsertByLengthOrders(field, sorted[1..]);
      InsertByLengthAbove(field, sorted[1..], |sorted[0]|);
    }
  }

  lemma {:induction false} InsertByLengthPermutes(field: string, sorted: seq<string>)
    ensures multiset(InsertByLength(field, sorted)) == multiset(sorted) + multiset{field}
  {
    if |sorted| > 0 && |field| >= |sorted[0]| {
      InsertByLengthPermutes(field, sorted[1..]);
      assert sorted == [sorted[0]] + sorted[1..];
    }
  }

  /** The sorted fields are ordered by name length and are the same fields. */
  lemma {:induction false} SortByLengthSorts(fields: seq<string>)
    ensures ByLength(SortByLength(fields))
    ensures multiset(SortByLength(fields)) == multiset(fields)
  {
    if |fields| > 0 {
      var init := fields[..|fields| - 1];
      SortByLengthSorts(init);
      InsertByLengthOrders(fields[|fields| - 1], SortByLength(init));
      InsertByLengthPermutes(fields[|fields| - 1], SortByLength(init));
      assert fields == init + [fields[|fields| - 1]];
    }
  }

  /**
   * `compute_optimal_layout`: the fields, sorted by name length when an
   * access pattern is recorded for the type, each placed at its alignment.
   * The total is padding plus the fields' sizes, and the layout is
   * cache-line aligned exactly when the total is a multiple of 64.
   */
  function LayoutFor(sizes: map<string, nat>, aligns: map<string, nat>, hasPattern: bool, fields: seq<string>): (r: OptimizedLayout)
    requires AlignmentsPositive(aligns)
    ensures multiset(r.fieldOrder) == multiset(fields)
    ensures hasPattern ==> ByLength(r.fieldOrder)
    ensures !hasPattern ==> r.fieldOrder == fields
    ensures r.totalSize == r.paddingBytes + SumSizes(sizes, r.fieldOrder)
    ensures r.cacheLineAligned <==> r.totalSize % CACHE_LINE == 0
  {
    var order := if hasPattern then SortByLength(fields) else fields;
    SortByLengthSorts(fields);
    PlacedAccounts(sizes, aligns, order, 0, 0);
    var placed := Placed(sizes, aligns, order, 0, 0);
    OptimizedLayout(order, placed.1, placed.0, placed.0 % CACHE_LINE == 0)
  }

  /** With nothing recorded, n fields take 8n bytes, with no padding, in their given order. */
  lemma DefaultLayout(fields: seq<string>)
    ensures LayoutFor(map[], map[], false, fields) ==
            OptimizedLayout(fields, 0, DEFAULT_FIELD_SIZE * |fields|, |fields| % 8 == 0)
  {
    DefaultFieldsPack(map[], map[], fields, 0, 0);
  }

  /** `AccessPattern`'s counters; the ratio and locality score are floating point and left out. */
  datatype AccessCounts = AccessCounts(sequentialAccesses: nat, randomAccesses: nat)

  /** `MemoryLayoutOptimizer`: recorded sizes, alignments, access patterns, and the layouts computed so far. */
  class MemoryLayoutOptimizer {
    var objectSizes: map<string, nat>
    var accessPatterns: map<string, AccessCounts>
    var layoutCache: map<string, OptimizedLayout>
    var alignmentRequirements: map<string, nat>

    ghost predicate Valid()
      reads this
    {
      AlignmentsPositive(alignmentRequirements)
    }

    constructor ()
      ensures Valid()
      ensures objectSizes == map[] && accessPatterns == map[] && layoutCache == map[] && alignmentRequirements == map[]
    {
      objectSizes := map[];
      accessPatterns := map[];
      layoutCache := map[];
      alignmentRequirements := map[];
    }

    /** The placement loop, over the fields in their chosen order. */
    method ComputeOptimalLayout(typeName: string, fields: seq<string>) returns (r: OptimizedLayout)
      requires Valid()
      ensures r == LayoutFor(objectSizes, alignmentRequirements, typeName in accessPatterns, fields)
    {
      var order := fields;
      if typeName in accessPatterns {
        order := SortByLength(fields);
      }
      var total: nat, padding: nat := 0, 0;
      for i := 0 to |order|
        invariant Placed(objectSizes, alignmentRequirements, order, 0, 0) ==
                  Placed(objectSizes, alignmentRequirements, order[i..], total, padding)
      {
        assert order[i..][1..] == order[i + 1..];
        var field := order[i];
        var size := if field in objectSizes then objectSizes[field] else DEFAULT_FIELD_SIZE;
        var alignment := if field in alignmentRequirements then alignmentRequirements[field] else DEFAULT_ALIGNMENT;
        var misalignment := total % alignment;
        if misalignment != 0 {
          var pad := alignment - misalignment;
          padding := padding + pad;
          total := total + pad;
        }
        total := total + size;
      }
      assert order[|order|..] == [];
      r := OptimizedLayout(order, padding, total, total % CACHE_LINE == 0);
    }

    /** `optimize_layout`: the cached layout for a type already seen, whatever the fields; otherwise computed and cached. */
    method OptimizeLayout(typeName: string, fields: seq<string>) returns (r: OptimizedLayout)
      requires Valid()
      modifies this
      ensures Valid()
      ensures objectSizes == old(objectSizes) && accessPatterns == old(accessPatterns)
      ensures alignmentRequirements == old(alignmentRequirements)
      ensures typeName in old(layoutCache) ==> r == old(layoutCache)[typeName] && layoutCache == old(layoutCache)
      ensures typeName !in old(layoutCache) ==>
        r == LayoutFor(objectSizes, alignmentRequirements, typeName in accessPatterns, fields) &&
        layoutCache == old(layoutCache)[typeName := r]
    {
      if typeName in layoutCache {
        return layoutCache[typeName];
      }
      r := ComputeOptimalLayout(typeName, fields);
      layoutCache := layoutCache[typeName := r];
    }

    /** `record_access`: one more sequential or random access for the type. */
    method RecordAccess(typeName: string, field: string, isSequential: bool)
      requires Valid()
      modifies this
      ensures Valid()
      ensures objectSizes == old(objectSizes) && layoutCache == old(layoutCache)
      ensures alignmentRequirements == old(alignmentRequirements)
      ensures var before := if typeName in old(accessPatterns) then old(accessPatterns)[typeName] else AccessCounts(0, 0);
        accessPatterns == old(accessPatterns)[typeName :=
          if isSequential then before.(sequentialAccesses := before.sequentialAccesses + 1)
          else before.(randomAccesses := before.randomAccesses + 1)]
    {
      var pattern := if typeName in accessPatterns then accessPatterns[typeName] else AccessCounts(0, 0);
      if isSequential {
        pattern := pattern.(sequentialAccesses := pattern.sequentialAccesses + 1);
      } else {
        pattern := pattern.(randomAccesses := pattern.randomAccesses + 1);
      }
      accessPatterns := accessPatterns[typeName := pattern];
    }
  }

  // ---------------------------------------------------------------------
  // AdvancedMemoryManager
  // ---------------------------------------------------------------------

  /** `MemoryConfig`. */
  datatype MemoryConfig = MemoryConfig(
    enableInterning: bool,
    enableGc: bool,
    enablePooling: bool,
    enableLayoutOptimization: bool,
    gcThreshold: nat,
    internThreshold: nat,
    poolInitialSize: nat,
    poolMaxSize: nat)

  /** `MemoryConfig::default`: everything enabled, 1 MiB GC threshold, interning after 10 uses, pools of 100 up to 1000. */
  const DEFAULT_CONFIG := MemoryConfig(true, true, true, true, 1024 * 1024, 10, 100, 1000)

  /** The manager's usage counters. */
  datatype Usage = Usage(totalAllocated: nat, totalFreed: nat, peakUsage: nat, currentUsage: nat)

  /**
   * Current usage never exceeds the peak, nor the peak the total ever
   * allocated; in particular `total_allocated - current_usage` in the
   * fragmentation ratio never underflows.
   */
  predicate UsageValid(u: Usage)
  {
    u.currentUsage <= u.peakUsage <= u.totalAllocated
  }

  /** The counters after `allocate_value` charges `size` bytes. */
  function Charged(u: Usage, size: nat): (r: Usage)
    ensures UsageValid(u) ==> UsageValid(r)
    ensures r.peakUsage >= u.peakUsage && r.totalFreed == u.totalFreed
  {
    var current := u.currentUsage + size;
    Usage(u.totalAllocated + size, u.totalFreed, if current > u.peakUsage then current else u.peakUsage, current)
  }

  /** The counters after `deallocate_value` credits `size` bytes; current usage stops at zero. */
  function Credited(u: Usage, size: nat): (r: Usage)
    ensures UsageValid(u) ==> UsageValid(r)
    ensures r.peakUsage == u.peakUsage && r.totalAllocated == u.totalAllocated
    ensures r.currentUsage <= u.currentUsage
  {
    Usage(u.totalAllocated, u.totalFreed + size, u.peakUsage,
          if u.currentUsage >= size then u.currentUsage - size else 0)
  }

  /** Freeing what was just allocated brings current usage back, while the peak remembers the high point. */
  lemma ChargeThenCredit(u: Usage, size: nat)
    ensures Credited(Charged(u, size), size).currentUsage == u.currentUsage
    ensures Credited(Charged(u, size), size).peakUsage >= u.currentUsage + size
    ensures Credited(Charged(u, size), size).totalFreed == u.totalFreed + size
  {
  }

  /** The layout `optimize_memory_layout` returns when layout optimisation is off. */
  function UnoptimizedLayout(fields: seq<string>): OptimizedLayout
  {
    OptimizedLayout(fields, 0, |fields| * DEFAULT_FIELD_SIZE, false)
  }

  /**
   * On a type with nothing recorded, the optimiser and the fallback agree
   * on order, padding and size, but only the optimiser reports a layout of
   * a multiple of eight fields as cache-line aligned.
   */
  lemma UnoptimizedDiffersOnlyInAlignment(fields: seq<string>)
    ensures LayoutFor(map[], map[], false, fields).fieldOrder == UnoptimizedLayout(fields).fieldOrder
    ensures LayoutFor(map[], map[], false, fields).totalSize == UnoptimizedLayout(fields).totalSize
    ensures LayoutFor(map[], map[], false, fields).paddingBytes == UnoptimizedLayout(fields).paddingBytes
    ensures LayoutFor(map[], map[], false, fields).cacheLineAligned != UnoptimizedLayout(fields).cacheLineAligned
            <==> |fields| % 8 == 0
  {
    DefaultLayout(fields);
  }

  /**
   * `AdvancedMemoryManager`: the parts it drives and its usage counters.
   * The object pools it also owns are not part of this model.
   */
  class AdvancedMemoryManager {
    const interner: ValueInterner
    const gc: GenerationalGC
    const refCounter: RefCountManager
    const layoutOptimizer: MemoryLayoutOptimizer
    var totalAllocated: nat
    var totalFreed: nat
    var peakUsage: nat
    var currentUsage: nat
    const config: MemoryConfig

    function UsageNow(): Usage
      reads this
    {
      Usage(totalAllocated, totalFreed, peakUsage, currentUsage)
    }

    ghost predicate Valid()
      reads this, interner, gc, gc.young, refCounter, layoutOptimizer
    {
      UsageValid(UsageNow()) && interner.Valid() && gc.Valid() && refCounter.Valid() && layoutOptimizer.Valid()
    }

    constructor (config: MemoryConfig)
      ensures Valid() && this.config == config && UsageNow() == Usage(0, 0, 0, 0)
      ensures fresh(interner) && fresh(gc) && fresh(gc.young) && fresh(refCounter) && fresh(layoutOptimizer)
    {
      interner := new ValueInterner();
      gc := new GenerationalGC();
      refCounter := new RefCountManager();
      layoutOptimizer := new MemoryLayoutOptimizer();
      totalAllocated, totalFreed, peakUsage, currentUsage := 0, 0, 0, 0;
      this.config := config;
    }

    /** The counter updates at the head of `allocate_value`. */
    method Charge(size: nat)
      requires UsageValid(UsageNow())
      modifies this
      ensures UsageNow() == Charged(old(UsageNow()), size)
    {
      totalAllocated := totalAllocated + size;
      currentUsage := currentUsage + size;
      if currentUsage > peakUsage {
        peakUsage := currentUsage;
      }
    }

    /**
     * `allocate_value`: charge the value's size, intern it when interning
     * is on and `shouldIntern` says so, then hand it to the collector when
     * collection is on. The charge stands even when the collector refuses.
     */
    method AllocateValue(v: Value, shouldIntern: bool) returns (r: Result<Value, Errors.FlowError>)
      requires Valid()
      modifies this, interner, gc, gc.young
      ensures Valid()
      ensures UsageNow() == Charged(old(UsageNow()), ValueSize(v))
      ensures interner.tables == if config.enableInterning && shouldIntern then Interned(old(interner.tables), v).1
                                 else old(interner.tables)
      ensures !config.enableGc ==> r == Ok(v) && gc.young.size == old(gc.young.size)
      ensures config.enableGc ==> (r.Err? <==> old(gc.young.size) >= YOUNG_CAPACITY)
      ensures r.Err? ==> r.error == Errors.RuntimeErrorNoLine(CAPACITY_EXCEEDED)
      ensures r.Ok? ==> r.value == v
      ensures config.enableGc && r.Ok? ==> gc.young.size == old(gc.young.size) + ObjectSize(v)
    {
      hide Interned, Consistent, TotalSize, ObjectSize, Charged;
      Charge(ValueSize(v));
      if config.enableInterning && shouldIntern {
        var _ := interner.InternValue(v);
      }
      if config.enableGc {
        var added := gc.Allocate(v);
        if added.Err? {
          return Err(added.error);
        }
      }
      r := Ok(v);
    }

    /** `deallocate_value`: credit the value's size and, when collection is on, drop one reference to its address. */
    method DeallocateValue(v: Value, address: nat)
      requires Valid()
      modifies this, refCounter
      ensures Valid()
      ensures UsageNow() == Credited(old(UsageNow()), ValueSize(v))
      ensures refCounter.State() == if config.enableGc then Decremented(old(refCounter.State()), address).0
                                    else old(refCounter.State())
    {
      var size := ValueSize(v);
      totalFreed := totalFreed + size;
      currentUsage := if currentUsage >= size then currentUsage - size else 0;
      if config.enableGc {
        var _ := refCounter.DecrementRef(address);
      }
    }

    /** `optimize_memory_layout`: the optimiser's layout when enabled, otherwise the fields as given at 8 bytes each. */
    method OptimizeMemoryLayout(typeName: string, fields: seq<string>) returns (r: OptimizedLayout)
      requires Valid()
      modifies layoutOptimizer
      ensures Valid()
      ensures !config.enableLayoutOptimization ==> r == UnoptimizedLayout(fields)
      ensures config.enableLayoutOptimization && typeName in old(layoutOptimizer.layoutCache) ==>
        r == old(layoutOptimizer.layoutCache)[typeName]
      ensures config.enableLayoutOptimization && typeName !in old(layoutOptimizer.layoutCache) ==>
        r == LayoutFor(layoutOptimizer.objectSizes, layoutOptimizer.alignmentRequirements,
                       typeName in layoutOptimizer.accessPatterns, fields)
    {
      if config.enableLayoutOptimization {
        r := layoutOptimizer.OptimizeLayout(typeName, fields);
      } else {
        r := UnoptimizedLayout(fields);
      }
    }
  }
}
