/**
 * The shared memory store (botogram/shared.py), with the behaviour that
 * tests/test_shared.py fixes.
 *
 * A store hands out, per (bot, component) pair, a dictionary-like memory kept
 * in a local driver. Each component may register an ordered list of
 * initializers; they run on a pair's memory the first time the pair is
 * asked for, and never again for that pair, even after the driver is
 * replaced.
 */
module Shared {

  /** The values the tests store: strings and integers. */
  datatype Value = Str(s: string) | Int(i: int)

  /** A read of a memory key: the value, or the key that is missing (Python's KeyError). */
  datatype Result<T> = Ok(value: T) | KeyError(key: string)

  /** One component's memory for one bot: a dictionary from names to values. */
  type Memory = map<string, Value>

  /** Where a memory is kept: the (bot, component) pair. */
  datatype Key = Key(bot: string, component: string)

  /** An initializer: what it does to the memory it is handed. */
  type Init = Memory -> Memory

  /** The memory the driver keeps for `k`; the driver starts a missing one empty. */
  function Lookup(memories: map<Key, Memory>, k: Key): Memory
  {
    if k in memories then memories[k] else map[]
  }

  /** Runs `inits` on `m`, first initializer first. */
  function ApplyInits(inits: seq<Init>, m: Memory): Memory
  {
    if inits == [] then m else inits[|inits| - 1](ApplyInits(inits[..|inits| - 1], m))
  }

  /** Running two lists one after the other is running their concatenation. */
  lemma {:induction false} ApplyInitsAppend(fs: seq<Init>, gs: seq<Init>, m: Memory)
    ensures ApplyInits(fs + gs, m) == ApplyInits(gs, ApplyInits(fs, m))
  {
    if gs != [] {
      var gs', g := gs[..|gs| - 1], gs[|gs| - 1];
      assert (fs + gs)[..|fs + gs| - 1] == fs + gs';
      ApplyInitsAppend(fs, gs', m);
    } else {
      assert fs + gs == fs;
    }
  }

  /** The first initializer of a list sees the memory as it was, the rest see its output. */
  lemma ApplyInitsFirst(f: Init, fs: seq<Init>, m: Memory)
    ensures ApplyInits([f] + fs, m) == ApplyInits(fs, f(m))
  {
    ApplyInitsAppend([f], fs, m);
    assert [f][..0] == [];
  }

  /** The abstract state of a store: the driver's memories and the pairs already initialized. */
  datatype Store = Store(memories: map<Key, Memory>, initialized: set<Key>)

  /** Asking for `k` runs initializers: its component has a list and the pair has not been initialized. */
  predicate NeedsInit(s: Store, inits: map<string, seq<Init>>, k: Key)
  {
    k !in s.initialized && k.component in inits
  }

  /** What asking for the memory of `k` does to the store. */
  function Access(s: Store, inits: map<string, seq<Init>>, k: Key): Store
  {
    if NeedsInit(s, inits, k) then
      Store(s.memories[k := ApplyInits(inits[k.component], Lookup(s.memories, k))], s.initialized + {k})
    else s
  }

  /** What `memory[name] = v` on the memory of `k` does to the store. */
  function Write(s: Store, k: Key, name: string, v: Value): Store
  {
    Store(s.memories[k := Lookup(s.memories, k)[name := v]], s.initialized)
  }

  /** On first access, a pair's memory is its old memory with the component's initializers run in order. */
  lemma AccessFirst(s: Store, inits: map<string, seq<Init>>, k: Key)
    requires NeedsInit(s, inits, k)
    ensures Lookup(Access(s, inits, k).memories, k) == ApplyInits(inits[k.component], Lookup(s.memories, k))
    ensures k in Access(s, inits, k).initialized
  {
  }

  /** Asking for an initialized pair, or for one whose component has no initializers, changes nothing. */
  lemma AccessNoInit(s: Store, inits: map<string, seq<Init>>, k: Key)
    requires k in s.initialized || k.component !in inits
    ensures Access(s, inits, k) == s
  {
  }

  /** Asking twice is asking once: initializers run at most once per pair. */
  lemma AccessIdempotent(s: Store, inits: map<string, seq<Init>>, k: Key)
    ensures Access(Access(s, inits, k), inits, k) == Access(s, inits, k)
  {
  }

  /** Asking for one pair leaves every other pair's memory and initialization alone. */
  lemma AccessIsolation(s: Store, inits: map<string, seq<Init>>, k: Key, k': Key)
    requires k' != k
    ensures Lookup(Access(s, inits, k).memories, k') == Lookup(s.memories, k')
    ensures k' in Access(s, inits, k).initialized <==> k' in s.initialized
  {
  }

  /** A write is visible under its own pair and nowhere else. */
  lemma WriteVisibility(s: Store, k: Key, name: string, v: Value, k': Key, name': string)
    ensures name' in Lookup(Write(s, k, name, v).memories, k') <==>
      (k' == k && name' == name) || name' in Lookup(s.memories, k')
    ensures k' != k ==> Lookup(Write(s, k, name, v).memories, k') == Lookup(s.memories, k')
    ensures Lookup(Write(s, k, name, v).memories, k)[name] == v
  {
  }

  /** The operations a client performs on a store, in the order it performs them. */
  datatype Op =
    | Of(key: Key)
    | Set(key: Key, name: string, value: Value)
    | SwitchDriver

  /** The store after `ops`. A driver switch carries all data over, so it leaves the abstract state alone. */
  function Run(s: Store, inits: map<string, seq<Init>>, ops: seq<Op>): Store
    decreases |ops|
  {
    if ops == [] then s
    else
      var s' := match ops[0]
        case Of(k) => Access(s, inits, k)
        case Set(k, name, v) => Write(s, k, name, v)
        case SwitchDriver => s;
      Run(s', inits, ops[1..])
  }

  /** Only the writes of `ops` to `k`, applied to `m`. */
  function WritesTo(m: Memory, k: Key, ops: seq<Op>): Memory
    decreases |ops|
  {
    if ops == [] then m
    else if ops[0].Set? && ops[0].key == k then WritesTo(m[ops[0].name := ops[0].value], k, ops[1..])
    else WritesTo(m, k, ops[1..])
  }

  /**
   * Once a pair is initialized (or its component has no initializers), its
   * memory after any sequence of operations is its memory before with just
   * the writes to it: no initializer runs on it again, no other pair's
   * operations leak into it, and driver switches lose nothing. The pair
   * also stays initialized.
   */
  lemma {:induction false} InitializedOnlyWrites(s: Store, inits: map<string, seq<Init>>, ops: seq<Op>, k: Key)
    requires k in s.initialized || k.component !in inits
    ensures Lookup(Run(s, inits, ops).memories, k) == WritesTo(Lookup(s.memories, k), k, ops)
    ensures k in s.initialized ==> k in Run(s, inits, ops).initialized
    decreases |ops|
  {
    if ops != [] {
      var s' := match ops[0]
        case Of(k') => Access(s, inits, k')
        case Set(k', name, v) => Write(s, k', name, v)
        case SwitchDriver => s;
      InitializedOnlyWrites(s', inits, ops[1..], k);
    }
  }

  /** Pairs once initialized stay initialized through any sequence of operations. */
  lemma {:induction false} InitializedGrows(s: Store, inits: map<string, seq<Init>>, ops: seq<Op>)
    ensures s.initialized <= Run(s, inits, ops).initialized
    decreases |ops|
  {
    if ops != [] {
      var s' := match ops[0]
        case Of(k') => Access(s, inits, k')
        case Set(k', name, v) => Write(s, k', name, v)
        case SwitchDriver => s;
      InitializedGrows(s', inits, ops[1..]);
    }
  }

  /** The in-process driver: every memory, by storage key. */
  class LocalDriver {
    var memories: map<Key, Memory>

    constructor ()
      ensures memories == map[]
    {
      memories := map[];
    }

    /** The memory kept for `k`, empty when there is none yet. */
    function Get(k: Key): (m: Memory)
      reads this
      ensures k in memories ==> m == memories[k]
      ensures k !in memories ==> m == map[]
    {
      Lookup(memories, k)
    }

    /** Stores `m` as the memory of `k`. */
    method Put(k: Key, m: Memory)
      modifies this
      ensures memories == old(memories)[k := m]
    {
      memories := memories[k := m];
    }

    /** Takes over all memories of another driver, replacing its own. */
    method ImportData(data: map<Key, Memory>)
      modifies this
      ensures memories == data
    {
      memories := data;
    }
  }

  class SharedMemory {
    var driver: LocalDriver
    /** The registered initializer lists, by component name. */
    var inits: map<string, seq<Init>>
    /** The pairs whose initializers have run, kept apart from the driver. */
    var initialized: set<Key>

    constructor ()
      ensures fresh(driver)
      ensures State() == Store(map[], {}) && inits == map[]
    {
      driver := new LocalDriver();
      inits := map[];
      initialized := {};
    }

    function State(): Store
      reads this, driver
    {
      Store(driver.memories, initialized)
    }

    /** Registers the initializers of `component`, replacing any earlier list. */
    method RegisterInitsList(component: string, list: seq<Init>)
      modifies this`inits
      ensures inits == old(inits)[component := list]
    {
      inits := inits[component := list];
    }

    /**
     * The memory of `bot`'s `component`. On the pair's first access, when the
     * component has initializers, they run in order on its memory before it
     * is handed out, and the pair is marked initialized.
     */
    method Of(bot: string, component: string) returns (memory: ComponentMemory)
      modifies this`initialized, driver
      ensures fresh(memory) && memory.store == this && memory.key == Key(bot, component)
      ensures State() == Access(old(State()), inits, Key(bot, component))
    {
      var key := Key(bot, component);
      if key !in initialized && component in inits {
        var list := inits[component];
        ghost var before := driver.memories;
        driver.Put(key, driver.Get(key));
        var i := 0;
        while i < |list|
          modifies driver
          invariant 0 <= i <= |list|
          invariant driver.memories == before[key := ApplyInits(list[..i], Lookup(before, key))]
        {
          assert list[..i + 1][..i] == list[..i];
          driver.Put(key, list[i](driver.Get(key)));
          i := i + 1;
        }
        assert list[..i] == list;
        initialized := initialized + {key};
      }
      memory := new ComponentMemory(this, key);
    }

    /**
     * Replaces the driver with `newDriver`, which first takes over all the
     * current driver's memories; the initialized pairs are kept.
     */
    method SwitchDriver(newDriver: LocalDriver)
      modifies this`driver, newDriver
      ensures driver == newDriver
      ensures State() == old(State())
    {
      var data := driver.memories;
      newDriver.ImportData(data);
      driver := newDriver;
    }

    /** A copy of the whole store (what pickling and unpickling yields), sharing nothing with it. */
    method Snapshot() returns (copy: SharedMemory)
      ensures fresh(copy) && fresh(copy.driver)
      ensures copy.State() == State() && copy.inits == inits
    {
      copy := new SharedMemory();
      copy.driver.ImportData(driver.memories);
      copy.initialized := initialized;
      copy.inits := inits;
    }
  }

  /** A dictionary-like view of one pair's memory; every access goes through to the store's driver. */
  class ComponentMemory {
    const store: SharedMemory
    const key: Key

    constructor (store: SharedMemory, key: Key)
      ensures this.store == store && this.key == key
    {
      this.store := store;
      this.key := key;
    }

    function Contents(): Memory
      reads store, store.driver
    {
      store.driver.Get(key)
    }

    /** `name in memory` */
    predicate Contains(name: string)
      reads store, store.driver
      ensures Contains(name) <==> name in Lookup(store.State().memories, key)
    {
      name in Contents()
    }

    /** `not memory`: the memory holds no key. */
    predicate IsEmpty()
      reads store, store.driver
      ensures IsEmpty() <==> forall name :: !Contains(name)
    {
      assert (forall name :: !Contains(name)) ==> Contents() == map[] by {
        if Contents() != map[] {
          assert Contents().Keys != {};
          var n :| n in Contents();
          assert Contains(n);
        }
      }
      Contents() == map[]
    }

    /** `memory[name]`: the value, or a KeyError when the memory lacks `name`. */
    function Get(name: string): (r: Result<Value>)
      reads store, store.driver
      ensures r.Ok? <==> Contains(name)
      ensures r.Ok? ==> r.value == Contents()[name]
      ensures r.KeyError? ==> r.key == name
    {
      if name in Contents() then Ok(Contents()[name]) else KeyError(name)
    }

    /** `memory[name] = v` */
    method Put(name: string, v: Value)
      modifies store.driver
      ensures store.State() == Write(old(store.State()), key, name, v)
    {
      var m := store.driver.Get(key);
      store.driver.Put(key, m[name := v]);
    }
  }

  /**
   * Performs `ops` on `shared` one after the other: `Of` asks for a pair's
   * memory, `Set` writes through a view of the pair, `SwitchDriver` switches
   * to a new local driver. The store ends in the state `Run` gives.
   */
  method Perform(shared: SharedMemory, ops: seq<Op>)
    modifies shared, shared.driver
    ensures shared.State() == Run(old(shared.State()), shared.inits, ops)
    ensures shared.inits == old(shared.inits)
  {
    var i := 0;
    while i < |ops|
      invariant 0 <= i <= |ops|
      invariant shared.inits == old(shared.inits)
      invariant shared.driver == old(shared.driver) || fresh(shared.driver)
      invariant Run(shared.State(), shared.inits, ops[i..]) == Run(old(shared.State()), shared.inits, ops)
    {
      assert ops[i..][1..] == ops[i + 1..];
      match ops[i] {
        case Of(k) =>
          var memory := shared.Of(k.bot, k.component);
        case Set(k, name, v) =>
          var memory := new ComponentMemory(shared, k);
          memory.Put(name, v);
        case SwitchDriver =>
          var driver := new LocalDriver();
          shared.SwitchDriver(driver);
      }
      i := i + 1;
    }
  }

  /** The two initializers of tests/test_shared.py. */
  function Init1(m: Memory): Memory
  {
    if "a" in m then m["a" := Int(1)] else m["a" := Int(0)]
  }

  function Init2(m: Memory): Memory
  {
    m["b" := Int(1)]
  }

  /** tests/test_shared.py, test_shared_memory_creation. */
  method TestSharedMemoryCreation()
    returns (inComp1: bool, inComp1b: bool, comp2Empty: bool, v1: Result<Value>, v1b: Result<Value>)
    ensures inComp1 && inComp1b && comp2Empty
    ensures v1 == v1b == Ok(Str("test"))
  {
    var shared := new SharedMemory();
    var comp1 := shared.Of("bot1", "comp1");
    var comp2 := shared.Of("bot1", "comp2");
    var comp1b := shared.Of("bot1", "comp1");
    comp1.Put("test", Str("test"));
    inComp1 := comp1.Contains("test");
    inComp1b := comp1b.Contains("test");
    comp2Empty := comp2.IsEmpty();
    v1 := comp1.Get("test");
    v1b := comp1b.Get("test");
  }

  /** tests/test_shared.py, test_shared_memory_initialization. */
  method TestSharedMemoryInitialization()
    returns (a1: Result<Value>, b1: Result<Value>, a2: Result<Value>, bIn2: bool,
             a3: Result<Value>, a1b: Result<Value>)
    ensures a1 == Ok(Int(0)) && b1 == Ok(Int(1))
    ensures a2 == Ok(Int(0)) && !bIn2
    ensures a3 == Ok(Int(0))
    ensures a1b == Ok(Int(0))
  {
    var shared := new SharedMemory();
    shared.RegisterInitsList("comp1", [Init1, Init2]);
    shared.RegisterInitsList("comp2", [Init1]);
    ghost var initialized := map["a" := Int(0), "b" := Int(1)];
    assert ApplyInits([Init1, Init2], map[]) == initialized by {
      ApplyInitsFirst(Init1, [Init2], map[]);
      ApplyInitsFirst(Init2, [], Init1(map[]));
    }
    assert ApplyInits([Init1], map[]) == map["a" := Int(0)] by {
      ApplyInitsFirst(Init1, [], map[]);
    }
    var memory1 := shared.Of("bot1", "comp1");
    assert shared.State().memories == map[Key("bot1", "comp1") := initialized];
    var memory2 := shared.Of("bot1", "comp2");
    var memory3 := shared.Of("bot2", "comp1");
    assert shared.State() == Store(
      map[Key("bot1", "comp1") := initialized, Key("bot1", "comp2") := map["a" := Int(0)],
          Key("bot2", "comp1") := initialized],
      {Key("bot1", "comp1"), Key("bot1", "comp2"), Key("bot2", "comp1")});
    a1 := memory1.Get("a");
    b1 := memory1.Get("b");
    a2 := memory2.Get("a");
    bIn2 := memory2.Contains("b");
    a3 := memory3.Get("a");
    var memory1b := shared.Of("bot1", "comp1");
    a1b := memory1b.Get("a");
  }

  /** tests/test_shared.py, test_shared_memory_pickleable. */
  method TestSharedMemoryPickleable() returns (original: Result<Value>, restored: Result<Value>)
    ensures original == restored == Ok(Str("test"))
  {
    var shared := new SharedMemory();
    var memory := shared.Of("bot1", "comp1");
    memory.Put("test", Str("test"));
    var pickled := shared.Snapshot();
    memory := shared.Of("bot1", "comp1");
    original := memory.Get("test");
    var other := pickled.Of("bot1", "comp1");
    restored := other.Get("test");
  }

  /** tests/test_shared.py, test_switch_driver. */
  method TestSwitchDriver() returns (sameDriver: bool, a: Result<Value>, b: Result<Value>)
    ensures sameDriver && a == Ok(Str("b")) && b == Ok(Str("c"))
  {
    var shared := new SharedMemory();
    var test1 := shared.Of("bot1", "test1");
    test1.Put("a", Str("b"));
    var test2 := shared.Of("bot1", "test2");
    test2.Put("b", Str("c"));
    var driver := new LocalDriver();
    shared.SwitchDriver(driver);
    sameDriver := shared.driver == driver;
    test1 := shared.Of("bot1", "test1");
    a := test1.Get("a");
    test2 := shared.Of("bot1", "test2");
    b := test2.Get("b");
  }
}
