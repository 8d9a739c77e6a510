# botogram: shared memory and timer scheduler

A verified model of two small in-process components of the botogram bot
framework, derived from their two test files alone
(`tests/test_shared.py`, `tests/test_tasks.py`). The modules under test,
`botogram/shared.py` and `botogram/tasks.py`, are not part of this model;
everything below is what the tests pin down, and the choices the tests
leave open are named.

- `shared.dfy`, module `Shared`: the shared memory store. A `SharedMemory`
  keeps a `LocalDriver` (a map from the storage key, the `(bot, component)`
  pair, to that pair's memory, a `map<string, Value>`), the initializer lists
  registered per component name, and the set of pairs already initialized.
  `Of(bot, component)` hands out a `ComponentMemory` view whose reads and
  writes go through to the store's current driver. On a pair's first access,
  if its component has registered initializers, they run in list order on
  the pair's memory and the pair is marked initialized; they never run for
  that pair again, also not after `SwitchDriver`, which gives the new driver
  all memories of the old one. `Snapshot` models pickling and unpickling the
  store as copying its whole abstract state into a fresh store.
  Initializers are pure functions `Memory -> Memory`: what an initializer
  does to the dictionary it is handed.
  The abstract state (`Store`: memories and initialized pairs) is tied to
  pure step functions `Access` (one `of` call) and `Write` (one item
  assignment); `Run` replays a whole sequence of calls, `Perform` proves that
  making those calls on a `SharedMemory` object ends in `Run`'s state, and
  the lemmas about `Run` state isolation between pairs, at-most-once initialization and that
  driver switches lose nothing.
- `tasks.dfy`, module `Tasks`: periodic timers and the scheduler. A
  `TimerTask` holds an interval, a hook and the clock value of its last run,
  initially `-interval`. It is due at `current` iff
  `lastRun + interval <= current`, and a query that finds it due sets
  `lastRun := current`. `Scheduler.Now(current)` asks every registered timer
  in registration order and returns those that answered due. Its result and
  the timers' new last runs are given by the pure function `Sweep`, which
  keeps last runs per timer object, so a timer added twice is asked twice.
  `NowAll` proves that asking a `TimerTask` object a sequence of clock
  values gives the answers of the pure function `Replay`, about which the
  firing lemmas are stated.
  For distinct timers, `SweepDistinct` shows this is exactly the timers that
  were due, in registration order (`FilterDue`).

Due-ness is not a grid test (`current % interval == 0`). That rule would
answer `[]` at 7 and `[timer1]` at 10 in `test_scheduler`
(tests/test_tasks.py:44, tests/test_tasks.py:46), where the tests expect
`[timer2]` and `[timer1, timer2]`. The last-run rule above accounts for
every assertion of tests/test_tasks.py, and the model follows it.

Each test function is replayed by a method (`TestSharedMemoryCreation`,
`TestTimerNow`, ...) whose postcondition is the test's assertion table,
proved from the contracts of the model's operations.

Choices the tests leave open:
- `Of` runs initializers and marks the pair only when the component has a
  registered list (`NeedsInit`); a pair first accessed before its
  component registers initializers still gets them on a later access.
- `RegisterInitsList` replaces an earlier list for the same component.
- The driver creates a missing memory as the empty one (`Lookup`).

## Model

| member | source | states |
|---|---|---|
| `Shared.SharedMemory.constructor` | tests/test_shared.py:14 | a new store has a fresh, empty local driver, no initializers and no initialized pair |
| `Shared.SharedMemory.RegisterInitsList` | tests/test_shared.py:40-41 | the list is recorded for that component name; nothing else changes |
| `Shared.SharedMemory.Of` | tests/test_shared.py:16-18 | returns a view of exactly the pair `(bot, component)` on this store; the new store state is `Access` of the old: a first access of a pair with registered initializers runs them in order and marks the pair, any other access changes nothing |
| `Shared.SharedMemory.SwitchDriver` | tests/test_shared.py:77-82 | afterwards `driver` is the given driver, and every memory and the initialized set are as before the switch |
| `Shared.SharedMemory.Snapshot` | tests/test_shared.py:63 | the copy is a fresh store with a fresh driver whose memories, initialized pairs and initializer lists equal the original's |
| `Shared.LocalDriver.constructor` | tests/test_shared.py:77 | a new driver holds no memories |
| `Shared.LocalDriver.Put` | tests/test_shared.py:20 | the driver's memory for the key becomes the given one; other keys keep theirs |
| `Shared.LocalDriver.ImportData` | tests/test_shared.py:78 | the driver's memories become exactly the imported ones |
| `Shared.ComponentMemory.constructor` | tests/test_shared.py:16 | the view is bound to the given store and pair |
| `Shared.ComponentMemory.Get` | tests/test_shared.py:25 | `memory[name]` is `Ok` of the stored value exactly when the name is in the pair's memory, and a KeyError for that name otherwise |
| `Shared.ComponentMemory.Contains` | tests/test_shared.py:22-23 | `name in memory` holds exactly when the name is in the pair's memory in the store's current driver |
| `Shared.ComponentMemory.IsEmpty` | tests/test_shared.py:24 | `not memory` holds exactly when no name is in the memory |
| `Shared.LocalDriver.Get` | tests/test_shared.py:16-18 | the driver's memory for a key it holds, and the empty memory for a key it does not hold yet |
| `Shared.Perform` | tests/test_shared.py:69-82 | performing any sequence of `of` calls, writes through views and driver switches on a store ends in the state `Run` gives, with the initializer lists unchanged |
| `Shared.ComponentMemory.Put` | tests/test_shared.py:20 | `memory[name] = v` changes the store as `Write`: the pair's memory gains or replaces `name`, everything else is kept |
| `Shared.ApplyInitsAppend` | tests/test_shared.py:40 | running two initializer lists one after the other equals running their concatenation |
| `Shared.ApplyInitsFirst` | tests/test_shared.py:31-40 | the first initializer of a list runs on the memory as it was and the rest run on its output |
| `Shared.AccessFirst` | tests/test_shared.py:43-48 | on first access a pair's memory becomes its registered initializers applied in order to its old memory, and the pair becomes initialized |
| `Shared.AccessNoInit` | tests/test_shared.py:17-24 | accessing a pair that is initialized, or whose component has no initializers, leaves the store unchanged |
| `Shared.AccessIdempotent` | tests/test_shared.py:54-56 | accessing a pair twice has the effect of accessing it once |
| `Shared.AccessIsolation` | tests/test_shared.py:41-52 | accessing one pair changes no other pair's memory or initialization, so bot2/comp1 is initialized independently of bot1/comp1 |
| `Shared.WriteVisibility` | tests/test_shared.py:20-25 | after a write the name is present with the written value in that pair's memory, and every other pair's memory is unchanged |
| `Shared.InitializedOnlyWrites` | tests/test_shared.py:54-56 | for a pair already initialized, or whose component has no initializers, its memory after any sequence of `of` calls, writes and driver switches is its earlier memory with just the writes to that pair; an initialized pair stays initialized |
| `Shared.InitializedGrows` | tests/test_shared.py:69-82 | no sequence of operations, driver switches included, removes a pair from the initialized set |
| `Shared.TestSharedMemoryCreation` | tests/test_shared.py:13-25 | "test" is in both handles of bot1/comp1 with an equal value, and bot1/comp2 is empty |
| `Shared.TestSharedMemoryInitialization` | tests/test_shared.py:28-56 | comp1 gets a=0 and b=1, comp2 gets a=0 and no b, bot2/comp1 gets a=0, and a later access of bot1/comp1 still reads a=0 |
| `Shared.TestSharedMemoryPickleable` | tests/test_shared.py:59-66 | the original and the restored store read the same value "test" for bot1/comp1 |
| `Shared.TestSwitchDriver` | tests/test_shared.py:69-82 | after the switch the store's driver is the new one and both earlier writes are still read back |
| `Tasks.TimerTask.constructor` | tests/test_tasks.py:18 | a new timer keeps its interval and hook, and its last run is one interval before 0 |
| `Tasks.TimerTask.Now` | tests/test_tasks.py:18-24 | the answer is whether at least one interval has passed since the last run; a due answer records `current` as the last run, otherwise it is kept |
| `Tasks.TimerTask.Process` | tests/test_tasks.py:27-29 | the result is the hook's result on the execution context |
| `Tasks.Replay` | tests/test_tasks.py:18-24 | a sequence of queries gets exactly one answer per query |
| `Tasks.LastRunAfter` | tests/test_tasks.py:40-46 | after a sequence of queries the last run is the starting one or one of the queries |
| `Tasks.NowAll` | tests/test_tasks.py:18-24 | asking a timer any sequence of clock values gives exactly `Replay`'s answers from its last run, and leaves its last run at `LastRunAfter` |
| `Tasks.NextFiring` | tests/test_tasks.py:40-46 | after a run at t, every query before the first one at or above t + interval answers not due, and that first one answers due |
| `Tasks.FreshFiresFirstAtNonNegative` | tests/test_tasks.py:19 | a fresh timer answers not due to negative queries and due to the first query at or above 0 |
| `Tasks.FiringResets` | tests/test_tasks.py:40-46 | once a query finds the timer due, its later answers are those of a timer that last ran at that query |
| `Tasks.Sweep` | tests/test_tasks.py:40-46 | one poll yields at most as many timers as are registered, only registered ones, and changes no unregistered timer's last run |
| `Tasks.SweepDistinct` | tests/test_tasks.py:40 | with distinct timers a poll yields exactly the timers that were due, in registration order, and moves the last run of exactly those to `current` |
| `Tasks.SweepNoneDue` | tests/test_tasks.py:41 | when no registered timer is due, a poll yields nothing and records no run |
| `Tasks.FilterDueMembers` | tests/test_tasks.py:40-46 | a timer is among the due ones iff it is registered and due, and there are at most as many as registered timers |
| `Tasks.Scheduler.constructor` | tests/test_tasks.py:36 | a new scheduler has no timers |
| `Tasks.Scheduler.Add` | tests/test_tasks.py:37-38 | the timer is appended after the registered ones, without reordering or deduplication |
| `Tasks.Scheduler.Now` | tests/test_tasks.py:40-46 | the yielded timers and all timers' new last runs are those of `Sweep` on the old last runs; with distinct timers, the yielded ones are exactly the due ones in registration order and exactly those record the run |
| `Tasks.TestTimerNow` | tests/test_tasks.py:17-24 | an interval-5 timer asked at 0, 3, 5, 6, 8, 10 answers true, false, true, false, false, true, which is also `Replay` of those queries |
| `Tasks.TestTimerProcess` | tests/test_tasks.py:27-29 | processing with the sample hook returns the bot it is given |
| `Tasks.TestScheduler` | tests/test_tasks.py:32-46 | timers of interval 5 and 3 polled at 0, 2, 3, 5, 7, 8, 10 yield [t1, t2], [], [t2], [t1], [t2], [], [t1, t2] |

## Left out

- The storage key: `botogram/shared.py` derives a string key from the bot and component names; it is not part of this model, and the key is the pair itself (`Key`), so distinct pairs never collide.
- Memory contents: Python memories hold any value under any hashable key; the model's names are strings and its values are strings or integers (`Value`), the kinds the tests store.
- The pickle wire format: `Snapshot` copies the abstract state instead. Pickling of initializer functions themselves is not modelled.
- Network-backed and other alternative drivers, and the generic driver operations `exists` and `remove`: the tests use only the local driver, through `of`, item access and `switch_driver`.
- The wall-clock default of `TimerTask.now` and `Scheduler.now` (`time.time()` when no `current` is given): the clock value is always a parameter. Clock values are integers; a floating-point clock is not modelled.
- The lazy generator of `Scheduler.now`: `Scheduler.Now` returns the whole list at once, as `list(...)` in the tests drains it. A poll therefore asks every timer even if a caller would stop iterating early.
- `botogram.pass_bot` and the `bot` test fixture: a hook is a pure function from an execution context to a result, and the test bot is a string.
- Exceptions raised by an initializer or a hook: initializers and hooks are total pure functions, so failure and retry are not modelled.
- Thread safety: nothing here is concurrent.
- Handles taken before a driver switch: a `ComponentMemory` view reads the store's current driver, so after a driver switch an old view sees the new driver's contents; whether the Python dict handed out before a switch stays connected to the new driver is not modelled.
