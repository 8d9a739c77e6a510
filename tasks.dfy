/**
 * Periodic timers and the scheduler that polls them (botogram/tasks.py),
 * with the behaviour that tests/test_tasks.py fixes.
 *
 * A timer remembers when it last ran. It starts as if it had run one
 * interval before time 0, so a fresh timer is due at any clock value >= 0.
 * It is due when at least one interval has passed since its last run, and a
 * query that finds it due records that query's clock value as its last run.
 */
module Tasks {

  /** A timer that last ran at `lastRun` is due at `current`. */
  predicate Due(lastRun: int, interval: int, current: int)
  {
    lastRun + interval <= current
  }

  class TimerTask<C, R> {
    const interval: int
    /** The callback; `C` is the execution context it is given (a bot). */
    const hook: C -> R
    var lastRun: int

    constructor (interval: int, hook: C -> R)
      ensures this.interval == interval && this.hook == hook
      ensures lastRun == -interval
    {
      this.interval := interval;
      this.hook := hook;
      lastRun := -interval;
    }

    /** Answers whether the timer is due at `current`, and if so records the run. */
    method Now(current: int) returns (due: bool)
      modifies this`lastRun
      ensures due == Due(old(lastRun), interval, current)
      ensures lastRun == if due then current else old(lastRun)
    {
      due := lastRun + interval <= current;
      if due {
        lastRun := current;
      }
    }

    /** Runs the callback on the execution context and hands back its result. */
    function Process(ctx: C): (r: R)
      ensures r == hook(ctx)
    {
      hook(ctx)
    }
  }

  /**
   * The answers a timer with `interval` that last ran at `lastRun` gives to
   * the clock values `queries`, asked one after the other.
   */
  function Replay(interval: int, lastRun: int, queries: seq<int>): (answers: seq<bool>)
    ensures |answers| == |queries|
    decreases |queries|
  {
    if queries == [] then []
    else
      var due := Due(lastRun, interval, queries[0]);
      [due] + Replay(interval, if due then queries[0] else lastRun, queries[1..])
  }

  /** The last run of such a timer after it has answered `queries`: the earlier one or one of the queries. */
  function LastRunAfter(interval: int, lastRun: int, queries: seq<int>): (r: int)
    ensures r == lastRun || r in queries
    decreases |queries|
  {
    if queries == [] then lastRun
    else LastRunAfter(interval, if Due(lastRun, interval, queries[0]) then queries[0] else lastRun, queries[1..])
  }

  /**
   * Asks `timer` at each clock value of `queries` in turn. For every query
   * sequence and every starting state, the answers are `Replay`'s, so the
   * lemmas about `Replay` hold of `TimerTask.Now` itself.
   */
  method NowAll<C, R>(timer: TimerTask<C, R>, queries: seq<int>) returns (answers: seq<bool>)
    modifies timer`lastRun
    ensures answers == Replay(timer.interval, old(timer.lastRun), queries)
    ensures timer.lastRun == LastRunAfter(timer.interval, old(timer.lastRun), queries)
  {
    answers := [];
    var i := 0;
    while i < |queries|
      invariant 0 <= i <= |queries|
      invariant answers + Replay(timer.interval, timer.lastRun, queries[i..]) ==
                Replay(timer.interval, old(timer.lastRun), queries)
      invariant LastRunAfter(timer.interval, timer.lastRun, queries[i..]) ==
                LastRunAfter(timer.interval, old(timer.lastRun), queries)
    {
      assert queries[i..][1..] == queries[i + 1..];
      var due := timer.Now(queries[i]);
      answers := answers + [due];
      i := i + 1;
    }
    assert queries[i..] == [];
  }

  /**
   * After a run at `t`, no query below `t + interval` fires, and the first
   * query at or above `t + interval` does.
   */
  lemma {:induction false} NextFiring(interval: int, t: int, queries: seq<int>, j: nat)
    requires j < |queries|
    requires forall p :: 0 <= p < j ==> queries[p] < t + interval
    ensures forall p :: 0 <= p < j ==> !Replay(interval, t, queries)[p]
    ensures Replay(interval, t, queries)[j] == (t + interval <= queries[j])
  {
    if j > 0 {
      NextFiring(interval, t, queries[1..], j - 1);
      assert Replay(interval, t, queries) == [false] + Replay(interval, t, queries[1..]);
    }
  }

  /** A fresh timer fires at the first query that is not negative, and not before. */
  lemma FreshFiresFirstAtNonNegative(interval: int, queries: seq<int>, j: nat)
    requires j < |queries|
    requires forall p :: 0 <= p < j ==> queries[p] < 0
    ensures true !in Replay(interval, -interval, queries)[..j]
    ensures Replay(interval, -interval, queries)[j] == (0 <= queries[j])
  {
    NextFiring(interval, -interval, queries, j);
  }

  /** Once fired at `t`, the timer's answers depend only on `t`, not on earlier history. */
  lemma {:induction false} FiringResets(interval: int, lastRun: int, q: int, rest: seq<int>)
    requires Due(lastRun, interval, q)
    ensures Replay(interval, lastRun, [q] + rest) == [true] + Replay(interval, q, rest)
  {
    assert ([q] + rest)[1..] == rest;
  }

  /**
   * What one poll of the scheduler does, timer by timer in registration order:
   * the timers found due, and every timer's last run afterwards. The last
   * runs are kept per timer object, so a timer added twice is asked twice and
   * sees its own update.
   */
  function Sweep<C, R>(ts: seq<TimerTask<C, R>>, last: map<TimerTask<C, R>, int>, current: int)
    : (r: (seq<TimerTask<C, R>>, map<TimerTask<C, R>, int>))
    requires forall t :: t in ts ==> t in last
    ensures r.1.Keys == last.Keys
    ensures |r.0| <= |ts|
    ensures forall t :: t in r.0 ==> t in ts
    ensures forall t :: t in last && t !in ts ==> r.1[t] == last[t]
  {
    if ts == [] then ([], last)
    else
      var (due, l) := Sweep(ts[..|ts| - 1], last, current);
      var t := ts[|ts| - 1];
      if Due(l[t], t.interval, current) then (due + [t], l[t := current]) else (due, l)
  }

  /** The timers of `ts` due at `current` by the last runs `last`, in order. */
  function FilterDue<C, R>(ts: seq<TimerTask<C, R>>, last: map<TimerTask<C, R>, int>, current: int)
    : seq<TimerTask<C, R>>
    requires forall t :: t in ts ==> t in last
  {
    if ts == [] then []
    else
      var t := ts[|ts| - 1];
      FilterDue(ts[..|ts| - 1], last, current) + if Due(last[t], t.interval, current) then [t] else []
  }

  predicate Distinct<T(==)>(s: seq<T>)
  {
    forall i, j :: 0 <= i < j < |s| ==> s[i] != s[j]
  }

  /**
   * With distinct timers, a poll yields exactly the timers that were due
   * beforehand, in registration order, and moves just their last runs to `current`.
   */
  lemma {:induction false} SweepDistinct<C, R>(ts: seq<TimerTask<C, R>>, last: map<TimerTask<C, R>, int>, current: int)
    requires forall t :: t in ts ==> t in last
    requires Distinct(ts)
    ensures Sweep(ts, last, current).0 == FilterDue(ts, last, current)
    ensures forall t :: t in ts ==>
      Sweep(ts, last, current).1[t] == if Due(last[t], t.interval, current) then current else last[t]
  {
    if ts != [] {
      var init, t := ts[..|ts| - 1], ts[|ts| - 1];
      assert Distinct(init);
      SweepDistinct(init, last, current);
      assert t !in init;
      forall u | u in ts
        ensures Sweep(ts, last, current).1[u] == if Due(last[u], u.interval, current) then current else last[u]
      {
        if u != t {
          assert u in init;
        }
      }
    }
  }

  /** A poll in which no timer is due yields nothing and records no run, even with a timer added twice. */
  lemma {:induction false} SweepNoneDue<C, R>(ts: seq<TimerTask<C, R>>, last: map<TimerTask<C, R>, int>, current: int)
    requires forall t :: t in ts ==> t in last && !Due(last[t], t.interval, current)
    ensures Sweep(ts, last, current) == ([], last)
  {
    if ts != [] {
      SweepNoneDue(ts[..|ts| - 1], last, current);
      assert ts[|ts| - 1] in ts;
    }
  }

  /** A timer appears in `FilterDue` exactly when it is registered and due. */
  lemma {:induction false} FilterDueMembers<C, R>(ts: seq<TimerTask<C, R>>, last: map<TimerTask<C, R>, int>, current: int)
    requires forall t :: t in ts ==> t in last
    ensures |FilterDue(ts, last, current)| <= |ts|
    ensures forall t :: t in FilterDue(ts, last, current) <==> t in ts && Due(last[t], t.interval, current)
  {
    if ts != [] {
      var init := ts[..|ts| - 1];
      FilterDueMembers(init, last, current);
      assert forall t :: t in ts <==> t in init || t == ts[|ts| - 1];
    }
  }

  class Scheduler<C, R> {
    var tasks: seq<TimerTask<C, R>>

    constructor ()
      ensures tasks == []
    {
      tasks := [];
    }

    /** Registers a timer after the ones already there; nothing is deduplicated. */
    method Add(task: TimerTask<C, R>)
      modifies this
      ensures tasks == old(tasks) + [task]
    {
      tasks := tasks + [task];
    }

    /** The last run of every registered timer. */
    function LastRuns(): map<TimerTask<C, R>, int>
      reads this, tasks
    {
      map t | t in tasks :: t.lastRun
    }

    /** Asks every timer, in registration order, and returns those that are due. */
    method Now(current: int) returns (due: seq<TimerTask<C, R>>)
      modifies tasks
      ensures (due, LastRuns()) == Sweep(tasks, old(LastRuns()), current)
      ensures Distinct(tasks) ==> due == FilterDue(tasks, old(LastRuns()), current)
      ensures Distinct(tasks) ==> forall t :: t in tasks ==>
        t.lastRun == if Due(old(t.lastRun), t.interval, current) then current else old(t.lastRun)
    {
      ghost var last0 := LastRuns();
      ghost var l := last0;
      due := [];
      var i := 0;
      while i < |tasks|
        invariant 0 <= i <= |tasks|
        invariant (due, l) == Sweep(tasks[..i], last0, current)
        invariant forall t :: t in tasks ==> t in l && t.lastRun == l[t]
      {
        var t := tasks[i];
        assert tasks[..i + 1][..i] == tasks[..i];
        var fired := t.Now(current);
        if fired {
          due := due + [t];
          l := l[t := current];
        }
        i := i + 1;
      }
      assert tasks[..i] == tasks;
      assert LastRuns() == l;
      if Distinct(tasks) {
        SweepDistinct(tasks, last0, current);
      }
    }
  }

  /** `FilterDue` on two timers, unfolded. */
  lemma FilterDuePair<C, R>(t1: TimerTask<C, R>, t2: TimerTask<C, R>, last: map<TimerTask<C, R>, int>, current: int)
    requires t1 in last && t2 in last
    ensures FilterDue([t1, t2], last, current) ==
      (if Due(last[t1], t1.interval, current) then [t1] else []) +
      (if Due(last[t2], t2.interval, current) then [t2] else [])
  {
    assert [t1, t2][..1] == [t1];
    assert [t1][..0] == [];
    assert FilterDue([t1], last, current) == (if Due(last[t1], t1.interval, current) then [t1] else []);
  }

  /** The sample hook of the tests: it returns the bot it is given. */
  function SampleTimer(bot: string): string
  {
    bot
  }

  /** tests/test_tasks.py, test_timer_now: an interval-5 timer asked at 0, 3, 5, 6, 8, 10. */
  method TestTimerNow() returns (answers: seq<bool>)
    ensures answers == [true, false, true, false, false, true]
    ensures answers == Replay(5, -5, [0, 3, 5, 6, 8, 10])
  {
    var timer := new TimerTask(5, SampleTimer);
    var a0 := timer.Now(0);
    var a3 := timer.Now(3);
    var a5 := timer.Now(5);
    var a6 := timer.Now(6);
    var a8 := timer.Now(8);
    var a10 := timer.Now(10);
    answers := [a0, a3, a5, a6, a8, a10];
  }

  /** tests/test_tasks.py, test_timer_process: processing hands the bot back. */
  method TestTimerProcess(bot: string) returns (r: string)
    ensures r == bot
  {
    var timer := new TimerTask(5, SampleTimer);
    r := timer.Process(bot);
  }

  /** One poll of a scheduler holding two distinct timers, in terms of each timer's answer. */
  method Poll<C, R>(scheduler: Scheduler<C, R>, t1: TimerTask<C, R>, t2: TimerTask<C, R>, current: int)
    returns (due: seq<TimerTask<C, R>>)
    requires scheduler.tasks == [t1, t2] && t1 != t2
    modifies t1, t2
    ensures due == (if Due(old(t1.lastRun), t1.interval, current) then [t1] else []) +
                   (if Due(old(t2.lastRun), t2.interval, current) then [t2] else [])
    ensures t1.lastRun == if Due(old(t1.lastRun), t1.interval, current) then current else old(t1.lastRun)
    ensures t2.lastRun == if Due(old(t2.lastRun), t2.interval, current) then current else old(t2.lastRun)
  {
    ghost var last := scheduler.LastRuns();
    due := scheduler.Now(current);
    FilterDuePair(t1, t2, last, current);
  }

  /** tests/test_tasks.py, test_scheduler: timers of interval 5 and 3, polled at 0, 2, 3, 5, 7, 8, 10. */
  method TestScheduler()
    returns (timer1: TimerTask<string, string>, timer2: TimerTask<string, string>,
             at0: seq<TimerTask<string, string>>, at2: seq<TimerTask<string, string>>,
             at3: seq<TimerTask<string, string>>, at5: seq<TimerTask<string, string>>,
             at7: seq<TimerTask<string, string>>, at8: seq<TimerTask<string, string>>,
             at10: seq<TimerTask<string, string>>)
    ensures at0 == [timer1, timer2] && at2 == [] && at3 == [timer2] && at5 == [timer1]
    ensures at7 == [timer2] && at8 == [] && at10 == [timer1, timer2]
  {
    timer1 := new TimerTask(5, SampleTimer);
    timer2 := new TimerTask(3, SampleTimer);
    var scheduler := new Scheduler();
    scheduler.Add(timer1);
    scheduler.Add(timer2);
    assert Distinct(scheduler.tasks);
    at0 := Poll(scheduler, timer1, timer2, 0);
    at2 := Poll(scheduler, timer1, timer2, 2);
    at3 := Poll(scheduler, timer1, timer2, 3);
    at5 := Poll(scheduler, timer1, timer2, 5);
    at7 := Poll(scheduler, timer1, timer2, 7);
    at8 := Poll(scheduler, timer1, timer2, 8);
    at10 := Poll(scheduler, timer1, timer2, 10);
  }
}
