/**
 The registry of active dispatches: dispatchers that register a task, tasks that clean up after
 themselves, callers waiting for the registry to be empty, and shutdown.

 Each step is what happens under one hold of the registry's lock, or one call of the notifier.
 */
module Registry {
  import opened Options

  type Correlation = int
  type TaskId = int
  type WaiterId = int
  type ShutdownId = int

  // A task starts once it is told that it was registered; from then on it removes its correlation
  // when it ends, however it ends.
  datatype Phase = Spawned | Inserted | Running | Cleaned | Gone

  datatype Task = Task(correlation: Correlation, phase: Phase)

  // A waiter first enrols with the notifier, then looks at the registry, then sleeps.
  datatype Waiter = Fresh | Enrolled(notified: bool) | Asleep | Returned

  datatype Tasks = Tasks(active: map<Correlation, TaskId>, tasks: map<TaskId, Task>)

  // `owing` are the shutdowns that have taken the registry and not yet notified.
  datatype Sleepers = Sleepers(waiters: map<WaiterId, Waiter>, owing: set<ShutdownId>, emptiedBy: Option<ShutdownId>)

  datatype World = World(reg: Tasks, idle: Sleepers)

  const START := World(Tasks(map[], map[]), Sleepers(map[], {}, None))

  // Notifying wakes every sleeper and is remembered by every enrolled waiter.
  function Wake(w: Waiter): Waiter {
    match w case Enrolled(_) => Enrolled(true) case Asleep => Fresh case _ => w
  }

  function NotifyAll(s: Sleepers): Sleepers {
    s.(waiters := map i | i in s.waiters :: Wake(s.waiters[i]))
  }

  function PutTask(r: Tasks, t: TaskId, x: Task): Tasks { Tasks(r.active, r.tasks[t := x]) }

  datatype Label =
    | LSpawn(task: TaskId, correlation: Correlation)
    | LRegister(task: TaskId)
    | LSignal(task: TaskId)
    | LCleanup(task: TaskId)
    | LKill(task: TaskId)
    | LEnrol(waiter: WaiterId)
    | LLook(waiter: WaiterId)
    | LTake(shutdown: ShutdownId)
    | LNotify(shutdown: ShutdownId)
    | LAbort

  function DoRegister(w: World, t: TaskId): World
    requires t in w.reg.tasks
  {
    var x := w.reg.tasks[t];
    if x.correlation in w.reg.active then World(PutTask(w.reg, t, x.(phase := Gone)), w.idle)
    else World(Tasks(w.reg.active[x.correlation := t], w.reg.tasks[t := x.(phase := Inserted)]), w.idle)
  }

  function DoCleanup(w: World, t: TaskId): World
    requires t in w.reg.tasks
  {
    var x := w.reg.tasks[t];
    var active := w.reg.active - {x.correlation};
    World(Tasks(active, w.reg.tasks[t := x.(phase := Cleaned)]), if active == map[] then NotifyAll(w.idle) else w.idle)
  }

  function DoLook(w: World, i: WaiterId): World
    requires i in w.idle.waiters && w.idle.waiters[i].Enrolled?
  {
    var next := if w.reg.active == map[] then Returned else if w.idle.waiters[i].notified then Fresh else Asleep;
    World(w.reg, w.idle.(waiters := w.idle.waiters[i := next]))
  }

  function DoTake(w: World, s: ShutdownId): World {
    World(w.reg.(active := map[]),
          w.idle.(owing := w.idle.owing + {s},
                  emptiedBy := if w.reg.active == map[] then w.idle.emptiedBy else Some(s)))
  }

  function DoNotify(w: World, s: ShutdownId): World { World(w.reg, NotifyAll(w.idle.(owing := w.idle.owing - {s}))) }

  predicate Enabled(w: World, l: Label) {
    match l
    case LSpawn(t, _) => t !in w.reg.tasks
    case LRegister(t) => t in w.reg.tasks && w.reg.tasks[t].phase.Spawned?
    case LSignal(t) => t in w.reg.tasks && w.reg.tasks[t].phase.Inserted?
    case LCleanup(t) => t in w.reg.tasks && w.reg.tasks[t].phase.Running?
    // Only a shutdown or an abort, which took its handle, can abort a task before it started.
    case LKill(t) => t in w.reg.tasks && w.reg.tasks[t].phase.Inserted? && t !in w.reg.active.Values
    case LEnrol(i) => i !in w.idle.waiters || w.idle.waiters[i].Fresh?
    case LLook(i) => i in w.idle.waiters && w.idle.waiters[i].Enrolled?
    case LTake(s) => s !in w.idle.owing
    case LNotify(s) => s in w.idle.owing
    case LAbort => true
  }

  function Next(w: World, l: Label): World
    requires Enabled(w, l)
  {
    match l
    case LSpawn(t, c) => World(PutTask(w.reg, t, Task(c, Spawned)), w.idle)
    case LRegister(t) => DoRegister(w, t)
    case LSignal(t) => World(PutTask(w.reg, t, w.reg.tasks[t].(phase := Running)), w.idle)
    case LCleanup(t) => DoCleanup(w, t)
    case LKill(t) => World(PutTask(w.reg, t, w.reg.tasks[t].(phase := Gone)), w.idle)
    case LEnrol(i) => World(w.reg, w.idle.(waiters := w.idle.waiters[i := Enrolled(false)]))
    case LLook(i) => DoLook(w, i)
    case LTake(s) => DoTake(w, s)
    case LNotify(s) => DoNotify(w, s)
    case LAbort => World(w.reg.(active := map[]), NotifyAll(w.idle))
  }

  predicate Legal(run: seq<Label>)
    decreases |run|, 0
  {
    run == [] || (Legal(run[..|run| - 1]) && Enabled(After(run[..|run| - 1]), run[|run| - 1]))
  }

  function After(run: seq<Label>): World
    requires Legal(run)
    decreases |run|, 1
  {
    if run == [] then START else Next(After(run[..|run| - 1]), run[|run| - 1])
  }

  // ----- Waiters, in every run -----

  // A sleeper over an empty registry is still owed the notification of the shutdown that emptied it.
  ghost predicate WaiterOk(w: World, i: WaiterId) {
    i in w.idle.waiters && w.idle.waiters[i].Asleep? && w.reg.active == map[] ==>
      w.idle.emptiedBy.Some? && w.idle.emptiedBy.value in w.idle.owing
  }

  /** In every run, a caller of `wait_for_idle` sleeps over an empty registry only while the shutdown that
      emptied it still has to notify. */
  lemma {:induction false} NobodySleepsOverIdle(run: seq<Label>, i: WaiterId)
    requires Legal(run)
    ensures WaiterOk(After(run), i)
    decreases |run|
  {
    if run != [] {
      NobodySleepsOverIdle(run[..|run| - 1], i);
    }
  }

  // The step calls the notifier.
  predicate Notifies(w: World, l: Label)
    requires Enabled(w, l)
  {
    l.LNotify? || l.LAbort? || (l.LCleanup? && Next(w, l).reg.active == map[])
  }

  // The waiter is enrolled, was notified since, and has not looked yet.
  predicate Told(w: World, i: WaiterId) { i in w.idle.waiters && w.idle.waiters[i] == Enrolled(true) }

  lemma ToldStep(w: World, l: Label, i: WaiterId)
    requires Enabled(w, l) && l != LLook(i) && i in w.idle.waiters && w.idle.waiters[i].Enrolled?
    requires Told(w, i) || Notifies(w, l)
    ensures Told(Next(w, l), i)
  {
  }

  lemma {:induction false} StaysTold(run: seq<Label>, n: nat, i: WaiterId)
    requires Legal(run) && n <= |run| && Legal(run[..n]) && Told(After(run[..n]), i)
    requires forall k | n <= k < |run| :: run[k] != LLook(i)
    ensures Told(After(run), i)
    decreases |run|
  {
    if n == |run| {
      assert run[..n] == run;
    } else {
      var before := run[..|run| - 1];
      assert before[..n] == run[..n];
      StaysTold(before, n, i);
      ToldStep(After(before), run[|run| - 1], i);
    }
  }

  /** In every run, a notification that comes between a caller's enrolling and its look is not lost: the caller does
      not fall asleep at that look. */
  lemma NoticeIsNotLost(run: seq<Label>, n: nat, i: WaiterId)
    requires Legal(run) && n < |run| && Legal(run[..n]) && Legal(run[..n + 1]) && Enabled(After(run[..n]), run[n])
    requires i in After(run[..n]).idle.waiters && After(run[..n]).idle.waiters[i].Enrolled?
    requires Notifies(After(run[..n]), run[n])
    requires (forall k | n <= k < |run| :: run[k] != LLook(i)) && Enabled(After(run), LLook(i))
    ensures !Next(After(run), LLook(i)).idle.waiters[i].Asleep?
  {
    assert run[..n + 1][..n] == run[..n] && run[..n + 1][n] == run[n];
    ToldStep(After(run[..n]), run[n], i);
    StaysTold(run, n + 1, i);
  }

  // ----- Entries, in runs without a drain -----

  predicate Undrained(run: seq<Label>) { forall i | 0 <= i < |run| :: !run[i].LTake? && !run[i].LAbort? }

  predicate Registered(w: World, t: TaskId) {
    t in w.reg.tasks && (w.reg.tasks[t].phase.Inserted? || w.reg.tasks[t].phase.Running?)
  }

  ghost predicate TaskOk(w: World, t: TaskId) {
    Registered(w, t) ==> w.reg.tasks[t].correlation in w.reg.active && w.reg.active[w.reg.tasks[t].correlation] == t
  }

  ghost predicate EntryOk(w: World, c: Correlation) {
    c in w.reg.active ==> Registered(w, w.reg.active[c]) && w.reg.tasks[w.reg.active[c]].correlation == c
  }

  ghost predicate Consistent(w: World) { (forall t :: TaskOk(w, t)) && (forall c :: EntryOk(w, c)) }

  lemma NothingToKill(w: World, t: TaskId)
    requires TaskOk(w, t) && Registered(w, t)
    ensures t in w.reg.active.Values
  {
  }

  lemma EntryStep(w: World, l: Label)
    requires Consistent(w) && Enabled(w, l) && !l.LTake? && !l.LAbort?
    ensures Consistent(Next(w, l))
  {
    if l.LKill? {
      assert TaskOk(w, l.task);
      NothingToKill(w, l.task);
    } else {
      var v := Next(w, l);
      forall t ensures TaskOk(v, t) {
        assert TaskOk(w, t);
        if l.LCleanup? { assert TaskOk(w, l.task); }
      }
      forall c ensures EntryOk(v, c) { assert EntryOk(w, c); }
    }
  }

  lemma {:induction false} RunsStayConsistent(run: seq<Label>)
    requires Legal(run) && Undrained(run)
    ensures Consistent(After(run))
    decreases |run|
  {
    if run != [] {
      RunsStayConsistent(run[..|run| - 1]);
      EntryStep(After(run[..|run| - 1]), run[|run| - 1]);
    }
  }

  predicate Holds(w: World, t: TaskId, c: Correlation) { Registered(w, t) && w.reg.tasks[t].correlation == c }

  /** Without a drain, the registry holds a correlation exactly while a task for it is between its
      registration and its cleanup, and there is never more than one such task. */
  lemma HeldExactlyWhileRegistered(run: seq<Label>, c: Correlation)
    requires Legal(run) && Undrained(run)
    ensures c in After(run).reg.active <==> exists t :: Holds(After(run), t, c)
    ensures forall t, u | Holds(After(run), t, c) && Holds(After(run), u, c) :: t == u
  {
    RunsStayConsistent(run);
    var w := After(run);
    assert EntryOk(w, c);
    forall t | Holds(w, t, c) ensures c in w.reg.active && w.reg.active[c] == t { assert TaskOk(w, t); }
    if c in w.reg.active { assert Holds(w, w.reg.active[c], c); }
  }

  /** Without a drain, only its own task's cleanup takes an entry away, so a rejected duplicate never does. */
  lemma OnlyTheHolderRemoves(run: seq<Label>, l: Label, c: Correlation)
    requires Legal(run) && Undrained(run) && Enabled(After(run), l) && !l.LTake? && !l.LAbort?
    requires c in After(run).reg.active && c !in Next(After(run), l).reg.active
    ensures l == LCleanup(After(run).reg.active[c])
  {
    RunsStayConsistent(run);
    if l.LCleanup? { assert TaskOk(After(run), l.task); }
  }

  // ----- With a drain -----

  lemma Extend(run: seq<Label>, l: Label) returns (longer: seq<Label>)
    requires Legal(run) && Enabled(After(run), l)
    ensures longer == run + [l] && Legal(longer) && After(longer) == Next(After(run), l)
  {
    longer := run + [l];
    assert longer[..|longer| - 1] == run;
  }

  lemma Start(run: seq<Label>, t: TaskId, c: Correlation) returns (longer: seq<Label>)
    requires Legal(run) && t !in After(run).reg.tasks && c !in After(run).reg.active
    ensures Legal(longer)
    ensures After(longer).reg == Tasks(After(run).reg.active[c := t], After(run).reg.tasks[t := Task(c, Running)])
    ensures After(longer).idle == After(run).idle
  {
    var spawned := Extend(run, LSpawn(t, c));
    var inserted := Extend(spawned, LRegister(t));
    longer := Extend(inserted, LSignal(t));
    assert After(run).reg.tasks[t := Task(c, Spawned)][t := Task(c, Inserted)][t := Task(c, Running)] ==
           After(run).reg.tasks[t := Task(c, Running)];
  }

  // ----- What a waiter returns over -----

  ghost predicate HasReturned(w: World, i: WaiterId) { i in w.idle.waiters && w.idle.waiters[i].Returned? }

  /** In every run, a caller of `wait_for_idle` returns by its own look and over an empty registry only, and a look
      over an empty registry always returns; without a drain no registered task is left then. */
  lemma ReturnsOverIdle(run: seq<Label>, l: Label, i: WaiterId)
    requires Legal(run) && Enabled(After(run), l) && !HasReturned(After(run), i)
    ensures HasReturned(Next(After(run), l), i) <==> l == LLook(i) && After(run).reg.active == map[]
    ensures HasReturned(Next(After(run), l), i) && Undrained(run) ==> forall t :: !Registered(After(run), t)
  {
    if HasReturned(Next(After(run), l), i) && Undrained(run) {
      RunsStayConsistent(run);
      forall t ensures !Registered(After(run), t) { assert TaskOk(After(run), t); }
    }
  }

  /** With a drain a caller may return while a drained task still runs. */
  lemma ReturnsOverDrained(c: Correlation, t: TaskId, s: ShutdownId, i: WaiterId) returns (run: seq<Label>)
    ensures Legal(run) && HasReturned(After(run), i) && Registered(After(run), t)
  {
    run := Start([], t, c);
    run := Extend(run, LTake(s));
    run := Extend(run, LEnrol(i));
    run := Extend(run, LLook(i));
  }

  /** A shutdown breaks it: the drained task's cleanup takes away the entry of a task that registered the
      same correlation since, which then runs unregistered. */
  lemma DrainedTaskRemovesSuccessor(c: Correlation, first: TaskId, second: TaskId,
                                    s: ShutdownId) returns (run: seq<Label>)
    requires first != second
    ensures Legal(run) && Holds(After(run), second, c) && c !in After(run).reg.active
  {
    run := Start([], first, c);
    run := Extend(run, LTake(s));
    run := Start(run, second, c);
    run := Extend(run, LCleanup(first));
  }

  // ----- Exactly when a task keeps its entry -----

  predicate HeldBy(w: World, t: TaskId) {
    t in w.reg.tasks && w.reg.tasks[t].correlation in w.reg.active && w.reg.active[w.reg.tasks[t].correlation] == t
  }

  predicate SameCorrelation(w: World, t: TaskId, u: TaskId) {
    t in w.reg.tasks && u in w.reg.tasks && w.reg.tasks[t].correlation == w.reg.tasks[u].correlation
  }

  // A drain, or the cleanup of another task with the correlation of `t`.
  predicate Evicts(w: World, l: Label, t: TaskId) {
    l.LTake? || l.LAbort? || (l.LCleanup? && l.task != t && SameCorrelation(w, l.task, t))
  }

  // No step of the run from position `n` on evicts `t`.
  predicate Spared(run: seq<Label>, n: nat, t: TaskId)
    requires Legal(run)
    decreases |run|
  {
    |run| <= n || (Spared(run[..|run| - 1], n, t) && !Evicts(After(run[..|run| - 1]), run[|run| - 1], t))
  }

  // Without its entry a task does not get it back; with it, only an eviction or its own end takes it away.
  lemma HeldStep(w: World, l: Label, t: TaskId)
    requires Enabled(w, l) && Registered(w, t)
    ensures Registered(Next(w, l), t) ==> (HeldBy(Next(w, l), t) <==> HeldBy(w, t) && !Evicts(w, l, t))
  {
  }

  lemma StaysOut(w: World, l: Label, t: TaskId)
    requires Enabled(w, l) && t in w.reg.tasks && !w.reg.tasks[t].phase.Spawned? && !Registered(w, t)
    ensures t in Next(w, l).reg.tasks && !Next(w, l).reg.tasks[t].phase.Spawned? && !Registered(Next(w, l), t)
  {
  }

  ghost predicate Settled(w: World, t: TaskId) { t in w.reg.tasks && !w.reg.tasks[t].phase.Spawned? }

  lemma {:induction false} HeldSince(run: seq<Label>, n: nat, t: TaskId)
    requires Legal(run) && n <= |run| && Legal(run[..n]) && Registered(After(run[..n]), t) && HeldBy(After(run[..n]), t)
    ensures Settled(After(run), t)
    ensures Registered(After(run), t) ==> (HeldBy(After(run), t) <==> Spared(run, n, t))
    decreases |run|
  {
    if n == |run| {
      assert run[..n] == run;
    } else {
      var before := run[..|run| - 1];
      assert before[..n] == run[..n];
      HeldSince(before, n, t);
      var w := After(before);
      if Registered(w, t) { HeldStep(w, run[|run| - 1], t); } else { StaysOut(w, run[|run| - 1], t); }
    }
  }

  /** In every run, drained or not: a task that registered and has not ended is the registry's entry for its
      correlation if and only if since its registration there was no drain and no cleanup of another task
      with that correlation. */
  lemma HeldIffSpared(run: seq<Label>, n: nat, t: TaskId)
    requires Legal(run) && n < |run| && Legal(run[..n]) && run[n] == LRegister(t) && Registered(After(run), t)
    ensures HeldBy(After(run), t) <==> Spared(run, n + 1, t)
  {
    LegalPrefix(run, n + 1);
    assert run[..n + 1][..n] == run[..n];
    var w := After(run[..n]);
    if w.reg.tasks[t].correlation in w.reg.active { GoneForGood(run, n + 1, t); }
    HeldSince(run, n + 1, t);
  }

  lemma {:induction false} LegalPrefix(run: seq<Label>, n: nat)
    requires Legal(run) && n <= |run|
    ensures Legal(run[..n])
    decreases |run|
  {
    if n == |run| {
      assert run[..n] == run;
    } else {
      LegalPrefix(run[..|run| - 1], n);
      assert run[..|run| - 1][..n] == run[..n];
    }
  }

  // A rejected task stays rejected.
  lemma {:induction false} GoneForGood(run: seq<Label>, n: nat, t: TaskId)
    requires Legal(run) && n <= |run| && Legal(run[..n]) && Settled(After(run[..n]), t) &&
             !Registered(After(run[..n]), t)
    ensures Settled(After(run), t) && !Registered(After(run), t)
    decreases |run|
  {
    if n == |run| {
      assert run[..n] == run;
    } else {
      var before := run[..|run| - 1];
      assert before[..n] == run[..n];
      GoneForGood(before, n, t);
      StaysOut(After(before), run[|run| - 1], t);
    }
  }

  // ----- What a caller can look at before it registers -----

  // `t` has its entry, and no other task would remove it.
  ghost predicate Sole(w: World, t: TaskId) {
    HeldBy(w, t) && forall u | u != t && Registered(w, u) :: w.reg.tasks[u].correlation != w.reg.tasks[t].correlation
  }

  lemma SoleStep(w: World, l: Label, t: TaskId)
    requires Enabled(w, l) && Registered(w, t) && Sole(w, t) && !l.LTake? && !l.LAbort?
    ensures Registered(Next(w, l), t) ==> Sole(Next(w, l), t)
  {
  }

  lemma {:induction false} StaysSole(run: seq<Label>, more: seq<Label>, t: TaskId)
    requires Legal(run) && Registered(After(run), t) && Sole(After(run), t) && Legal(run + more) && Undrained(more)
    ensures Settled(After(run + more), t)
    ensures Registered(After(run + more), t) ==> Sole(After(run + more), t)
    decreases |more|
  {
    if more == [] {
      assert run + more == run;
    } else {
      var fewer := more[..|more| - 1];
      assert (run + more)[..|run + more| - 1] == run + fewer;
      StaysSole(run, fewer, t);
      var w, l := After(run + fewer), more[|more| - 1];
      if Registered(w, t) { SoleStep(w, l, t); } else { StaysOut(w, l, t); }
    }
  }

  ghost predicate KeepsEntry(run: seq<Label>, more: seq<Label>, t: TaskId) {
    Legal(run + more) && Undrained(more) && Registered(After(run + more), t) ==> HeldBy(After(run + more), t)
  }

  // The other task is told of its registration, if it has not been, and ends.
  lemma Evict(run: seq<Label>, t: TaskId, u: TaskId) returns (more: seq<Label>)
    requires Legal(run) && Registered(After(run), t) && HeldBy(After(run), t)
    requires u != t && Registered(After(run), u) &&
             After(run).reg.tasks[u].correlation == After(run).reg.tasks[t].correlation
    ensures !KeepsEntry(run, more, t)
  {
    var longer := run;
    more := [];
    if After(run).reg.tasks[u].phase.Inserted? {
      longer := Extend(run, LSignal(u));
      more := [LSignal(u)];
    }
    longer := Extend(longer, LCleanup(u));
    more := more + [LCleanup(u)];
    assert longer == run + more;
  }

  /** A task that registers keeps its entry to its end, through every continuation without a further drain,
      if and only if no other task with its correlation was still registered with the dispatcher when it
      registered, that is, none that an earlier drain had taken out of the registry. */
  lemma KeepsEntryIff(run: seq<Label>, t: TaskId)
    requires Legal(run) && Enabled(After(run), LRegister(t)) &&
             After(run).reg.tasks[t].correlation !in After(run).reg.active
    ensures (forall more :: KeepsEntry(run + [LRegister(t)], more, t)) <==>
            forall u | Registered(After(run), u) ::
              After(run).reg.tasks[u].correlation != After(run).reg.tasks[t].correlation
  {
    var w := After(run);
    var longer := Extend(run, LRegister(t));
    var v := After(longer);
    if forall u | Registered(w, u) :: w.reg.tasks[u].correlation != w.reg.tasks[t].correlation {
      assert Sole(v, t);
      forall more ensures KeepsEntry(longer, more, t) {
        if Legal(longer + more) && Undrained(more) { StaysSole(longer, more, t); }
      }
    } else {
      var u :| Registered(w, u) && w.reg.tasks[u].correlation == w.reg.tasks[t].correlation;
      assert v.reg.tasks[u] == w.reg.tasks[u];
      var more := Evict(longer, t, u);
    }
  }
}
