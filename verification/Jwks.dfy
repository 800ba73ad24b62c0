/**
 The key-set cache of the bearer verifier: concurrent callers, one refresh at a time, and a bound on
 refreshes for keys nobody knows.

 A caller captures the clock once and keeps that time throughout. Its steps are what happens between
 two awaits; it may be dropped at any of them. Times are captured in any order.
 */
module Jwks {
  import opened Options

  type CallerId = int
  type Kid = int
  type PublicKey = int

  const U64_MAX: int := 0xFFFF_FFFF_FFFF_FFFF

  // `serial` counts installations and is not looked at; `revision` is the count as the code keeps it.
  datatype Snapshot = Snapshot(keys: map<Kid, PublicKey>, freshUntil: int, revision: int, serial: int)

  datatype Answer = Key(key: PublicKey, from: Snapshot) | Refused

  datatype Phase =
    | Captured
    | Waiting
    | Locked
    | Deciding(unknown: bool)
    | Fetching(unknown: bool)
    | Fetched(unknown: bool, snapshot: Snapshot)
    | Installing(snapshot: Snapshot)
    | Answered(answer: Answer)

  // `seen` is the serial of the snapshot that the caller observed first.
  datatype Caller = Caller(kid: Kid, now: int, observed: int, seen: int, phase: Phase)

  datatype Event = Reserved(at: int) | Rotated

  datatype World = World(
    cache: Snapshot, holder: Option<CallerId>, lastUnknown: Option<int>, callers: map<CallerId, Caller>,
    log: seq<Event>)

  function Saturate(n: int): int { if n > U64_MAX then U64_MAX else n }

  function SaturatingSub(a: int, b: int): int { if a < b then 0 else a - b }

  function Start(keys: map<Kid, PublicKey>, freshUntil: int): World {
    World(Snapshot(keys, freshUntil, 0, 0), None, None, map[], [])
  }

  function Put(w: World, id: CallerId, c: Caller): World { w.(callers := w.callers[id := c]) }

  // Answered with the lock, if held, given back.
  function Settle(w: World, id: CallerId, c: Caller, a: Answer): World {
    Put(w, id, c.(phase := Answered(a))).(holder := if w.holder == Some(id) then None else w.holder)
  }

  predicate Fresh(s: Snapshot, c: Caller) { c.now < s.freshUntil && c.kid in s.keys }

  function DoObserve(w: World, id: CallerId): World
    requires id in w.callers
  {
    var c := w.callers[id].(observed := w.cache.revision, seen := w.cache.serial);
    if Fresh(w.cache, c) then Settle(w, id, c, Key(w.cache.keys[c.kid], w.cache)) else Put(w, id, c.(phase := Waiting))
  }

  function DoRecheck(w: World, id: CallerId): World
    requires id in w.callers
  {
    var c := w.callers[id];
    if Fresh(w.cache, c) then Settle(w, id, c, Key(w.cache.keys[c.kid], w.cache))
    else if w.cache.revision != c.observed && c.kid in w.cache.keys
    then Settle(w, id, c, Key(w.cache.keys[c.kid], w.cache))
    else Put(w, id, c.(phase := Deciding(c.kid !in w.cache.keys)))
  }

  // Reserve the refresh before the call, so that a failing provider does not lift the bound.
  function DoReserve(w: World, id: CallerId, interval: int): World
    requires id in w.callers && w.callers[id].phase.Deciding?
  {
    var c := w.callers[id];
    if !c.phase.unknown then Put(w, id, c.(phase := Fetching(false)))
    else if w.lastUnknown.Some? && SaturatingSub(c.now, w.lastUnknown.value) < interval then Settle(w, id, c, Refused)
    else Put(w, id, c.(phase := Fetching(true))).(lastUnknown := Some(c.now), log := w.log + [Reserved(c.now)])
  }

  function DoFetch(w: World, id: CallerId, keys: map<Kid, PublicKey>, freshFor: int): World
    requires id in w.callers && w.callers[id].phase.Fetching?
  {
    var c := w.callers[id];
    Put(w, id, c.(phase := Fetched(c.phase.unknown, Snapshot(keys, Saturate(c.now + freshFor), 0, 0))))
  }

  function DoClear(w: World, id: CallerId): World
    requires id in w.callers && w.callers[id].phase.Fetched?
  {
    var c := w.callers[id];
    var v := Put(w, id, c.(phase := Installing(c.phase.snapshot)));
    if c.phase.unknown && c.kid in c.phase.snapshot.keys then v.(lastUnknown := None, log := w.log + [Rotated]) else v
  }

  function DoInstall(w: World, id: CallerId): World
    requires id in w.callers && w.callers[id].phase.Installing?
  {
    var c := w.callers[id];
    var s := c.phase.snapshot.(revision := Saturate(w.cache.revision + 1), serial := w.cache.serial + 1);
    Settle(w, id, c, if c.kid in s.keys then Key(s.keys[c.kid], s) else Refused).(cache := s)
  }

  datatype Label =
    | LCall(id: CallerId, kid: Kid, now: int)
    | LObserve(id: CallerId)
    | LAcquire(id: CallerId)
    | LRecheck(id: CallerId)
    | LReserve(id: CallerId)
    | LFetch(id: CallerId, keys: map<Kid, PublicKey>, freshFor: int)
    | LFetchFails(id: CallerId)
    | LClear(id: CallerId)
    | LInstall(id: CallerId)
    | LDrop(id: CallerId)

  predicate Enabled(w: World, l: Label) {
    match l
    case LCall(id, _, now) => id !in w.callers && 0 <= now <= U64_MAX
    case LObserve(id) => id in w.callers && w.callers[id].phase.Captured?
    case LAcquire(id) => id in w.callers && w.callers[id].phase.Waiting? && w.holder.None?
    case LRecheck(id) => id in w.callers && w.callers[id].phase.Locked?
    case LReserve(id) => id in w.callers && w.callers[id].phase.Deciding?
    case LFetch(id, _, freshFor) => id in w.callers && w.callers[id].phase.Fetching? && 0 <= freshFor
    case LFetchFails(id) => id in w.callers && w.callers[id].phase.Fetching?
    case LClear(id) => id in w.callers && w.callers[id].phase.Fetched?
    case LInstall(id) => id in w.callers && w.callers[id].phase.Installing?
    case LDrop(id) => id in w.callers && !w.callers[id].phase.Answered?
  }

  function Next(w: World, l: Label, interval: int): World
    requires Enabled(w, l)
  {
    match l
    case LCall(id, kid, now) => Put(w, id, Caller(kid, now, 0, 0, Captured))
    case LObserve(id) => DoObserve(w, id)
    case LAcquire(id) => Put(w, id, w.callers[id].(phase := Locked)).(holder := Some(id))
    case LRecheck(id) => DoRecheck(w, id)
    case LReserve(id) => DoReserve(w, id, interval)
    case LFetch(id, keys, freshFor) => DoFetch(w, id, keys, freshFor)
    case LFetchFails(id) => Settle(w, id, w.callers[id], Refused)
    case LClear(id) => DoClear(w, id)
    case LInstall(id) => DoInstall(w, id)
    case LDrop(id) => w.(callers := w.callers - {id}, holder := if w.holder == Some(id) then None else w.holder)
  }

  predicate Legal(start: World, interval: int, run: seq<Label>)
    decreases |run|, 0
  {
    run == [] || (Legal(start, interval, run[..|run| - 1]) &&
                  Enabled(After(start, interval, run[..|run| - 1]), run[|run| - 1]))
  }

  function After(start: World, interval: int, run: seq<Label>): World
    requires Legal(start, interval, run)
    decreases |run|, 1
  {
    if run == [] then start else Next(After(start, interval, run[..|run| - 1]), run[|run| - 1], interval)
  }

  // ----- The invariant -----

  predicate Critical(p: Phase) { p.Locked? || p.Deciding? || p.Fetching? || p.Fetched? || p.Installing? }

  // Only the holder of the refresh lock is past it.
  ghost predicate LockOk(w: World, id: CallerId) {
    id in w.callers && Critical(w.callers[id].phase) ==> w.holder == Some(id)
  }

  // And whoever holds it is there and past it, so that it is given back when the call ends or is dropped.
  ghost predicate HolderOk(w: World) {
    w.holder.Some? ==> w.holder.value in w.callers && Critical(w.callers[w.holder.value].phase)
  }

  ghost predicate SeenOk(w: World, id: CallerId) {
    id in w.callers && !w.callers[id].phase.Captured? ==>
      w.callers[id].seen <= w.cache.serial && w.callers[id].observed == Saturate(w.callers[id].seen)
  }

  // A key that was returned is the snapshot's, and the snapshot was fresh or came later.
  ghost predicate AnswerOk(w: World, id: CallerId) {
    id in w.callers && w.callers[id].phase.Answered? && w.callers[id].phase.answer.Key? ==>
      var c, a := w.callers[id], w.callers[id].phase.answer;
      c.kid in a.from.keys && a.key == a.from.keys[c.kid] && (c.now < a.from.freshUntil || c.seen < a.from.serial)
  }

  ghost predicate CacheOk(w: World) { w.cache.revision == Saturate(w.cache.serial) && 0 <= w.cache.serial }

  ghost predicate Sound(w: World) {
    CacheOk(w) && HolderOk(w) && forall id :: LockOk(w, id) && SeenOk(w, id) && AnswerOk(w, id)
  }

  lemma SoundStep(w: World, l: Label, interval: int)
    requires Sound(w) && Enabled(w, l)
    ensures Sound(Next(w, l, interval))
  {
    var v := Next(w, l, interval);
    forall id ensures LockOk(v, id) && SeenOk(v, id) && AnswerOk(v, id) {
      assert LockOk(w, id) && SeenOk(w, id) && AnswerOk(w, id);
      assert LockOk(w, l.id) && SeenOk(w, l.id);
    }
  }

  lemma {:induction false} RunsStaySound(keys: map<Kid, PublicKey>, freshUntil: int, interval: int, run: seq<Label>)
    requires Legal(Start(keys, freshUntil), interval, run)
    ensures Sound(After(Start(keys, freshUntil), interval, run))
    decreases |run|
  {
    if run != [] {
      RunsStaySound(keys, freshUntil, interval, run[..|run| - 1]);
      SoundStep(After(Start(keys, freshUntil), interval, run[..|run| - 1]), run[|run| - 1], interval);
    }
  }

  /** In every run, the refresh lock is free exactly when no caller is past it, and then any waiting caller can take
      it; otherwise exactly one caller is past it, and holds it. */
  lemma LockIsGivenBack(keys: map<Kid, PublicKey>, freshUntil: int, interval: int, run: seq<Label>, id: CallerId)
    requires Legal(Start(keys, freshUntil), interval, run)
    requires var w := After(Start(keys, freshUntil), interval, run); id in w.callers && w.callers[id].phase.Waiting?
    ensures var w := After(Start(keys, freshUntil), interval, run);
            && (Enabled(w, LAcquire(id)) <==> forall x | x in w.callers :: !Critical(w.callers[x].phase))
            && (forall x, y | x in w.callers && y in w.callers && Critical(w.callers[x].phase) &&
                              Critical(w.callers[y].phase) :: x == y)
  {
    RunsStaySound(keys, freshUntil, interval, run);
    var w := After(Start(keys, freshUntil), interval, run);
    forall x | x in w.callers && Critical(w.callers[x].phase) ensures w.holder == Some(x) { assert LockOk(w, x); }
  }

  /** In every run, a key that a caller was given comes from a snapshot that was fresh at the time the caller
      captured, or that was installed after the caller first looked. */
  lemma ReturnedKeysAreCurrent(keys: map<Kid, PublicKey>, freshUntil: int, interval: int, run: seq<Label>, id: CallerId)
    requires Legal(Start(keys, freshUntil), interval, run)
    ensures AnswerOk(After(Start(keys, freshUntil), interval, run), id)
  {
    RunsStaySound(keys, freshUntil, interval, run);
  }

  /** In every run, a caller that comes to hold the lock is answered without a fetch exactly when the snapshot
      then installed has its key and is fresh for it or newer than the one it had observed, as long as the
      revision counter has not saturated. */
  lemma ServedWithoutFetchIff(keys: map<Kid, PublicKey>, freshUntil: int, interval: int, run: seq<Label>, id: CallerId)
    requires Legal(Start(keys, freshUntil), interval, run) &&
             Enabled(After(Start(keys, freshUntil), interval, run), LRecheck(id))
    ensures var w := After(Start(keys, freshUntil), interval, run);
            var c := w.callers[id];
            DoRecheck(w, id).callers[id].phase.Answered? <==>
            c.kid in w.cache.keys && (c.now < w.cache.freshUntil || (c.seen < w.cache.serial && c.seen < U64_MAX))
  {
    RunsStaySound(keys, freshUntil, interval, run);
    assert SeenOk(After(Start(keys, freshUntil), interval, run), id);
  }

  // A caller that observed an older snapshot and has still to look a second time, now at `s`.
  ghost predicate Awaits(w: World, x: CallerId, kid: Kid, s: Snapshot) {
    && x in w.callers && (w.callers[x].phase.Waiting? || w.callers[x].phase.Locked?)
    && w.callers[x].kid == kid && w.callers[x].seen < s.serial && w.callers[x].seen < U64_MAX && w.cache == s
  }

  lemma AwaitsStep(w: World, l: Label, interval: int, x: CallerId, kid: Kid, s: Snapshot)
    requires Awaits(w, x, kid, s) && Enabled(w, l) && l != LDrop(x) && l != LRecheck(x) && !l.LInstall?
    ensures Awaits(Next(w, l, interval), x, kid, s)
  {
  }

  lemma {:induction false} StillAwaits(start: World, interval: int, run: seq<Label>, n: nat, x: CallerId, kid: Kid,
                                       s: Snapshot)
    requires Legal(start, interval, run) && n <= |run| && Legal(start, interval, run[..n]) &&
             Awaits(After(start, interval, run[..n]), x, kid, s)
    requires forall i | n <= i < |run| :: run[i] != LDrop(x) && run[i] != LRecheck(x) && !run[i].LInstall?
    ensures Awaits(After(start, interval, run), x, kid, s)
    decreases |run|
  {
    if n == |run| {
      assert run[..n] == run;
    } else {
      var before := run[..|run| - 1];
      assert before[..n] == run[..n];
      StillAwaits(start, interval, before, n, x, kid, s);
      AwaitsStep(After(start, interval, before), run[|run| - 1], interval, x, kid, s);
    }
  }

  lemma SecondLook(w: World, x: CallerId, kid: Kid, s: Snapshot)
    requires Sound(w) && Awaits(w, x, kid, s) && w.callers[x].phase.Locked? && kid in s.keys
    ensures DoRecheck(w, x).callers[x].phase == Answered(Key(s.keys[kid], s))
  {
    assert SeenOk(w, x);
  }

  // Right after the installation, everybody who waited for the lock awaits the new snapshot.
  lemma InstallIsAwaited(w: World, first: CallerId, x: CallerId)
    requires Sound(w) && first in w.callers && w.callers[first].phase.Installing?
    requires x in w.callers && w.callers[x].phase.Waiting? && w.callers[x].seen < U64_MAX
    ensures Awaits(DoInstall(w, first), x, w.callers[x].kid, DoInstall(w, first).cache)
  {
    assert SeenOk(w, x);
  }

  /** In every run, one installed refresh serves all that wait: whoever waited for the lock when it was
      installed, and wants one of its keys, is given it from that very snapshot when it comes to look again,
      without a fetch of its own, if nothing was installed in between. */
  lemma OneRefreshServesAll(keys: map<Kid, PublicKey>, freshUntil: int, interval: int, run: seq<Label>, n: nat,
                            x: CallerId)
    requires var start := Start(keys, freshUntil);
             Legal(start, interval, run) && n < |run| - 1 && Legal(start, interval, run[..n]) &&
             Legal(start, interval, run[..n + 1])
    requires run[n].LInstall? && run[|run| - 1] == LRecheck(x)
    requires forall i | n < i < |run| - 1 :: run[i] != LDrop(x) && run[i] != LRecheck(x) && !run[i].LInstall?
    requires var w := After(Start(keys, freshUntil), interval, run[..n]);
             && x in w.callers && w.callers[x].phase.Waiting? && w.callers[x].seen < U64_MAX
             && w.callers[x].kid in After(Start(keys, freshUntil), interval, run[..n + 1]).cache.keys
    ensures var s, kid := After(Start(keys, freshUntil), interval, run[..n + 1]).cache,
                          After(Start(keys, freshUntil), interval, run[..n]).callers[x].kid;
            var v := After(Start(keys, freshUntil), interval, run);
            x in v.callers && v.callers[x].phase == Answered(Key(s.keys[kid], s))
  {
    var start := Start(keys, freshUntil);
    var w := After(start, interval, run[..n]);
    assert run[..n + 1][..n] == run[..n] && run[..n + 1][n] == run[n];
    RunsStaySound(keys, freshUntil, interval, run[..n]);
    InstallIsAwaited(w, run[n].id, x);
    var before := run[..|run| - 1];
    assert before[..n + 1] == run[..n + 1];
    StillAwaits(start, interval, before, n + 1, x, w.callers[x].kid, After(start, interval, run[..n + 1]).cache);
    RunsStaySound(keys, freshUntil, interval, before);
    SecondLook(After(start, interval, before), x, w.callers[x].kid, After(start, interval, run[..n + 1]).cache);
  }

  // ----- The bound on refreshes for unknown keys -----

  // The reservation in force after a log.
  function Standing(log: seq<Event>): Option<int> {
    if log == [] then None
    else match log[|log| - 1] case Reserved(at) => Some(at) case Rotated => None
  }

  // Two reservations in a row, with no rotation between them, are the interval apart.
  predicate Spaced(log: seq<Event>, interval: int) {
    forall i | 0 <= i < |log| - 1 :: log[i].Reserved? && log[i + 1].Reserved? ==>
      interval <= SaturatingSub(log[i + 1].at, log[i].at)
  }

  lemma SpacedStep(w: World, l: Label, interval: int)
    requires w.lastUnknown == Standing(w.log) && Spaced(w.log, interval) && Enabled(w, l)
    ensures var v := Next(w, l, interval);
            v.lastUnknown == Standing(v.log) && Spaced(v.log, interval)
  {
  }

  lemma {:induction false} RunsStaySpaced(keys: map<Kid, PublicKey>, freshUntil: int, interval: int, run: seq<Label>)
    requires Legal(Start(keys, freshUntil), interval, run)
    ensures var w := After(Start(keys, freshUntil), interval, run);
            w.lastUnknown == Standing(w.log) && Spaced(w.log, interval)
    decreases |run|
  {
    if run != [] {
      RunsStaySpaced(keys, freshUntil, interval, run[..|run| - 1]);
      SpacedStep(After(Start(keys, freshUntil), interval, run[..|run| - 1]), run[|run| - 1], interval);
    }
  }

  /** In every run with a positive interval, and whatever the order in which callers captured their times or
      however often the provider failed, two successive unknown-key reservations with no successful rotation
      between them are at least the interval apart. */
  lemma ReservationsAreSpaced(keys: map<Kid, PublicKey>, freshUntil: int, interval: int, run: seq<Label>, i: nat)
    requires Legal(Start(keys, freshUntil), interval, run) && 0 < interval
    requires i + 1 < |After(Start(keys, freshUntil), interval, run).log|
    ensures var log := After(Start(keys, freshUntil), interval, run).log;
            log[i].Reserved? && log[i + 1].Reserved? ==> log[i].at + interval <= log[i + 1].at
  {
    RunsStaySpaced(keys, freshUntil, interval, run);
  }
}
