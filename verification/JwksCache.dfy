/** The cache as an object: one caller from beginning to end, others going before it at the refresh lock. */
module JwksCache {
  import opened Options
  import opened Jwks

  datatype Fetch = Unavailable | Fetched(keys: map<Kid, PublicKey>, freshFor: int)

  // What the callers that held the lock in the meantime have left behind.
  datatype Others = Others(cache: Snapshot, lastUnknown: Option<int>)

  predicate Answers(w: World, id: CallerId) { id in w.callers && w.callers[id].phase.Answered? }

  // The caller's steps, one after the other.
  function Refresh(w: World, id: CallerId, fetch: Fetch, interval: int): World
    requires Enabled(w, LReserve(id))
  {
    var reserved := Next(w, LReserve(id), interval);
    if Answers(reserved, id) then reserved
    else if fetch.Unavailable? || fetch.freshFor < 0 then Next(reserved, LFetchFails(id), interval)
    else Next(Next(Next(reserved, LFetch(id, fetch.keys, fetch.freshFor), interval), LClear(id), interval),
              LInstall(id), interval)
  }

  function Called(w: World, id: CallerId, kid: Kid, now: int, others: Others, fetch: Fetch, interval: int): World
    requires Enabled(w, LCall(id, kid, now)) && w.holder.None?
  {
    var looked := Next(Next(w, LCall(id, kid, now), interval), LObserve(id), interval);
    if Answers(looked, id) then looked
    else
      var waited := looked.(cache := others.cache, lastUnknown := others.lastUnknown);
      var held := Next(Next(waited, LAcquire(id), interval), LRecheck(id), interval);
      if Answers(held, id) then held else Refresh(held, id, fetch, interval)
  }

  predicate Numbered(s: Snapshot) { s.revision == Saturate(s.serial) }

  // The refresh of the only caller, in one go.
  lemma RefreshIs(w: World, id: CallerId, c: Caller, fetch: Fetch, interval: int)
    requires w.callers == map[id := c] && w.holder == Some(id) && c.phase.Deciding?
    ensures var v := Refresh(w, id, fetch, interval);
            var refused := c.phase.unknown && w.lastUnknown.Some? &&
                           SaturatingSub(c.now, w.lastUnknown.value) < interval;
            var fails := refused || fetch.Unavailable? || fetch.freshFor < 0;
            && Answers(v, id) && v.holder.None?
            && (fails ==> v.callers[id].phase.answer == Refused && v.cache == w.cache &&
                          v.lastUnknown == (if c.phase.unknown && !refused then Some(c.now) else w.lastUnknown))
            && (!fails ==>
                  && v.cache == Snapshot(fetch.keys, Saturate(c.now + fetch.freshFor), Saturate(w.cache.revision + 1),
                                         w.cache.serial + 1)
                  && v.callers[id].phase.answer ==
                       (if c.kid in fetch.keys then Key(fetch.keys[c.kid], v.cache) else Refused)
                  && v.lastUnknown == (if !c.phase.unknown then w.lastUnknown
                                       else if c.kid in fetch.keys then None else Some(c.now)))
  {
  }

  // A caller that looked at the cache without luck.
  function Waiter(cache: Snapshot, kid: Kid,
                  now: int): Caller { Caller(kid, now, cache.revision, cache.serial, Waiting) }

  predicate Hit(cache: Snapshot, kid: Kid, now: int) { now < cache.freshUntil && kid in cache.keys }

  predicate Served(cache: Snapshot, kid: Kid, now: int, observed: int) {
    kid in cache.keys && (now < cache.freshUntil || cache.revision != observed)
  }

  function AtLock(others: Others, x: Caller): World {
    World(others.cache, Some(0), others.lastUnknown, map[0 := x.(phase := Deciding(x.kid !in others.cache.keys))], [])
  }

  ghost predicate Ends(v: World, a: Answer, cache: Snapshot, lastUnknown: Option<int>) {
    Answers(v, 0) && v.callers[0].phase.answer == a && v.holder.None? && v.cache == cache &&
    v.lastUnknown == lastUnknown
  }

  // The steps up to the refresh.
  lemma CalledIs(cache: Snapshot, lastUnknown: Option<int>, kid: Kid, now: int, others: Others, fetch: Fetch,
                 interval: int)
    requires 0 <= now <= U64_MAX
    ensures var v := Called(World(cache, None, lastUnknown, map[], []), 0, kid, now, others, fetch, interval);
            if Hit(cache, kid, now) then Ends(v, Key(cache.keys[kid], cache), cache, lastUnknown)
            else if Served(others.cache, kid, now, cache.revision)
            then Ends(v, Key(others.cache.keys[kid], others.cache), others.cache, others.lastUnknown)
            else v == Refresh(AtLock(others, Waiter(cache, kid, now)), 0, fetch, interval)
  {
    var one, x := map[0 := Caller(kid, now, 0, 0, Captured)], Waiter(cache, kid, now);
    assert Next(World(cache, None, lastUnknown, map[], []), LCall(0, kid, now), interval) ==
             World(cache, None, lastUnknown, one, []);
    if !Hit(cache, kid, now) {
      assert Next(World(cache, None, lastUnknown, one, []), LObserve(0), interval) ==
               World(cache, None, lastUnknown, map[0 := x], []);
      var locked := World(others.cache, Some(0), others.lastUnknown, map[0 := x.(phase := Locked)], []);
      assert Next(World(others.cache, None, others.lastUnknown, map[0 := x], []), LAcquire(0), interval) == locked;
      if !Served(others.cache, kid, now, cache.revision) {
        assert Next(locked, LRecheck(0), interval) == AtLock(others, x);
      }
    }
  }

  class KeyCache {
    const interval: int
    var cache: Snapshot
    var lastUnknown: Option<int>

    constructor (interval: int, keys: map<Kid, PublicKey>, freshUntil: int)
      ensures this.interval == interval && View() == Start(keys, freshUntil)
    {
      this.interval := interval;
      cache, lastUnknown := Snapshot(keys, freshUntil, 0, 0), None;
    }

    ghost function View(): World
      reads this
    {
      World(cache, None, lastUnknown, map[], [])
    }

    /** What a call answers and leaves behind is what its steps do, whatever the others did while it waited
        for the lock. A key that it returns is in the cache and was fresh for the caller or installed since
        its first look; an unknown key is fetched for only if the interval has passed. */
    method KeyFor(kid: Kid, now: int, others: Others, fetch: Fetch) returns (a: Answer)
      requires 0 <= now <= U64_MAX
      modifies this`cache, this`lastUnknown
      ensures Ends(Called(old(View()), 0, kid, now, others, fetch, interval), a, cache, lastUnknown)
      ensures a.Key? ==> a.from == cache && kid in cache.keys && a.key == cache.keys[kid]
      ensures a.Key? && Numbered(old(cache)) && Numbered(others.cache) && old(cache).serial <= others.cache.serial ==>
                now < cache.freshUntil || old(cache).serial < cache.serial
      ensures cache != old(cache) && cache != others.cache && kid !in others.cache.keys && others.lastUnknown.Some? ==>
                interval <= SaturatingSub(now, others.lastUnknown.value)
    {
      CalledIs(cache, lastUnknown, kid, now, others, fetch, interval);
      if now < cache.freshUntil && kid in cache.keys {
        return Key(cache.keys[kid], cache);
      }
      ghost var x := Waiter(cache, kid, now);
      var observed := cache.revision;
      cache, lastUnknown := others.cache, others.lastUnknown;
      if kid in cache.keys && (now < cache.freshUntil || cache.revision != observed) {
        return Key(cache.keys[kid], cache);
      }
      a := Refetch(kid, now, fetch, x);
    }

    // The refresh, under the lock.
    method Refetch(kid: Kid, now: int, fetch: Fetch, ghost x: Caller) returns (a: Answer)
      requires x.kid == kid && x.now == now && 0 <= now <= U64_MAX
      modifies this`cache, this`lastUnknown
      ensures Ends(Refresh(AtLock(Others(old(cache), old(lastUnknown)), x), 0, fetch, interval), a, cache, lastUnknown)
      ensures a.Key? ==> a.from == cache && kid in cache.keys && a.key == cache.keys[kid] && cache != old(cache)
      ensures cache == old(cache) || cache.serial == old(cache).serial + 1
      ensures cache != old(cache) && kid !in old(cache).keys && old(lastUnknown).Some? ==>
                interval <= SaturatingSub(now, old(lastUnknown).value)
    {
      var unknown := kid !in cache.keys;
      ghost var w := AtLock(Others(cache, lastUnknown), x);
      RefreshIs(w, 0, w.callers[0], fetch, interval);
      if unknown {
        if lastUnknown.Some? && SaturatingSub(now, lastUnknown.value) < interval {
          return Refused;
        }
        lastUnknown := Some(now);
      }
      if fetch.Unavailable? || fetch.freshFor < 0 {
        return Refused;
      }
      if unknown && kid in fetch.keys {
        lastUnknown := None;
      }
      cache := Snapshot(fetch.keys, Saturate(now + fetch.freshFor), Saturate(cache.revision + 1), cache.serial + 1);
      return if kid in fetch.keys then Key(fetch.keys[kid], cache) else Refused;
    }
  }
}
