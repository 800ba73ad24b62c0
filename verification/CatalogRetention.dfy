/** When an entry may be tombstoned, and that a tombstone is final. */
module CatalogRetention {
  import opened Options
  import opened IdealCrypto
  import opened Catalog
  import opened CatalogRuns

  // A lease on record with an entry is one that was granted for that entry with that expiry.
  ghost predicate OnRecord(w: World, k: Key, t: Token) {
    k in w.cat.entries && t in w.cat.entries[k].leases ==>
      t in w.past.tokens && t in w.past.granted && w.past.granted[t] == Lease(k, w.cat.entries[k].leases[t])
  }

  // A lease granted and not released is still on record, or had expired when a collector last looked.
  ghost predicate Kept(w: World, t: Token) {
    t in w.past.granted ==>
      && t in w.past.tokens && w.past.granted[t].key in w.cat.entries
      && (w.past.granted[t].expiry <= w.gcClock || t in w.cat.entries[w.past.granted[t].key].leases)
  }

  ghost predicate Accounted(w: World) {
    (forall k, t :: OnRecord(w, k, t)) && (forall t :: Kept(w, t))
  }

  // Steps that touch neither leases nor the records about them.
  ghost predicate SameLeases(w: World, v: World) {
    && v.past.tokens == w.past.tokens && v.past.granted == w.past.granted && v.gcClock == w.gcClock
    && w.cat.entries.Keys <= v.cat.entries.Keys
    && (forall k | k in w.cat.entries :: v.cat.entries[k].leases == w.cat.entries[k].leases)
    && (forall k | k in v.cat.entries && k !in w.cat.entries :: v.cat.entries[k].leases == map[])
  }

  lemma AccountedSame(w: World, v: World)
    requires Accounted(w) && SameLeases(w, v)
    ensures Accounted(v)
  {
    forall k, t ensures OnRecord(v, k, t) { assert OnRecord(w, k, t); }
    forall t ensures Kept(v, t) { assert Kept(w, t); }
  }

  lemma AccountedAcquire(w: World, k: Key, owner: string, task: string, now: int, ttl: int, token: Token)
    requires Accounted(w) && token !in w.past.tokens
    ensures Accounted(DoAcquire(w, k, owner, task, now, ttl, token))
  {
    var v := DoAcquire(w, k, owner, task, now, ttl, token);
    forall j, t ensures OnRecord(v, j, t) { assert OnRecord(w, j, t); }
    forall t ensures Kept(v, t) { assert Kept(w, t); }
  }

  lemma AccountedRelease(w: World, token: Token, holder: Option<Key>)
    requires Accounted(w) && HolderFound(w.cat, token, holder)
    ensures Accounted(DoRelease(w, token, holder))
  {
    var v := DoRelease(w, token, holder);
    forall j, t ensures OnRecord(v, j, t) {
      assert OnRecord(w, j, t);
      if holder.Some? { assert OnRecord(w, holder.value, token); }
    }
    forall t ensures Kept(v, t) { assert Kept(w, t); }
  }

  lemma AccountedMark(w: World, id: nat, k: Key, now: int, batch: int)
    requires Accounted(w) && w.gcClock <= now
    ensures Accounted(DoMark(w, id, k, now, batch))
  {
    var v := DoMark(w, id, k, now, batch);
    forall j, t ensures OnRecord(v, j, t) { assert OnRecord(w, j, t); }
    forall t ensures Kept(v, t) {
      assert Kept(w, t);
      if t in w.past.granted { assert OnRecord(w, w.past.granted[t].key, t); }
    }
  }

  lemma AccountedRemove(w: World, id: nat)
    requires Accounted(w) && id in w.work.collectors
    ensures Accounted(DoRemove(w, id))
  {
    var v := DoRemove(w, id);
    forall j, t ensures OnRecord(v, j, t) { assert OnRecord(w, j, t); }
    forall t ensures Kept(v, t) { assert Kept(w, t); }
  }

  lemma PublishKeepsLeases(w: World, m: Manifest, bytes: Bytes, supply: Supply)
    requires DonorFound(w.cat, m, supply.donor)
    ensures SameLeases(w, DoPublish(w, m, bytes, supply))
  {}

  lemma OthersKeepLeases(w: World, l: Label)
    requires Enabled(w, l) && !l.LAcquire? && !l.LRelease? && !l.LMark? && !l.LRemove?
    ensures SameLeases(w, Next(w, l))
  {
    if l.LPublish? { PublishKeepsLeases(w, l.m, l.bytes, l.supply); }
  }

  lemma AccountedStep(w: World, l: Label)
    requires Accounted(w) && Enabled(w, l) && Timely(w, l)
    ensures Accounted(Next(w, l))
  {
    if l.LAcquire? { AccountedAcquire(w, l.key, l.owner, l.task, l.now, l.ttl, l.token); }
    else if l.LRelease? { AccountedRelease(w, l.token, l.holder); }
    else if l.LMark? { AccountedMark(w, l.id, l.key, l.now, l.batch); }
    else if l.LRemove? { AccountedRemove(w, l.id); }
    else {
      OthersKeepLeases(w, l);
      AccountedSame(w, Next(w, l));
    }
  }

  lemma {:induction false} RunsStayAccounted(clock: int, run: seq<Label>)
    requires Legal(clock, run) && Along(clock, run, Timely)
    ensures Accounted(After(clock, run))
    decreases |run|
  {
    if run != [] {
      RunsStayAccounted(clock, run[..|run| - 1]);
      AccountedStep(After(clock, run[..|run| - 1]), run[|run| - 1]);
    }
  }

  /** If collectors are never given an earlier time than before, an entry is tombstoned exactly when the
      collector finds it without a hold, with its reference released, past retention, and with every lease
      ever granted for it either released or expired. */
  lemma TombstonedOnlyWhenFree(clock: int, run: seq<Label>, id: nat, k: Key, now: int, batch: int)
    requires Legal(clock, run) && Along(clock, run, Timely)
    requires var w := After(clock, run); Live(w.cat, k) && w.gcClock <= now && 1 <= batch <= 1000
    ensures var w := After(clock, run); var e := w.cat.entries[k];
            (DoMark(w, id, k, now, batch).cat.entries[k].tombstoned
             <==> e.holds == {} && !e.referenceLive && now >= e.manifest.retainUntil &&
                  forall t | t in w.past.granted && w.past.granted[t].key == k :: w.past.granted[t].expiry <= now)
  {
    RunsStayAccounted(clock, run);
    var w := After(clock, run);
    var e := w.cat.entries[k];
    if Unexpired(e.leases, now) == map[] {
      forall t | t in w.past.granted && w.past.granted[t].key == k ensures w.past.granted[t].expiry <= now {
        assert Kept(w, t) && OnRecord(w, k, t);
        assert t !in Unexpired(e.leases, now);
      }
    } else {
      var t :| t in Unexpired(e.leases, now);
      assert OnRecord(w, k, t);
    }
  }

  // ----- A tombstone is final -----

  // A publication of the key where no entry is in the way; while the tombstoned entry is still there, a
  // publication revives nothing.
  predicate Republishes(w: World, l: Label, k: Key) { l.LPublish? && KeyOf(l.m) == k && k !in w.cat.entries }

  lemma StaysBuried(w: World, l: Label, k: Key)
    requires Enabled(w, l) && !Live(w.cat, k) && !Republishes(w, l, k)
    ensures !Live(Next(w, l).cat, k)
  {}

  /** From the step that tombstones an entry, and after its removal too, no lease is granted on its key and
      no resolve is admitted, until the key is published again after that removal. */
  lemma {:induction false} DeniedUntilPublished(clock: int, run: seq<Label>, n: nat, k: Key)
    requires Legal(clock, run) && n <= |run| && Legal(clock, run[..n])
    requires !Live(After(clock, run[..n]).cat, k)
    requires forall i | n <= i < |run| :: Legal(clock, run[..i]) ==> !Republishes(After(clock, run[..i]), run[i], k)
    ensures var s := After(clock, run).cat;
            && !Live(s, k)
            && (forall owner, task :: !Authorized(s, k, owner, task))
            && (forall owner, task, now, ttl, token :: AcquireLease(s, k, owner, task, now, ttl, token).1.Failed?)
    decreases |run|
  {
    if n == |run| {
      assert run[..n] == run;
    } else {
      var before := run[..|run| - 1];
      assert before[..n] == run[..n];
      forall i | n <= i < |before| ensures before[..i] == run[..i] {}
      DeniedUntilPublished(clock, before, n, k);
      StaysBuried(After(clock, before), run[|run| - 1], k);
    }
  }
}
