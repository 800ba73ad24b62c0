/**
 The catalog as an object: the methods update the entry map and the object directory in place, each
 method being one section of code that runs under the lock, one step of the blob store, or, for `Resolve`
 and `Gc`, a whole call that nobody disturbs.

 The object carries the world of `CatalogRuns` that it has come to, which no code reads, and every method
 keeps it in a state in which live entries have their files, objects open under their entries, and leases
 are accounted for. Random paths and tokens are asked to be new.
 */
module ArtifactCatalogObject {
  import opened Options
  import opened IdealCrypto
  import opened C = Catalog
  import opened CatalogRuns
  import opened CatalogPublish
  import opened CatalogSafety
  import opened CatalogReads
  import opened CatalogRetention

  ghost predicate Invariant(w: World) { Safe(w) && Openable(w) && Accounted(w) }

  ghost predicate Allowed(w: World, l: Label) { Enabled(w, l) && OneCollectorPerKey(w, l) && Timely(w, l) }

  lemma InvariantStep(w: World, l: Label)
    requires Invariant(w) && Allowed(w, l)
    ensures Invariant(Next(w, l))
  {
    SafeStep(w, l);
    OpenableStep(w, l);
    AccountedStep(w, l);
  }

  lemma InvariantAtStart(clock: int)
    ensures Invariant(Empty(clock))
  {
  }

  // What the invariant says about one entry: its file is there while it is live, and holds its bytes.
  lemma EntryIsBacked(w: World, k: Key)
    requires Invariant(w) && k in w.cat.entries
    ensures k in w.past.origin && VerifyPlaintext(w.cat.entries[k].manifest, w.past.origin[k])
    ensures Backed(w, w.cat.entries[k].manifest, w.cat.entries[k].blob, w.past.origin[k])
    ensures Live(w.cat, k) ==> w.cat.entries[k].blob.path in w.cat.files
  {
    assert KeyOk(w, k) && Recorded(w, k) && EntryBacked(w, k);
  }

  // A token is on record with one entry only.
  lemma OneHolder(w: World, token: Token, k: Key)
    requires Invariant(w) && k in w.cat.entries && token in w.cat.entries[k].leases
    ensures forall j | j in w.cat.entries && j != k :: token !in w.cat.entries[j].leases
  {
    forall j | j in w.cat.entries && j != k ensures token !in w.cat.entries[j].leases {
      assert OnRecord(w, k, token) && OnRecord(w, j, token);
    }
  }

  // Other entries than that of `k` are as they were.
  ghost predicate OthersKept(before: map<Key, Entry>, after: map<Key, Entry>, k: Key) {
    forall j | j != k :: (j in after <==> j in before) && (j in before ==> after[j] == before[j])
  }

  // Nothing keeps the entry, and its fence can still be counted up.
  predicate Doomed(s: State, k: Key, now: int) {
    k in s.entries && Collectable(s.entries[k], now) && s.entries[k].fence < U64_MAX
  }

  predicate Leased(e: Entry, now: int) { exists t | t in e.leases :: e.leases[t] > now }

  // What becomes of an entry that a collector looks at.
  ghost predicate Decided(e: Entry, now: int, f: Entry, reply: Reply) {
    var kept := e.referenceLive || Leased(e, now) || now < e.manifest.retainUntil;
    && (reply == Retention(KeptHeld) <==> e.holds != {})
    && (reply == Retention(KeptLive) <==> e.holds == {} && kept)
    && (reply == Done <==> e.holds == {} && !kept && e.fence != U64_MAX)
    && (f.tombstoned <==> e.tombstoned || (e.holds == {} && !kept))
    && f.fence == (if reply.Done? then e.fence + 1 else e.fence)
    && (forall t :: t in f.leases <==> t in e.leases && e.leases[t] > now)
    && (forall t | t in f.leases :: f.leases[t] == e.leases[t])
    && f.manifest == e.manifest && f.blob == e.blob && f.holds == e.holds && f.referenceLive == e.referenceLive
  }

  lemma MarkDecides(e: Entry, now: int)
    ensures Decided(e, now, GcMarked(e, now), GcVerdict(e, now))
  {
    if Leased(e, now) {
      var t :| t in e.leases && e.leases[t] > now;
      assert t in Unexpired(e.leases, now);
    } else {
      assert Unexpired(e.leases, now) == map[];
    }
  }

  // Sharers are other entries, which a change of this one leaves alone.
  lemma SameSharers(s: State, t: State, k: Key, p: Path)
    requires t.entries.Keys == s.entries.Keys && forall j | j in s.entries && j != k :: t.entries[j] == s.entries[j]
    ensures GcShared(t, k, p) == GcShared(s, k, p)
  {
    if GcShared(s, k, p) {
      var j :| j in s.entries && j != k && Live(s, j) && Names(s, j, p);
      assert Live(t, j) && Names(t, j, p);
    }
    if GcShared(t, k, p) {
      var j :| j in t.entries && j != k && Live(t, j) && Names(t, j, p);
      assert Live(s, j) && Names(s, j, p);
    }
  }

  /** Placing a hold that was not there and releasing it leaves everything as it was. */
  lemma HoldRoundTrip(s: State, k: Key, hold: string)
    requires k in s.entries && hold !in s.entries[k].holds
    ensures DropHold(PlaceHold(s, k, hold, true).0, k, hold) == (s, Done)
  {
    var e := s.entries[k];
    assert e.holds + {hold} - {hold} == e.holds;
    assert s.entries[k := e.(holds := e.holds + {hold})][k := e] == s.entries;
  }

  class ArtifactCatalog {
    var entries: map<Key, Entry>
    var files: map<Path, Ciphertext<Aad>>
    ghost var world: World

    constructor (ghost clock: int)
      ensures Valid() && world == Empty(clock)
    {
      entries := map[];
      files := map[];
      world := Empty(clock);
      InvariantAtStart(clock);
    }

    function View(): State
      reads this
    {
      State(entries, files)
    }

    ghost predicate Valid()
      reads this
    {
      world.cat == View() && Invariant(world)
    }

    ghost method Take(l: Label)
      requires Invariant(world) && Allowed(world, l) && Next(world, l).cat == View()
      modifies `world
      ensures Valid() && world == Next(old(world), l)
    {
      InvariantStep(world, l);
      world := Next(world, l);
    }

    /** Every answer has its condition, and only a new entry changes the catalog: it has the given manifest and
        opens to the bytes it was published with. */
    method Publish(m: Manifest, bytes: Bytes, path: Path, nonce: Nonce, maxBytes: nat, keyAvailable: bool, io: Io)
      returns (reply: Reply, donor: Option<Key>)
      requires Valid() && path !in world.past.paths
      modifies this
      ensures Valid() && DonorFound(old(View()), m, donor)
      ensures (View(), reply) ==
                C.Publish(old(View()), m, bytes, Supply(donor, path, nonce, maxBytes, keyAvailable, io))
      ensures Answered(old(View()), m, bytes, Supply(donor, path, nonce, maxBytes, keyAvailable, io), reply)
      ensures Leaves(old(View()), m, bytes, Supply(donor, path, nonce, maxBytes, keyAvailable, io), View(), reply)
      ensures reply.Done? && KeyOf(m) !in old(entries) ==>
                KeyOf(m) in world.past.origin && world.past.origin[KeyOf(m)] == bytes
    {
      reply, donor := Place(m, bytes, path, nonce, maxBytes, keyAvailable, io);
      PublishAnswers(old(View()), m, bytes, Supply(donor, path, nonce, maxBytes, keyAvailable, io));
      PublishLeaves(old(View()), m, bytes, Supply(donor, path, nonce, maxBytes, keyAvailable, io));
      Take(LPublish(m, bytes, Supply(donor, path, nonce, maxBytes, keyAvailable, io)));
    }

    method Place(m: Manifest, bytes: Bytes, path: Path, nonce: Nonce, maxBytes: nat, keyAvailable: bool, io: Io)
      returns (reply: Reply, donor: Option<Key>)
      modifies `entries, `files
      ensures DonorFound(old(View()), m, donor)
      ensures (View(), reply) ==
                C.Publish(old(View()), m, bytes, Supply(donor, path, nonce, maxBytes, keyAvailable, io))
    {
      donor := FindShareable(m);
      var key := KeyOf(m);
      if !VerifyPlaintext(m, bytes) {
        return Failed(Integrity), donor;
      }
      if key in entries {
        return (if SameManifestDigest(entries[key].manifest, m) then Done else Failed(Conflict)), donor;
      }
      var i := 0;
      while i < |m.derivedFrom|
        invariant 0 <= i <= |m.derivedFrom|
        invariant forall j | 0 <= j < i :: ParentAdmits(View(), m, m.derivedFrom[j])
      {
        var parent := Key(m.tenant, m.derivedFrom[i]);
        if parent !in entries || entries[parent].tombstoned ||
           entries[parent].manifest.classification.Rank() > m.classification.Rank() ||
           entries[parent].manifest.domain != m.domain
        {
          assert !ParentAdmits(View(), m, m.derivedFrom[i]);
          return Failed(Denied), donor;
        }
        i := i + 1;
      }
      if donor.Some? {
        entries := entries[key := Fresh(m, entries[donor.value].blob)];
        return Done, donor;
      }
      if |bytes| > maxBytes {
        return Failed(Invalid), donor;
      }
      if !keyAvailable || io.FailsBefore? {
        return Failed(Unavailable), donor;
      }
      files := files[path := Seal(m, bytes, nonce)];
      if io.FailsAfter? {
        return Failed(Unavailable), donor;
      }
      entries := entries[key := Fresh(m, StoredAs(m, bytes, path, nonce))];
      return Done, donor;
    }

    method FindShareable(m: Manifest) returns (donor: Option<Key>)
      ensures DonorFound(View(), m, donor)
    {
      var rest := entries.Keys;
      while rest != {}
        invariant rest <= entries.Keys
        invariant forall k | k in entries && k !in rest :: !Shareable(entries[k], m)
        decreases |rest|
      {
        var k :| k in rest;
        if Shareable(entries[k], m) {
          return Some(k);
        }
        rest := rest - {k};
      }
      return None;
    }

    method OpenForRead(k: Key, owner: string, task: string) returns (copy: Option<(Manifest, StoredObject)>)
      ensures copy.Some? <==> Authorized(View(), k, owner, task)
      ensures copy.Some? <==>
              && k in entries && !entries[k].tombstoned && entries[k].referenceLive
              && entries[k].manifest.owner == owner && entries[k].manifest.task == task
      ensures copy.Some? ==> copy.value == (entries[k].manifest, entries[k].blob)
    {
      if k in entries && !entries[k].tombstoned && entries[k].referenceLive &&
         entries[k].manifest.owner == owner && entries[k].manifest.task == task
      {
        return Some((entries[k].manifest, entries[k].blob));
      }
      return None;
    }

    /** Whatever is in the files, what is returned is what the manifest describes; and an object stored for
        these bytes opens to them exactly when the key is available and the file is there. Runs outside the lock. */
    method ReadVerified(m: Manifest, o: StoredObject, keyAvailable: bool) returns (reply: Reply)
      ensures reply.Failed? || (reply.Plaintext? && VerifyPlaintext(m, reply.bytes))
      ensures forall bytes | VerifyPlaintext(m, bytes) && o == StoredAs(m, bytes, o.path, o.nonce) ::
                o.path in files && files[o.path] == Seal(m, bytes, o.nonce) && keyAvailable ==>
                  reply == Plaintext(bytes)
      ensures o.path !in files || !keyAvailable ==> reply.Failed?
    {
      if o.generation != m.generation { return Failed(Integrity); }
      if o.path !in files { return Failed(Unavailable); }
      var ciphertext := files[o.path];
      if StoredLength(ciphertext) != o.length { return Failed(Integrity); }
      if StoredDigest(ciphertext) != o.digest { return Failed(Integrity); }
      if !keyAvailable { return Failed(Unavailable); }
      var plaintext := Open(o.generation, o.nonce, AadOf(m), ciphertext);
      if plaintext.None? || !VerifyPlaintext(m, plaintext.value) { return Failed(Integrity); }
      return Plaintext(plaintext.value);
    }

    /** An undisturbed resolve gives the bytes that the entry was published with, exactly when the caller is
        authorized and the key is available. */
    method Resolve(k: Key, owner: string, task: string, keyAvailable: bool) returns (reply: Reply)
      requires Valid()
      ensures !Authorized(View(), k, owner, task) ==> reply == Failed(Denied)
      ensures Authorized(View(), k, owner, task) ==>
                if keyAvailable
                then k in world.past.origin && reply == Plaintext(world.past.origin[k]) else reply.Failed?
    {
      var copy := OpenForRead(k, owner, task);
      if copy.None? {
        return Failed(Denied);
      }
      EntryIsBacked(world, k);
      reply := ReadVerified(copy.value.0, copy.value.1, keyAvailable);
    }

    /** A granted lease keeps the entry from collection until it expires. */
    method AcquireReadLease(k: Key, owner: string, task: string, now: int, ttl: int,
                            token: Token) returns (reply: Reply)
      requires Valid() && token !in world.past.tokens
      modifies this
      ensures Valid() && world == DoAcquire(old(world), k, owner, task, now, ttl, token)
      ensures reply == Granted(token) <==> 0 < ttl <= I64_MAX - now && Authorized(old(View()), k, owner, task)
      ensures reply.Granted? || (reply.Failed? && View() == old(View()))
      ensures reply.Granted? ==> k in entries && forall t | t < now + ttl :: !Collectable(entries[k], t)
    {
      ghost var l := LAcquire(k, owner, task, now, ttl, token);
      if ttl <= 0 { Take(l); return Failed(Invalid); }
      if !Authorized(View(), k, owner, task) { Take(l); return Failed(Denied); }
      if now + ttl > I64_MAX { Take(l); return Failed(Invalid); }
      var entry := entries[k];
      entries := entries[k := entry.(leases := entry.leases[token := now + ttl])];
      Take(l);
      forall t | t < now + ttl ensures !Collectable(entries[k], t) { assert token in Unexpired(entries[k].leases, t); }
      return Granted(token);
    }

    method ReleaseReadLease(token: Token) returns (reply: Reply, holder: Option<Key>)
      requires Valid()
      modifies this
      ensures Valid() && HolderFound(old(View()), token, holder)
      ensures world == DoRelease(old(world), token, holder) && (reply.Done? <==> holder.Some?)
      ensures reply.Done? ==> forall k | k in entries :: token !in entries[k].leases
    {
      var rest := entries.Keys;
      while rest != {}
        invariant rest <= entries.Keys && entries == old(entries) && files == old(files) && world == old(world)
        invariant forall k | k in entries && k !in rest :: token !in entries[k].leases
        decreases |rest|
      {
        var k :| k in rest;
        if token in entries[k].leases {
          OneHolder(world, token, k);
          entries := entries[k := entries[k].(leases := entries[k].leases - {token})];
          Take(LRelease(token, Some(k)));
          return Done, Some(k);
        }
        rest := rest - {k};
      }
      Take(LRelease(token, None));
      return Failed(Denied), None;
    }

    /** A placed hold keeps the entry, tombstoned or not, from every collection that starts afterwards. */
    method PlaceLegalHold(k: Key, hold: string, wellFormed: bool) returns (reply: Reply)
      requires Valid()
      modifies this
      ensures Valid() && world == DoPlaceHold(old(world), k, hold, wellFormed)
      ensures reply.Done? <==> wellFormed && k in old(entries)
      ensures reply.Done? ==> k in entries && hold in entries[k].holds
      ensures reply.Done? ==> forall t :: GcVerdict(entries[k], t) == Retention(KeptHeld)
    {
      ghost var l := LPlaceHold(k, hold, wellFormed);
      if !wellFormed { Take(l); return Failed(Invalid); }
      if k !in entries { Take(l); return Failed(Denied); }
      entries := entries[k := entries[k].(holds := entries[k].holds + {hold})];
      Take(l);
      return Done;
    }

    /** Releases that hold and no other; with the last one gone, collection is up to the rest of the entry. */
    method ReleaseLegalHold(k: Key, hold: string) returns (reply: Reply)
      requires Valid()
      modifies this
      ensures Valid() && world == DoDropHold(old(world), k, hold)
      ensures reply.Done? <==> k in old(entries) && hold in old(entries)[k].holds
      ensures reply.Done? ==>
                k in entries &&
                forall t :: (GcVerdict(entries[k], t) == Retention(KeptHeld) <==> old(entries)[k].holds != {hold})
    {
      ghost var l := LDropHold(k, hold);
      if k !in entries { Take(l); return Failed(Denied); }
      if hold !in entries[k].holds { Take(l); return Failed(Denied); }
      entries := entries[k := entries[k].(holds := entries[k].holds - {hold})];
      Take(l);
      return Done;
    }

    /** From then on nobody is authorized to resolve the entry or to lease it. */
    method DropReference(k: Key, task: string) returns (reply: Reply)
      requires Valid()
      modifies this
      ensures Valid() && world == DoReleaseReference(old(world), k, task)
      ensures reply.Done? <==> k in old(entries) && old(entries)[k].manifest.task == task
      ensures reply.Done? ==> forall owner, other :: !Authorized(View(), k, owner, other)
    {
      ghost var l := LReleaseReference(k, task);
      if k !in entries || entries[k].manifest.task != task { Take(l); return Failed(Denied); }
      entries := entries[k := entries[k].(referenceLive := false)];
      Take(l);
      return Done;
    }

    /** gc, first section: a held entry stays, so does one that is referenced, leased or to be retained, and any
        other is tombstoned, its fence counted up; of its leases those remain that have not expired. */
    method Mark(k: Key, now: int, batch: int, ghost id: nat) returns (reply: Reply)
      requires Valid() && Allowed(world, LMark(id, k, now, batch))
      modifies this
      ensures Valid() && world == DoMark(old(world), id, k, now, batch)
      ensures (View(), reply) == GcMark(old(View()), k, now, batch)
      ensures reply == Failed(Invalid) <==> batch < 1 || batch > 1000
      ensures reply == Failed(Denied) <==> 1 <= batch <= 1000 && k !in old(entries)
      ensures 1 <= batch <= 1000 && k in old(entries) ==>
                k in entries && Decided(old(entries)[k], now, entries[k], reply) && OthersKept(old(entries), entries, k)
    {
      if 1 <= batch <= 1000 && k in entries { MarkDecides(entries[k], now); }
      reply := Decide(k, now, batch);
      Take(LMark(id, k, now, batch));
    }

    method Decide(k: Key, now: int, batch: int) returns (reply: Reply)
      modifies `entries
      ensures (View(), reply) == GcMark(old(View()), k, now, batch)
    {
      if batch < 1 || 1000 < batch { return Failed(Invalid); }
      if k !in entries { return Failed(Denied); }
      var entry := entries[k];
      entry := entry.(leases := Unexpired(entry.leases, now));
      entries := entries[k := entry];
      if entry.holds != {} { return Retention(KeptHeld); }
      if entry.referenceLive || entry.leases != map[] || now < entry.manifest.retainUntil {
        return Retention(KeptLive);
      }
      entry := entry.(tombstoned := true);
      entries := entries[k := entry];
      if entry.fence == U64_MAX {
        assert entries == old(entries)[k := GcMarked(old(entries)[k], now)];
        return Failed(Unavailable);
      }
      entries := entries[k := entry.(fence := entry.fence + 1)];
      assert entries == old(entries)[k := GcMarked(old(entries)[k], now)];
      return Done;
    }

    // gc, second section.
    method HasSharer(k: Key, p: Path) returns (shared: bool)
      ensures shared <==> GcShared(View(), k, p)
    {
      var rest := entries.Keys;
      while rest != {}
        invariant rest <= entries.Keys
        invariant forall other | other in entries && other !in rest ::
            !(other != k && Live(View(), other) && Names(View(), other, p))
        decreases |rest|
      {
        var other :| other in rest;
        if other != k && !entries[other].tombstoned && entries[other].blob.path == p {
          assert Live(View(), other) && Names(View(), other, p);
          return true;
        }
        rest := rest - {other};
      }
      return false;
    }

    /** gc, the unlink, outside the lock: of a path that no live entry names, so that every live entry has
        its file afterwards as before. */
    method Unlink(p: Path, io: Io, ghost id: nat) returns (reply: Reply)
      requires Valid() && id in world.work.collectors && world.work.collectors[id].phase == Checked(false)
      requires world.work.collectors[id].blob.path == p
      modifies `files, `world
      ensures Valid() && world == DoUnlink(old(world), id, io)
      ensures forall k | Live(View(), k) :: entries[k].blob.path != p && entries[k].blob.path in files
      ensures (reply.Done? <==> io.Succeeds?) && (reply.Done? || reply.Failed?)
      ensures reply.Done? ==> files == old(files) - {p}
    {
      forall k | Live(View(), k) ensures entries[k].blob.path != p { assert Spares(world, id, k); }
      if io.FailsBefore? {
        Take(LUnlink(id, io));
        reply := Failed(Unavailable);
      } else {
        files := files - {p};
        Take(LUnlink(id, io));
        reply := if io.Succeeds? then Done else Failed(Unavailable);
      }
      forall k | Live(View(), k) ensures entries[k].blob.path in files { assert KeyOk(world, k); }
    }

    /** gc, last section: with one collector on a key the entry is always the one that was marked, so the
        conflict that the code provides for does not come up. */
    method Remove(k: Key, fence: nat, ghost id: nat) returns (reply: Reply)
      requires Valid() && id in world.work.collectors && world.work.collectors[id].phase.Unlinked?
      requires world.work.collectors[id].key == k && world.work.collectors[id].fence == fence
      modifies `entries, `world
      ensures Valid() && world == DoRemove(old(world), id)
      ensures reply == Retention(Deleted) && k in old(entries) && entries == old(entries) - {k}
    {
      assert MarkOk(world, id);
      reply := RemoveMarked(k, fence);
      Take(LRemove(id));
    }

    method RemoveMarked(k: Key, fence: nat) returns (reply: Reply)
      modifies `entries
      ensures (View(), reply) == GcRemove(old(View()), k, fence)
    {
      if k !in entries { return Failed(Conflict); }
      if !entries[k].tombstoned || entries[k].fence != fence { return Failed(Conflict); }
      entries := entries - {k};
      return Retention(Deleted);
    }

    method Check(k: Key, p: Path, ghost id: nat) returns (shared: bool)
      requires Valid() && id in world.work.collectors && world.work.collectors[id].phase.Marked?
      requires world.work.collectors[id].key == k && world.work.collectors[id].blob.path == p
      modifies `world
      ensures Valid() && world == DoCheck(old(world), id)
      ensures shared == GcShared(View(), k, p)
    {
      shared := HasSharer(k, p);
      Take(LCheck(id));
    }

    // The unlink, unless there is a sharer.
    method UnlinkUnlessShared(p: Path, shared: bool, io: Io, ghost id: nat) returns (reply: Reply)
      requires Valid() && id in world.work.collectors && world.work.collectors[id].phase == Checked(shared)
      requires world.work.collectors[id].blob.path == p
      modifies `files, `world
      ensures Valid() && world == DoUnlink(old(world), id, io)
      ensures (reply.Done? <==> shared || io.Succeeds?) && (reply.Done? || reply.Failed?)
      ensures reply.Done? ==> files == if shared then old(files) else old(files) - {p}
    {
      if shared {
        Take(LUnlink(id, io));
        return Done;
      }
      reply := Unlink(p, io, id);
    }

    // gc, after its first section.
    method Collect(k: Key, o: StoredObject, fence: nat, io: Io, ghost id: nat) returns (reply: Reply)
      requires Valid() && id in world.work.collectors && world.work.collectors[id] == Collector(k, o, fence, Marked)
      modifies this
      ensures Valid() && (io.Succeeds? ==> reply == Retention(Deleted))
      ensures if reply == Retention(Deleted)
              then k in old(entries) && entries == old(entries) - {k} else entries == old(entries)
      ensures reply == Retention(Deleted) ==>
                files == if GcShared(old(View()), k, o.path) then old(files) else old(files) - {o.path}
    {
      var shared := Check(k, o.path, id);
      reply := UnlinkUnlessShared(o.path, shared, io, id);
      if reply.Done? {
        reply := Remove(k, fence, id);
      }
    }

    /** An undisturbed collection deletes exactly an entry without hold, reference, unexpired lease and
        retention, takes its file along exactly when no other live entry names it, and leaves all other
        entries alone. */
    method Gc(k: Key, now: int, batch: int, io: Io, ghost id: nat) returns (reply: Reply)
      requires Valid() && Allowed(world, LMark(id, k, now, batch))
      modifies this
      ensures Valid() && OthersKept(old(entries), entries, k)
      ensures reply == Retention(Deleted) ==>
                1 <= batch <= 1000 && k in old(entries) && Collectable(old(entries)[k], now) && k !in entries
      ensures reply == Retention(Deleted) ==>
                var p := old(entries)[k].blob.path;
                files == if GcShared(old(View()), k, p) then old(files) else old(files) - {p}
      ensures io.Succeeds? && 1 <= batch <= 1000 && Doomed(old(View()), k, now) ==> reply == Retention(Deleted)
    {
      reply := Mark(k, now, batch, id);
      if !reply.Done? {
        return;
      }
      var o, fence := entries[k].blob, entries[k].fence;
      SameSharers(old(View()), View(), k, o.path);
      reply := Collect(k, o, fence, io, id);
    }

    method CountPhysicalObjects() returns (n: nat)
      ensures n == PhysicalObjectCount(View())
    {
      var paths: set<Path>, rest := {}, entries.Keys;
      while rest != {}
        invariant rest <= entries.Keys
        invariant paths == set k | k in entries && k !in rest :: entries[k].blob.path
        decreases |rest|
      {
        var k :| k in rest;
        paths := paths + {entries[k].blob.path};
        rest := rest - {k};
      }
      assert paths == NamedPaths(View());
      return |paths|;
    }
  }
}
