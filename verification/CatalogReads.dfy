/** What a resolved artifact's bytes are, and when resolving succeeds. */
module CatalogReads {
  import opened IdealCrypto
  import opened Catalog
  import opened CatalogRuns

  // ----- Integrity, on every run, with files rewritten or removed at will -----

  ghost predicate Recorded(w: World, k: Key) {
    (k in w.past.origin <==> k in w.cat.entries) &&
    (k in w.cat.entries ==> VerifyPlaintext(w.cat.entries[k].manifest, w.past.origin[k]))
  }

  ghost predicate Remembers(w: World, id: nat) {
    id in w.work.readers ==> VerifyPlaintext(w.work.readers[id].manifest, w.work.readers[id].origin)
  }

  ghost predicate Faithful(w: World) {
    (forall k :: Recorded(w, k)) && (forall id :: Remembers(w, id))
  }

  // Entries and files may be gone, along with the origin of a removed entry; none is new or different.
  ghost predicate Shrinks(w: World, v: World) {
    && v.cat.entries.Keys <= w.cat.entries.Keys
    && (forall k | k in v.cat.entries ::
          v.cat.entries[k].manifest == w.cat.entries[k].manifest && v.cat.entries[k].blob == w.cat.entries[k].blob)
    && v.past.origin.Keys == w.past.origin.Keys - (w.cat.entries.Keys - v.cat.entries.Keys)
    && (forall k | k in v.past.origin :: v.past.origin[k] == w.past.origin[k])
    && v.cat.files.Keys <= w.cat.files.Keys
    && (forall p | p in v.cat.files :: v.cat.files[p] == w.cat.files[p])
    && v.past.paths == w.past.paths && v.work.readers == w.work.readers
  }

  lemma MarkShrinks(w: World, id: nat, k: Key, now: int, batch: int)
    ensures Shrinks(w, DoMark(w, id, k, now, batch))
  {}

  lemma RemoveShrinks(w: World, id: nat)
    requires id in w.work.collectors
    ensures Shrinks(w, DoRemove(w, id))
  {}

  lemma CollectingShrinks(w: World, l: Label)
    requires Enabled(w, l) && Collects(l)
    ensures Shrinks(w, Next(w, l))
  {
    if l.LMark? { MarkShrinks(w, l.id, l.key, l.now, l.batch); }
    if l.LRemove? { RemoveShrinks(w, l.id); }
  }

  predicate Collects(l: Label) { l.LMark? || l.LCheck? || l.LUnlink? || l.LRemove? }

  lemma FaithfulQuiet(w: World, v: World)
    requires Faithful(w) && Quiet(w, v)
    ensures forall k :: Recorded(v, k)
  {
    forall k ensures Recorded(v, k) { assert Recorded(w, k); }
  }

  lemma FaithfulShrink(w: World, v: World)
    requires Faithful(w) && Shrinks(w, v)
    ensures forall k :: Recorded(v, k)
  {
    forall k ensures Recorded(v, k) { assert Recorded(w, k); }
  }

  lemma FaithfulPublish(w: World, m: Manifest, bytes: Bytes, supply: Supply)
    requires Faithful(w) && DonorFound(w.cat, m, supply.donor)
    ensures forall k :: Recorded(DoPublish(w, m, bytes, supply), k)
  {
    forall k ensures Recorded(DoPublish(w, m, bytes, supply), k) { assert Recorded(w, k); }
  }

  lemma FaithfulStep(w: World, l: Label)
    requires Faithful(w) && Enabled(w, l)
    ensures Faithful(Next(w, l))
  {
    var v := Next(w, l);
    if l.LPublish? { FaithfulPublish(w, l.m, l.bytes, l.supply); }
    else if Collects(l) { CollectingShrinks(w, l); FaithfulShrink(w, v); }
    else if l.LTamper? { forall k ensures Recorded(v, k) { assert Recorded(w, k); } }
    else { OthersAreQuiet(w, l); FaithfulQuiet(w, v); }
    forall id ensures Remembers(v, id) {
      assert Remembers(w, id);
      if l.LOpen? { assert Recorded(w, l.key); }
    }
  }

  lemma {:induction false} RunsStayFaithful(clock: int, run: seq<Label>)
    requires Legal(clock, run)
    ensures Faithful(After(clock, run))
    decreases |run|
  {
    if run != [] {
      RunsStayFaithful(clock, run[..|run| - 1]);
      FaithfulStep(After(clock, run[..|run| - 1]), run[|run| - 1]);
    }
  }

  /** Whatever happened to the files, a resolve ends in an error or in exactly the bytes with which the
      entry it opened was published. */
  lemma ResolveReturnsPublishedBytes(clock: int, run: seq<Label>, id: nat, keyAvailable: bool)
    requires Legal(clock, run) && id in After(clock, run).work.readers
    ensures var w := After(clock, run); var r := w.work.readers[id];
            var reply := ReadVerified(w.cat, r.manifest, r.blob, keyAvailable);
            reply.Failed? || reply == Plaintext(r.origin)
  {
    RunsStayFaithful(clock, run);
    assert Remembers(After(clock, run), id);
  }

  // The file is the one that was stored.
  predicate Untouched(s: State, o: StoredObject) {
    o.path in s.files && StoredLength(s.files[o.path]) == o.length && StoredDigest(s.files[o.path]) == o.digest
  }

  /** Each answer of a read by its condition: unavailable if the file is missing, or is as stored and the key is not
      to be had; the bytes if it is as stored, sealed for the manifest, and they are what the manifest describes;
      and else a breach of integrity. */
  lemma ReadAnswers(s: State, m: Manifest, o: StoredObject, keyAvailable: bool)
    ensures var reply := ReadVerified(s, m, o, keyAvailable);
            && (reply == Failed(Unavailable) <==>
                o.generation == m.generation && (o.path !in s.files || (Untouched(s, o) && !keyAvailable)))
            && (forall b :: reply == Plaintext(b) <==>
                && o.generation == m.generation && keyAvailable && Untouched(s, o)
                && s.files[o.path] == Sealed(o.generation, o.nonce, AadOf(m), b)
                && m.length == |b| && m.contentDigest == Digest(b))
            && (reply.Plaintext? || reply == Failed(Unavailable) || reply == Failed(Integrity))
  {
  }

  // ----- Availability: deduplicated or not, the object opens under this entry's associated data -----

  ghost predicate Backed(w: World, m: Manifest, blob: StoredObject, bytes: Bytes) {
    && blob.path in w.past.paths
    && blob == StoredAs(m, bytes, blob.path, blob.nonce)
    && (blob.path in w.cat.files ==> w.cat.files[blob.path] == Seal(m, bytes, blob.nonce))
  }

  ghost predicate EntryBacked(w: World, k: Key) {
    k in w.cat.entries && k in w.past.origin ==>
      Backed(w, w.cat.entries[k].manifest, w.cat.entries[k].blob, w.past.origin[k])
  }

  ghost predicate ReaderBacked(w: World, id: nat) {
    id in w.work.readers ==> Backed(w, w.work.readers[id].manifest, w.work.readers[id].blob, w.work.readers[id].origin)
  }

  ghost predicate Openable(w: World) {
    && Faithful(w)
    && w.cat.files.Keys <= w.past.paths
    && (forall k :: EntryBacked(w, k))
    && (forall id :: ReaderBacked(w, id))
  }

  // Files may vanish, but no existing path gets new contents.
  ghost predicate OnlyNewFiles(w: World, v: World) {
    && w.past.paths <= v.past.paths && v.cat.files.Keys <= v.past.paths
    && (forall p | p in v.cat.files && p in w.past.paths :: p in w.cat.files && v.cat.files[p] == w.cat.files[p])
  }

  lemma OpenableQuiet(w: World, v: World, l: Label)
    requires Openable(w) && Enabled(w, l) && v == Next(w, l) && Quiet(w, v) && Faithful(v)
    ensures Openable(v)
  {
    forall k ensures EntryBacked(v, k) { assert EntryBacked(w, k); }
    forall id ensures ReaderBacked(v, id) {
      assert ReaderBacked(w, id);
      if l.LOpen? { assert EntryBacked(w, l.key); }
    }
  }

  // The deduplication key fixes every field of the associated data, the length through the digest.
  lemma SharedBlobFits(w: World, donor: Key, m: Manifest, bytes: Bytes)
    requires Openable(w) && donor in w.cat.entries && Shareable(w.cat.entries[donor], m) && VerifyPlaintext(m, bytes)
    ensures Backed(w, m, w.cat.entries[donor].blob, bytes)
  {
    assert Recorded(w, donor) && EntryBacked(w, donor);
    assert w.past.origin[donor] == bytes && AadOf(w.cat.entries[donor].manifest) == AadOf(m);
  }

  lemma OpenablePublish(w: World, m: Manifest, bytes: Bytes, supply: Supply)
    requires Openable(w) && DonorFound(w.cat, m, supply.donor) && supply.path !in w.past.paths
    requires Faithful(DoPublish(w, m, bytes, supply))
    ensures Openable(DoPublish(w, m, bytes, supply))
  {
    var v := DoPublish(w, m, bytes, supply);
    assert OnlyNewFiles(w, v);
    forall k ensures EntryBacked(v, k) {
      assert Recorded(w, k) && EntryBacked(w, k);
      if k in w.cat.entries {
        assert Backed(v, w.cat.entries[k].manifest, w.cat.entries[k].blob, w.past.origin[k]);
      } else if k in v.cat.entries && supply.donor.Some? {
        SharedBlobFits(w, supply.donor.value, m, bytes);
        assert Backed(v, m, w.cat.entries[supply.donor.value].blob, bytes);
      }
    }
    forall id ensures ReaderBacked(v, id) { assert ReaderBacked(w, id); }
  }

  lemma OpenableShrink(w: World, v: World)
    requires Openable(w) && Shrinks(w, v) && Faithful(v)
    ensures Openable(v)
  {
    forall k ensures EntryBacked(v, k) { assert EntryBacked(w, k); }
    forall id ensures ReaderBacked(v, id) { assert ReaderBacked(w, id); }
  }

  lemma OpenableStep(w: World, l: Label)
    requires Openable(w) && Enabled(w, l) && !l.LTamper?
    ensures Openable(Next(w, l))
  {
    FaithfulStep(w, l);
    if l.LPublish? { OpenablePublish(w, l.m, l.bytes, l.supply); }
    else if Collects(l) { CollectingShrinks(w, l); OpenableShrink(w, Next(w, l)); }
    else { OthersAreQuiet(w, l); OpenableQuiet(w, Next(w, l), l); }
  }

  lemma {:induction false} RunsStayOpenable(clock: int, run: seq<Label>)
    requires Legal(clock, run) && Along(clock, run, Untampered)
    ensures Openable(After(clock, run))
    decreases |run|
  {
    if run != [] {
      RunsStayOpenable(clock, run[..|run| - 1]);
      OpenableStep(After(clock, run[..|run| - 1]), run[|run| - 1]);
    }
  }

  /** Without tampering, a resolve succeeds exactly when its key is available and its object has not been
      collected meanwhile, through however many deduplications the object came to the entry. */
  lemma ResolveSucceedsIff(clock: int, run: seq<Label>, id: nat, keyAvailable: bool)
    requires Legal(clock, run) && Along(clock, run, Untampered) && id in After(clock, run).work.readers
    ensures var w := After(clock, run); var r := w.work.readers[id];
            (ReadVerified(w.cat, r.manifest, r.blob, keyAvailable) == Plaintext(r.origin)
             <==> keyAvailable && r.blob.path in w.cat.files)
  {
    RunsStayOpenable(clock, run);
    assert Remembers(After(clock, run), id) && ReaderBacked(After(clock, run), id);
  }
}
