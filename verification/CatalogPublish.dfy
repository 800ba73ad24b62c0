/** What a publication is answered, and which entries come to share an object. */
module CatalogPublish {
  import opened Options
  import opened IdealCrypto
  import opened Catalog
  import opened CatalogRuns

  // ----- The answers -----

  // The order of the classifications, least restricted first.
  predicate AtMost(a: Classification, b: Classification) {
    a == b || a.Public? || b.Secret? || (a.Internal? && b.Confidential?)
  }

  // The child is at least as restricted as its parent, and in the same encryption domain.
  predicate Descends(child: Manifest, parent: Manifest) {
    AtMost(parent.classification, child.classification) && parent.domain == child.domain
  }

  predicate Stands(s: State, m: Manifest, parent: string) {
    var k := Key(m.tenant, parent);
    k in s.entries && !s.entries[k].tombstoned && Descends(m, s.entries[k].manifest)
  }

  predicate AllStand(s: State, m: Manifest) { forall parent | parent in m.derivedFrom :: Stands(s, m, parent) }

  predicate Describes(m: Manifest, bytes: Bytes) { m.length == |bytes| && m.contentDigest == Digest(bytes) }

  // The manifests differ in the key generation at most.
  ghost predicate SameButGeneration(a: Manifest, b: Manifest) { exists g :: a == b.(generation := g) }

  // What makes two artifacts candidates for sharing an object.
  datatype DedupKey = DedupKey(
    tenant: string, owner: string, contentDigest: Digest, classification: Classification, domain: string,
    generation: string)

  function DedupKeyOf(m: Manifest): DedupKey {
    DedupKey(m.tenant, m.owner, m.contentDigest, m.classification, m.domain, m.generation)
  }

  predicate Twin(s: State, k: Key, m: Manifest) {
    k in s.entries && !s.entries[k].tombstoned && DedupKeyOf(s.entries[k].manifest) == DedupKeyOf(m)
  }

  ghost predicate HasTwin(s: State, m: Manifest) { exists k :: Twin(s, k, m) }

  // Everything but room, key and files is in order.
  ghost predicate Admissible(s: State, m: Manifest, bytes: Bytes) {
    Describes(m, bytes) && KeyOf(m) !in s.entries && AllStand(s, m)
  }

  lemma StandsIffAdmits(s: State, m: Manifest)
    ensures AllStand(s, m) <==> ParentsAdmit(s, m)
  {
    forall i | 0 <= i < |m.derivedFrom| ensures m.derivedFrom[i] in m.derivedFrom {}
    if ParentsAdmit(s, m) {
      forall parent | parent in m.derivedFrom ensures Stands(s, m, parent) {
        var i :| 0 <= i < |m.derivedFrom| && m.derivedFrom[i] == parent;
        assert ParentAdmits(s, m, m.derivedFrom[i]);
      }
    }
    if AllStand(s, m) {
      forall i | 0 <= i < |m.derivedFrom| ensures ParentAdmits(s, m, m.derivedFrom[i]) {
        assert Stands(s, m, m.derivedFrom[i]);
      }
    }
  }

  lemma SameDigestIff(a: Manifest, b: Manifest)
    ensures SameManifestDigest(a, b) <==> SameButGeneration(a, b)
  {
    if SameManifestDigest(a, b) { assert a == b.(generation := a.generation); }
  }

  lemma TwinIffDonor(s: State, m: Manifest, donor: Option<Key>)
    requires DonorFound(s, m, donor)
    ensures donor.Some? <==> HasTwin(s, m)
  {
    if HasTwin(s, m) {
      var k :| Twin(s, k, m);
      assert Shareable(s.entries[k], m);
    }
    if donor.Some? { assert Twin(s, donor.value, m); }
  }

  /** Each answer of a publication has its condition; the conditions exclude each other and cover every case. */
  ghost predicate Answered(s: State, m: Manifest, bytes: Bytes, supply: Supply, reply: Reply) {
    && (reply == Failed(Integrity) <==> !Describes(m, bytes))
    && (reply == Failed(Conflict) <==>
        Describes(m, bytes) && KeyOf(m) in s.entries && !SameButGeneration(s.entries[KeyOf(m)].manifest, m))
    && (reply == Failed(Denied) <==> Describes(m, bytes) && KeyOf(m) !in s.entries && !AllStand(s, m))
    && (reply == Failed(Invalid) <==> Admissible(s, m, bytes) && !HasTwin(s, m) && |bytes| > supply.maxBytes)
    && (reply == Failed(Unavailable) <==>
        Admissible(s, m, bytes) && !HasTwin(s, m) && |bytes| <= supply.maxBytes &&
        !(supply.keyAvailable && supply.io.Succeeds?))
    && (reply.Done? <==>
        || (Describes(m, bytes) && KeyOf(m) in s.entries && SameButGeneration(s.entries[KeyOf(m)].manifest, m))
        || (Admissible(s, m, bytes) && HasTwin(s, m))
        || (Admissible(s, m, bytes) && |bytes| <= supply.maxBytes && supply.keyAvailable && supply.io.Succeeds?))
  }

  lemma PublishAnswers(s: State, m: Manifest, bytes: Bytes, supply: Supply)
    requires DonorFound(s, m, supply.donor)
    ensures Answered(s, m, bytes, supply, Publish(s, m, bytes, supply).1)
  {
    StandsIffAdmits(s, m);
    TwinIffDonor(s, m, supply.donor);
    if KeyOf(m) in s.entries { SameDigestIff(s.entries[KeyOf(m)].manifest, m); }
  }

  // A new entry with this manifest: referenced, without holds and leases, and not collected before.
  predicate IsNew(e: Entry, m: Manifest) {
    e.manifest == m && e.referenceLive && !e.tombstoned && e.holds == {} && e.leases == map[] && e.fence == 0
  }

  /** What a publication leaves behind: nothing unless it answers `Done` for a key that was free, except for a
      file that was linked before the call failed; and then one new entry, with the given manifest, whose object
      is that of a twin if there is one and otherwise a new file, sealed under the manifest and readable as it. */
  ghost predicate Leaves(s: State, m: Manifest, bytes: Bytes, supply: Supply, t: State, reply: Reply) {
    var k := KeyOf(m);
    && (!reply.Done? || k in s.entries ==> t.entries == s.entries)
    && (reply.Done? && k !in s.entries ==>
        && k in t.entries && t.entries == s.entries[k := t.entries[k]] && IsNew(t.entries[k], m)
        && (if HasTwin(s, m)
            then t.files == s.files && exists j :: Twin(s, j, m) && t.entries[k].blob == s.entries[j].blob
            else
              && t.entries[k].blob.path == supply.path && t.files == SealedAt(s, m, bytes, supply)
              && ReadVerified(t, m, t.entries[k].blob, true) == Plaintext(bytes)))
    && (!reply.Done? ==>
        t.files == if reply == Failed(Unavailable) && supply.keyAvailable && supply.io.FailsAfter?
                   then SealedAt(s, m, bytes, supply) else s.files)
  }

  function SealedAt(s: State, m: Manifest, bytes: Bytes, supply: Supply): map<Path, Ciphertext<Aad>> {
    s.files[supply.path := Sealed(m.generation, supply.nonce, AadOf(m), bytes)]
  }

  lemma PublishLeaves(s: State, m: Manifest, bytes: Bytes, supply: Supply)
    requires DonorFound(s, m, supply.donor)
    ensures Leaves(s, m, bytes, supply, Publish(s, m, bytes, supply).0, Publish(s, m, bytes, supply).1)
  {
    TwinIffDonor(s, m, supply.donor);
    if supply.donor.Some? { assert Twin(s, supply.donor.value, m); }
  }

  // ----- Sharing -----

  ghost predicate Placed(w: World, k: Key) {
    k in w.cat.entries ==> w.cat.entries[k].blob.path in w.past.paths
  }

  ghost predicate SharesRightly(s: State, j: Key, k: Key) {
    && (j in s.entries && k in s.entries && s.entries[j].blob.path == s.entries[k].blob.path ==>
          DedupKeyOf(s.entries[j].manifest) == DedupKeyOf(s.entries[k].manifest))
    && (Live(s, j) && Live(s, k) && DedupKeyOf(s.entries[j].manifest) == DedupKeyOf(s.entries[k].manifest) ==>
          s.entries[j].blob.path == s.entries[k].blob.path)
  }

  ghost predicate Deduplicated(w: World) {
    (forall k :: Placed(w, k)) && forall j, k :: SharesRightly(w.cat, j, k)
  }

  lemma PublishShares(w: World, m: Manifest, bytes: Bytes, supply: Supply)
    requires Deduplicated(w) && Enabled(w, LPublish(m, bytes, supply))
    ensures Deduplicated(DoPublish(w, m, bytes, supply))
  {
    var v, n := DoPublish(w, m, bytes, supply), KeyOf(m);
    PublishLeaves(w.cat, m, bytes, supply);
    TwinIffDonor(w.cat, m, supply.donor);
    forall k ensures Placed(v, k) {
      assert Placed(w, k);
      if supply.donor.Some? { assert Placed(w, supply.donor.value); }
    }
    forall j, k ensures SharesRightly(v.cat, j, k) {
      assert SharesRightly(w.cat, j, k) && Placed(w, j) && Placed(w, k);
      if n in v.cat.entries && n !in w.cat.entries && supply.donor.Some? {
        var d := supply.donor.value;
        assert SharesRightly(w.cat, d, j) && SharesRightly(w.cat, j, d);
        assert SharesRightly(w.cat, d, k) && SharesRightly(w.cat, k, d);
      }
      if n in v.cat.entries && n !in w.cat.entries && supply.donor.None? && j != n && Live(w.cat, j) {
        assert !Shareable(w.cat.entries[j], m);
      }
      if n in v.cat.entries && n !in w.cat.entries && supply.donor.None? && k != n && Live(w.cat, k) {
        assert !Shareable(w.cat.entries[k], m);
      }
    }
  }

  // No other step adds an entry, changes an entry's manifest or object, or revives it.
  ghost predicate EntryOnlyAges(w: World, v: World, k: Key) {
    k in v.cat.entries ==>
      && k in w.cat.entries && v.cat.entries[k].manifest == w.cat.entries[k].manifest
      && v.cat.entries[k].blob == w.cat.entries[k].blob
      && (w.cat.entries[k].tombstoned ==> v.cat.entries[k].tombstoned)
  }

  lemma OthersOnlyAge(w: World, l: Label)
    requires Enabled(w, l) && !l.LPublish?
    ensures (forall k :: EntryOnlyAges(w, Next(w, l), k)) && w.past.paths == Next(w, l).past.paths
  {
  }

  lemma DeduplicatedStep(w: World, l: Label)
    requires Deduplicated(w) && Enabled(w, l)
    ensures Deduplicated(Next(w, l))
  {
    var v := Next(w, l);
    if l.LPublish? {
      PublishShares(w, l.m, l.bytes, l.supply);
    } else {
      OthersOnlyAge(w, l);
      forall k ensures Placed(v, k) { assert EntryOnlyAges(w, v, k) && Placed(w, k); }
      forall j, k ensures SharesRightly(v.cat, j, k) {
        assert EntryOnlyAges(w, v, j) && EntryOnlyAges(w, v, k) && SharesRightly(w.cat, j, k);
      }
    }
  }

  lemma {:induction false} RunsDeduplicate(clock: int, run: seq<Label>)
    requires Legal(clock, run)
    ensures Deduplicated(After(clock, run))
    decreases |run|
  {
    if run != [] {
      RunsDeduplicate(clock, run[..|run| - 1]);
      DeduplicatedStep(After(clock, run[..|run| - 1]), run[|run| - 1]);
    }
  }

  /** In every run two live entries share an object if and only if tenant, owner, content, classification,
      encryption domain and key generation agree. */
  lemma SharedIffSame(clock: int, run: seq<Label>, j: Key, k: Key)
    requires Legal(clock, run) && Live(After(clock, run).cat, j) && Live(After(clock, run).cat, k)
    ensures var s := After(clock, run).cat;
            s.entries[j].blob.path == s.entries[k].blob.path <==>
            DedupKeyOf(s.entries[j].manifest) == DedupKeyOf(s.entries[k].manifest)
  {
    RunsDeduplicate(clock, run);
    assert SharesRightly(After(clock, run).cat, j, k);
  }
}
