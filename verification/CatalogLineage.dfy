/** Derived artifacts: what a child inherits from its parents, and when the parents turn against it later. */
module CatalogLineage {
  import opened Options
  import opened IdealCrypto
  import opened Catalog
  import opened CatalogRuns
  import opened CatalogPublish
  import opened CatalogOverlap

  /** In every run, the one step that adds an entry is a publication, and at that step each parent of the new
      entry is in the catalog, not tombstoned, in its domain and of no higher classification. */
  lemma NewEntriesDescend(clock: int, run: seq<Label>, i: nat, k: Key)
    requires Legal(clock, run) && i < |run| && Legal(clock, run[..i]) && Legal(clock, run[..i + 1])
    requires k !in After(clock, run[..i]).cat.entries && k in After(clock, run[..i + 1]).cat.entries
    ensures run[i].LPublish? && KeyOf(run[i].m) == k
    ensures After(clock, run[..i + 1]).cat.entries[k].manifest == run[i].m
    ensures AllStand(After(clock, run[..i]).cat, run[i].m)
  {
    var w, l := After(clock, run[..i]), run[i];
    assert run[..i + 1][..i] == run[..i] && run[..i + 1][i] == l;
    if l.LPublish? {
      PublishAnswers(w.cat, l.m, l.bytes, l.supply);
      PublishLeaves(w.cat, l.m, l.bytes, l.supply);
    } else {
      OthersAddNone(w, l, k);
    }
  }

  lemma OthersAddNone(w: World, l: Label, k: Key)
    requires Enabled(w, l) && !l.LPublish? && k !in w.cat.entries
    ensures k !in Next(w, l).cat.entries
  {
    OthersOnlyAge(w, l);
    assert EntryOnlyAges(w, Next(w, l), k);
  }

  // ----- Chains -----

  // The entry of `k` names the entry of `p` as a parent.
  predicate Edge(s: State, k: Key, p: Key) {
    k in s.entries && p in s.entries && p.tenant == s.entries[k].manifest.tenant &&
    p.artifact in s.entries[k].manifest.derivedFrom
  }

  predicate EdgeOk(s: State, k: Key, p: Key) {
    Edge(s, k, p) ==> Descends(s.entries[k].manifest, s.entries[p].manifest)
  }

  ghost predicate Ordered(s: State) { forall k, p :: EdgeOk(s, k, p) }

  // Every entry that names this artifact as a parent already is at least as restricted, and in its domain.
  predicate Adoptable(s: State, m: Manifest) {
    forall k | k in s.entries && s.entries[k].manifest.tenant == m.tenant &&
               m.artifactId in s.entries[k].manifest.derivedFrom :: Descends(s.entries[k].manifest, m)
  }

  /** A publication that adds an entry keeps the order of the catalog if and only if the children it finds
      there, left behind by an earlier artifact of that id, bear it as a parent. */
  lemma PublishKeepsOrderIff(s: State, m: Manifest, bytes: Bytes, supply: Supply)
    requires Ordered(s) && DonorFound(s, m, supply.donor)
    requires KeyOf(m) !in s.entries && KeyOf(m) in Publish(s, m, bytes, supply).0.entries
    ensures Ordered(Publish(s, m, bytes, supply).0) <==> Adoptable(s, m)
  {
    var t, n := Publish(s, m, bytes, supply).0, KeyOf(m);
    PublishAnswers(s, m, bytes, supply);
    PublishLeaves(s, m, bytes, supply);
    if Adoptable(s, m) {
      forall k, p ensures EdgeOk(t, k, p) {
        assert EdgeOk(s, k, p);
        if k == n && Edge(t, k, p) { assert Stands(s, m, p.artifact); }
      }
    }
    if Ordered(t) {
      forall k | k in s.entries && s.entries[k].manifest.tenant == m.tenant &&
                 m.artifactId in s.entries[k].manifest.derivedFrom
        ensures Descends(s.entries[k].manifest, m)
      {
        assert Edge(t, k, n) && EdgeOk(t, k, n);
      }
    }
  }

  // A publication under a free key finds no children that it would turn against.
  predicate Adopting(w: World, l: Label) { l.LPublish? && KeyOf(l.m) !in w.cat.entries ==> Adoptable(w.cat, l.m) }

  lemma OrderedStep(w: World, l: Label)
    requires Ordered(w.cat) && Enabled(w, l) && Adopting(w, l)
    ensures Ordered(Next(w, l).cat)
  {
    var v := Next(w, l);
    if l.LPublish? {
      PublishLeaves(w.cat, l.m, l.bytes, l.supply);
      if KeyOf(l.m) !in w.cat.entries && KeyOf(l.m) in v.cat.entries {
        PublishKeepsOrderIff(w.cat, l.m, l.bytes, l.supply);
      } else {
        forall k, p ensures EdgeOk(v.cat, k, p) { assert EdgeOk(w.cat, k, p); }
      }
    } else {
      OthersOnlyAge(w, l);
      forall k, p ensures EdgeOk(v.cat, k, p) {
        assert EntryOnlyAges(w, v, k) && EntryOnlyAges(w, v, p) && EdgeOk(w.cat, k, p);
      }
    }
  }

  lemma {:induction false} RunsStayOrdered(clock: int, run: seq<Label>)
    requires Legal(clock, run) && Along(clock, run, Adopting)
    ensures Ordered(After(clock, run).cat)
    decreases |run|
  {
    if run != [] {
      RunsStayOrdered(clock, run[..|run| - 1]);
      OrderedStep(After(clock, run[..|run| - 1]), run[|run| - 1]);
    }
  }

  // Each key but the first names the one before it as a parent.
  predicate Chain(s: State, keys: seq<Key>) {
    && keys != [] && keys[0] in s.entries
    && forall i | 0 < i < |keys| :: Edge(s, keys[i], keys[i - 1])
  }

  lemma {:induction false} ChainDescends(s: State, keys: seq<Key>)
    requires Ordered(s) && Chain(s, keys)
    ensures keys[|keys| - 1] in s.entries && Descends(s.entries[keys[|keys| - 1]].manifest, s.entries[keys[0]].manifest)
    decreases |keys|
  {
    var n := |keys| - 1;
    if n > 0 {
      ChainDescends(s, keys[..n]);
      assert Edge(s, keys[n], keys[n - 1]) && EdgeOk(s, keys[n], keys[n - 1]);
    }
  }

  /** In every run without such a publication, however long the chain of derivations, its last artifact is at
      least as restricted as its first and in the same domain. */
  lemma DerivedStaysRestricted(clock: int, run: seq<Label>, keys: seq<Key>)
    requires Legal(clock, run) && Along(clock, run, Adopting) && Chain(After(clock, run).cat, keys)
    ensures var s := After(clock, run).cat;
            && keys[|keys| - 1] in s.entries
            && Descends(s.entries[keys[|keys| - 1]].manifest, s.entries[keys[0]].manifest)
  {
    RunsStayOrdered(clock, run);
    ChainDescends(After(clock, run).cat, keys);
  }

  // ----- A parent that comes back more restricted -----

  // `child` is derived from `parent` and otherwise like it; `again` is `parent` with a higher classification.
  predicate Family(parent: Manifest, child: Manifest, again: Manifest, bytes: Bytes) {
    && parent.derivedFrom == [] && parent.retainUntil <= 0 && VerifyPlaintext(parent, bytes)
    && child.artifactId != parent.artifactId
    && child == parent.(artifactId := child.artifactId, derivedFrom := [parent.artifactId])
    && again == parent.(classification := again.classification)
    && !AtMost(again.classification, parent.classification)
  }

  lemma LeaveChild(r: Reach, parent: Manifest, child: Manifest, again: Manifest, bytes: Bytes, x: Path, y: Path)
    returns (run: seq<Label>, w: World)
    requires Closed(r) && r([], Empty(0)) && Family(parent, child, again, bytes) && x != y
    ensures r(run, w) && Looks(w, map[KeyOf(child) := Fresh(child, StoredAs(parent, bytes, x, 0))], map[], {x, y})
  {
    var blob, p, c := StoredAs(parent, bytes, x, 0), KeyOf(parent), KeyOf(child);
    run, w := Step(r, [], Empty(0), LPublish(parent, bytes, Supply(None, x, 0, |bytes|, true, Succeeds)));
    run, w := Share(r, run, w, map[p := Fresh(parent, blob)], map[], {x}, child, bytes, p, y);
    var both := map[p := Fresh(parent, blob)][c := Fresh(child, blob)];
    run, w := Unreference(r, run, w, both, map[], {x} + {y}, p);
    var dropped := both[p := Fresh(parent, blob).(referenceLive := false)];
    run, w := Mark(r, run, w, dropped, map[], {x} + {y}, 1, p);
    var marked, one := AfterMark(dropped[p]), Collector(p, blob, 1, Marked);
    run, w := Retire(r, run, w, dropped[p := marked], map[1 := one], {x} + {y}, 1, c);
    assert dropped[p := marked] - {p} == map[c := Fresh(child, blob)] && map[1 := one] - {1} == map[];
  }

  /** The condition cannot be dropped: any artifact can be collected while a derived one stays, and published again
      with a higher classification, which leaves the derived one below its parent. */
  lemma ParentMayOutgrowChild(parent: Manifest, child: Manifest, again: Manifest, bytes: Bytes, x: Path, y: Path,
                              z: Path)
    returns (run: seq<Label>)
    requires Family(parent, child, again, bytes) && x != y && z !in {x, y}
    ensures Legal(0, run) && Along(0, run, Untampered) && !EdgeOk(After(0, run).cat, KeyOf(child), KeyOf(parent))
  {
    HonestIsClosed();
    var w;
    run, w := LeaveChild(Honest(), parent, child, again, bytes, x, y);
    run, w := Step(Honest(), run, w, LPublish(again, bytes, Supply(None, z, 0, |bytes|, true, Succeeds)));
    assert Edge(w.cat, KeyOf(child), KeyOf(parent));
  }
}
