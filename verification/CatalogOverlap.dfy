/**
 Two collectors on one key: the share check leaves out the collector's own key, so a key that was
 removed and published again in between is overlooked, and its file is unlinked.
 */
module CatalogOverlap {
  import opened Options
  import opened IdealCrypto
  import opened Catalog
  import opened CatalogRuns

  /** Exactly when the share check is wrong: it finds no sharer although a live entry names the path if
      and only if the collector's own key is live again and is the only live entry with that path. */
  lemma ShareCheckMissesOwnKeyOnly(s: State, k: Key, p: Path)
    ensures !GcShared(s, k, p) && (exists j :: Live(s, j) && Names(s, j, p))
       <==> Live(s, k) && Names(s, k, p) && forall j | j != k :: !(Live(s, j) && Names(s, j, p))
  {
    if !GcShared(s, k, p) {
      forall j | j != k ensures !(Live(s, j) && Names(s, j, p)) {}
    }
  }

  // Which run leads to which world; the lemmas below only use that steps extend runs.
  type Reach = (seq<Label>, World) -> bool

  ghost predicate Closed(r: Reach) {
    forall run, w, l :: r(run, w) && Enabled(w, l) && !l.LTamper? ==> r(run + [l], Next(w, l))
  }

  ghost predicate LeadsTo(run: seq<Label>,
                          w: World) { Legal(0, run) && Along(0, run, Untampered) && After(0, run) == w }

  ghost function Honest(): Reach { (run, w) => LeadsTo(run, w) }

  lemma HonestIsClosed()
    ensures Closed(Honest()) && Honest()([], Empty(0))
  {
    assert LeadsTo([], Empty(0));
    forall run, w, l | LeadsTo(run, w) && Enabled(w, l) && !l.LTamper? ensures LeadsTo(run + [l], Next(w, l)) {
      assert (run + [l])[..|run + [l]| - 1] == run;
    }
  }

  ghost predicate Free(e: Entry) {
    e.holds == {} && !e.referenceLive && e.manifest.retainUntil <= 0 && e.leases == map[] && e.fence < U64_MAX
  }

  // The world has exactly these entries, collectors and paths.
  ghost predicate Looks(w: World, entries: map<Key, Entry>, collectors: map<nat, Collector>, paths: set<Path>) {
    w.cat.entries == entries && w.work.collectors == collectors && w.past.paths == paths
  }

  function AfterMark(e: Entry): Entry { e.(tombstoned := true, fence := e.fence + 1) }

  lemma Step(r: Reach, run: seq<Label>, w: World, l: Label) returns (more: seq<Label>, v: World)
    requires Closed(r) && r(run, w) && Enabled(w, l) && !l.LTamper?
    ensures r(more, v) && v == Next(w, l)
  {
    more, v := run + [l], Next(w, l);
  }

  // A collector marks a collectable entry, tombstoned or not.
  lemma Mark(r: Reach, run: seq<Label>, w: World, entries: map<Key, Entry>, collectors: map<nat, Collector>,
             paths: set<Path>,
             id: nat, k: Key)
    returns (more: seq<Label>, v: World)
    requires Closed(r) && r(run, w) && Looks(w, entries, collectors, paths) && id !in collectors && k in entries &&
             Free(entries[k])
    ensures r(more, v)
    ensures Looks(v, entries[k := AfterMark(entries[k])],
                  collectors[id := Collector(k, entries[k].blob, entries[k].fence + 1, Marked)], paths)
  {
    more, v := Step(r, run, w, LMark(id, k, 0, 1));
    assert Unexpired(map[], 0) == map[];
  }

  // A collector that finds a sharer leaves the file and removes its entry.
  lemma Retire(r: Reach, run: seq<Label>, w: World, entries: map<Key, Entry>, collectors: map<nat, Collector>,
               paths: set<Path>,
               id: nat, sharer: Key)
    returns (more: seq<Label>, v: World)
    requires Closed(r) && r(run, w) && Looks(w, entries, collectors, paths) && id in collectors &&
             collectors[id].phase == Marked
    requires var c := collectors[id];
             && c.key in entries && entries[c.key].tombstoned && entries[c.key].fence == c.fence
             && sharer != c.key && sharer in entries && !entries[sharer].tombstoned
             && entries[sharer].blob.path == c.blob.path
    ensures r(more, v) && Looks(v, entries - {collectors[id].key}, collectors - {id}, paths)
  {
    assert Live(w.cat, sharer) && Names(w.cat, sharer, collectors[id].blob.path);
    more, v := Step(r, run, w, LCheck(id));
    assert v.work.collectors[id].phase == Checked(true);
    more, v := Step(r, more, v, LUnlink(id, Succeeds));
    more, v := Step(r, more, v, LRemove(id));
  }

  // A collector whose own key is the only live one with the path unlinks the file.
  lemma Mislead(r: Reach, run: seq<Label>, w: World, k: Key, e: Entry, c: Collector, paths: set<Path>, id: nat)
    returns (more: seq<Label>, v: World)
    requires Closed(r) && r(run, w) && Looks(w, map[k := e], map[id := c], paths)
    requires c.phase == Marked && c.key == k && !e.tombstoned && e.blob.path == c.blob.path
    ensures r(more, v) && v.cat.entries == map[k := e] && e.blob.path !in v.cat.files
  {
    more, v := Step(r, run, w, LCheck(id));
    assert v.work.collectors[id].phase == Checked(false);
    more, v := Step(r, more, v, LUnlink(id, Succeeds));
  }

  // Publishing bytes that a live entry already stores adds an entry that shares the object.
  lemma Share(r: Reach, run: seq<Label>, w: World, entries: map<Key, Entry>, collectors: map<nat, Collector>,
              paths: set<Path>,
              m: Manifest, bytes: Bytes, donor: Key, path: Path)
    returns (more: seq<Label>, v: World)
    requires Closed(r) && r(run, w) && Looks(w, entries, collectors, paths) && VerifyPlaintext(m, bytes) &&
             ParentsAdmit(w.cat, m)
    requires donor in entries && Shareable(entries[donor], m) && KeyOf(m) !in entries && path !in paths
    ensures r(more, v) && Looks(v, entries[KeyOf(m) := Fresh(m, entries[donor].blob)], collectors, paths + {path})
  {
    more, v := Step(r, run, w, LPublish(m, bytes, Supply(Some(donor), path, 0, 0, true, Succeeds)));
  }

  lemma Unreference(r: Reach, run: seq<Label>, w: World, entries: map<Key, Entry>, collectors: map<nat, Collector>,
                    paths: set<Path>, k: Key)
    returns (more: seq<Label>, v: World)
    requires Closed(r) && r(run, w) && Looks(w, entries, collectors, paths) && k in entries
    ensures r(more, v) && Looks(v, entries[k := entries[k].(referenceLive := false)], collectors, paths)
  {
    more, v := Step(r, run, w, LReleaseReference(k, entries[k].manifest.task));
  }

  // ----- The run, for any two artifacts of one producer that have the same bytes -----

  predicate Twins(a: Manifest, b: Manifest, bytes: Bytes) {
    && b == a.(artifactId := b.artifactId) && b.artifactId != a.artifactId
    && a.derivedFrom == [] && a.retainUntil <= 0 && VerifyPlaintext(a, bytes)
  }

  function Dropped(m: Manifest, blob: StoredObject): Entry { Fresh(m, blob).(referenceLive := false) }

  lemma UnreferenceBoth(r: Reach, run: seq<Label>, w: World, p: Key, d: Entry, q: Key, e: Entry, paths: set<Path>)
    returns (more: seq<Label>, v: World)
    requires Closed(r) && r(run, w) && p != q && Looks(w, map[p := d, q := e], map[], paths)
    ensures r(more, v) && Looks(v, map[p := d.(referenceLive := false), q := e.(referenceLive := false)], map[], paths)
  {
    var both := map[p := d, q := e];
    var one := both[p := d.(referenceLive := false)];
    more, v := Unreference(r, run, w, both, map[], paths, p);
    more, v := Unreference(r, more, v, one, map[], paths, q);
    assert one[q := e.(referenceLive := false)] ==
             map[p := d.(referenceLive := false), q := e.(referenceLive := false)];
  }

  lemma PublishBoth(r: Reach, a: Manifest, b: Manifest, bytes: Bytes, x: Path,
                    y: Path) returns (run: seq<Label>, w: World)
    requires Closed(r) && r([], Empty(0)) && Twins(a, b, bytes) && x != y
    ensures r(run, w)
    ensures var blob := StoredAs(a, bytes, x, 0);
            Looks(w, map[KeyOf(a) := Dropped(a, blob), KeyOf(b) := Dropped(b, blob)], map[], {x, y})
  {
    var blob := StoredAs(a, bytes, x, 0);
    run, w := Step(r, [], Empty(0), LPublish(a, bytes, Supply(None, x, 0, |bytes|, true, Succeeds)));
    run, w := Share(r, run, w, map[KeyOf(a) := Fresh(a, blob)], map[], {x}, b, bytes, KeyOf(a), y);
    assert {x} + {y} == {x, y};
    run, w := UnreferenceBoth(r, run, w, KeyOf(a), Fresh(a, blob), KeyOf(b), Fresh(b, blob), {x, y});
  }

  // Collectors 1 and 2 mark `p` one after the other; collector 2 finds `q` sharing the object and removes `p`.
  lemma MarkTwice(r: Reach, run: seq<Label>, w: World, p: Key, d: Entry, q: Key, e: Entry, paths: set<Path>)
    returns (more: seq<Label>, v: World)
    requires Closed(r) && r(run, w) && p != q && Looks(w, map[p := d, q := e], map[], paths)
    requires Free(d) && d.fence == 0 && !e.tombstoned && e.blob == d.blob
    ensures r(more, v) && Looks(v, map[q := e], map[1 := Collector(p, d.blob, 1, Marked)], paths)
  {
    var both := map[p := d, q := e];
    var once, twice := both[p := AfterMark(d)], both[p := AfterMark(d)][p := AfterMark(AfterMark(d))];
    var first := map[1 := Collector(p, d.blob, 1, Marked)];
    more, v := Mark(r, run, w, both, map[], paths, 1, p);
    more, v := Mark(r, more, v, once, first, paths, 2, p);
    more, v := Retire(r, more, v, twice, first[2 := Collector(p, d.blob, 2, Marked)], paths, 2, q);
    assert twice - {p} == map[q := e] && first[2 := Collector(p, d.blob, 2, Marked)] - {2} == first;
  }

  // The key of `m` is published again and shares the object of `q`; then collector 3 retires `q`.
  lemma Replace(r: Reach, run: seq<Label>, w: World, m: Manifest, bytes: Bytes, q: Key, e: Entry, c: Collector,
                paths: set<Path>, z: Path)
    returns (more: seq<Label>, v: World)
    requires Closed(r) && r(run, w) && KeyOf(m) != q && Looks(w, map[q := e], map[1 := c], paths) && z !in paths
    requires VerifyPlaintext(m, bytes) && m.derivedFrom == [] && Shareable(e, m) && Free(e)
    ensures r(more, v) && Looks(v, map[KeyOf(m) := Fresh(m, e.blob)], map[1 := c], paths + {z})
  {
    var shared := map[q := e][KeyOf(m) := Fresh(m, e.blob)];
    var third := map[1 := c][3 := Collector(q, e.blob, e.fence + 1, Marked)];
    more, v := Share(r, run, w, map[q := e], map[1 := c], paths, m, bytes, q, z);
    more, v := Mark(r, more, v, shared, map[1 := c], paths + {z}, 3, q);
    more, v := Retire(r, more, v, shared[q := AfterMark(e)], third, paths + {z}, 3, KeyOf(m));
    assert shared[q := AfterMark(e)] - {q} == map[KeyOf(m) := Fresh(m, e.blob)] && third - {3} == map[1 := c];
  }

  // Collector 1 marks `a` and stalls while the others work; then it unlinks.
  lemma Overlap(r: Reach, a: Manifest, b: Manifest, bytes: Bytes, x: Path, y: Path,
                z: Path) returns (run: seq<Label>, w: World)
    requires Closed(r) && r([], Empty(0)) && Twins(a, b, bytes) && x != y && z !in {x, y}
    ensures r(run, w) && Live(w.cat, KeyOf(a)) && w.cat.entries[KeyOf(a)].blob.path !in w.cat.files
  {
    var blob, stalled := StoredAs(a, bytes, x, 0), Collector(KeyOf(a), StoredAs(a, bytes, x, 0), 1, Marked);
    run, w := PublishBoth(r, a, b, bytes, x, y);
    run, w := MarkTwice(r, run, w, KeyOf(a), Dropped(a, blob), KeyOf(b), Dropped(b, blob), {x, y});
    run, w := Replace(r, run, w, a, bytes, KeyOf(b), Dropped(b, blob), stalled, {x, y}, z);
    run, w := Mislead(r, run, w, KeyOf(a), Fresh(a, blob), stalled, {x, y} + {z}, 1);
  }

  /** The hypothesis of `LiveFilesPresent` cannot be dropped: with two collectors on one key, any two such
      artifacts have a run after which a live entry is without its file. */
  lemma SecondCollectorLosesALiveFile(a: Manifest, b: Manifest, bytes: Bytes, x: Path, y: Path, z: Path)
    returns (run: seq<Label>)
    requires Twins(a, b, bytes) && x != y && z !in {x, y}
    ensures Legal(0, run) && Along(0, run, Untampered)
    ensures var w := After(0, run); Live(w.cat, KeyOf(a)) && w.cat.entries[KeyOf(a)].blob.path !in w.cat.files
  {
    HonestIsClosed();
    var w;
    run, w := Overlap(Honest(), a, b, bytes, x, y, z);
  }
}
