/** When live entries keep their object files. */
module CatalogSafety {
  import opened IdealCrypto
  import opened Catalog
  import opened CatalogRuns

  // The invariant, one key, one collector or one pair at a time.

  ghost predicate KeyOk(w: World, k: Key) {
    k in w.cat.entries ==>
      && w.cat.entries[k].blob.path in w.past.paths
      && (Live(w.cat, k) ==> w.cat.entries[k].blob.path in w.cat.files)
  }

  ghost predicate MarkOk(w: World, id: nat) {
    id in w.work.collectors ==>
      var c := w.work.collectors[id];
      && c.key in w.cat.entries && w.cat.entries[c.key].tombstoned
      && w.cat.entries[c.key].blob == c.blob && w.cat.entries[c.key].fence == c.fence
  }

  ghost predicate Apart(w: World, a: nat, b: nat) {
    a in w.work.collectors && b in w.work.collectors && a != b ==> w.work.collectors[a].key != w.work.collectors[b].key
  }

  // A collector that found no sharer is not about to unlink a file that entry `k` needs.
  ghost predicate Spares(w: World, id: nat, k: Key) {
    id in w.work.collectors && w.work.collectors[id].phase == Checked(false) && Live(w.cat, k) ==>
      w.cat.entries[k].blob.path != w.work.collectors[id].blob.path
  }

  ghost predicate PathDrawn(w: World, id: nat) {
    id in w.work.collectors ==> w.work.collectors[id].blob.path in w.past.paths
  }

  // What keeps files in place, with any number of collectors on a key.
  ghost predicate Guarded(w: World) {
    && (forall k :: KeyOk(w, k))
    && w.cat.files.Keys <= w.past.paths
    && (forall id :: PathDrawn(w, id))
    && (forall id, k :: Spares(w, id, k))
  }

  // With one collector on a key, its mark on the entry stays as it left it.
  ghost predicate Safe(w: World) {
    && Guarded(w)
    && (forall id :: MarkOk(w, id))
    && (forall a, b :: Apart(w, a, b))
  }

  // The share check leaves out the collector's own key; if that key needs the path, then so does another.
  predicate CheckIsSound(w: World, l: Label) {
    && !l.LTamper?
    && (l.LCheck? && l.id in w.work.collectors ==>
          var c := w.work.collectors[l.id];
          Live(w.cat, c.key) && Names(w.cat, c.key, c.blob.path) ==> GcShared(w.cat, c.key, c.blob.path))
  }

  // ----- The invariant of the files -----

  lemma GuardedQuiet(w: World, v: World)
    requires Guarded(w) && Quiet(w, v)
    ensures Guarded(v)
  {
    forall k ensures KeyOk(v, k) { assert KeyOk(w, k); }
    forall id ensures PathDrawn(v, id) { assert PathDrawn(w, id); }
    forall id, k ensures Spares(v, id, k) { assert Spares(w, id, k); }
  }

  lemma GuardedPublish(w: World, m: Manifest, bytes: Bytes, supply: Supply)
    requires Guarded(w) && DonorFound(w.cat, m, supply.donor) && supply.path !in w.past.paths
    ensures Guarded(DoPublish(w, m, bytes, supply))
  {
    var v := DoPublish(w, m, bytes, supply);
    var donor := if supply.donor.Some? then supply.donor.value else KeyOf(m);
    assert KeyOk(w, donor);
    forall k ensures KeyOk(v, k) { assert KeyOk(w, k); }
    forall id ensures PathDrawn(v, id) { assert PathDrawn(w, id); }
    forall id, k ensures Spares(v, id, k) {
      assert Spares(w, id, k) && Spares(w, id, donor) && PathDrawn(w, id);
    }
  }

  lemma GuardedCollect(w: World, l: Label)
    requires Guarded(w) && Enabled(w, l) && CheckIsSound(w, l) && (l.LMark? || l.LCheck? || l.LUnlink? || l.LRemove?)
    ensures Guarded(Next(w, l))
  {
    var v := Next(w, l);
    forall k ensures KeyOk(v, k) {
      assert KeyOk(w, k);
      if l.LUnlink? { assert Spares(w, l.id, k); }
    }
    forall i ensures PathDrawn(v, i) {
      assert PathDrawn(w, i);
      if l.LMark? { assert KeyOk(w, l.key); }
    }
    forall i, k ensures Spares(v, i, k) {
      assert Spares(w, i, k);
      if l.LCheck? && i == l.id && Live(w.cat, k) { assert Names(w.cat, k, w.cat.entries[k].blob.path); }
    }
  }

  lemma GuardedStep(w: World, l: Label)
    requires Guarded(w) && Enabled(w, l) && CheckIsSound(w, l)
    ensures Guarded(Next(w, l))
  {
    if l.LPublish? { GuardedPublish(w, l.m, l.bytes, l.supply); }
    else if l.LMark? || l.LCheck? || l.LUnlink? || l.LRemove? { GuardedCollect(w, l); }
    else { OthersAreQuiet(w, l); GuardedQuiet(w, Next(w, l)); }
  }

  lemma {:induction false} RunsStayGuarded(clock: int, run: seq<Label>)
    requires Legal(clock, run) && Along(clock, run, CheckIsSound)
    ensures Guarded(After(clock, run))
    decreases |run|
  {
    if run != [] {
      RunsStayGuarded(clock, run[..|run| - 1]);
      GuardedStep(After(clock, run[..|run| - 1]), run[|run| - 1]);
    }
  }

  predicate FilesPresent(s: State) {
    forall k | k in s.entries && !s.entries[k].tombstoned :: s.entries[k].blob.path in s.files
  }

  /** In every interleaving, with any number of collectors on a key and whatever file steps fail, live
      entries keep their files if no share check is made while the collector's own key is live again with
      the path that it collects and is alone with it. */
  lemma SoundChecksKeepFiles(clock: int, run: seq<Label>)
    requires Legal(clock, run) && Along(clock, run, CheckIsSound)
    ensures FilesPresent(After(clock, run).cat)
  {
    RunsStayGuarded(clock, run);
    var w := After(clock, run);
    forall k | Live(w.cat, k) ensures w.cat.entries[k].blob.path in w.cat.files { assert KeyOk(w, k); }
  }

  // The steps from position `n` on are sound.
  ghost predicate SoundSince(clock: int, run: seq<Label>, n: nat)
    requires Legal(clock, run)
    decreases |run|
  {
    |run| <= n ||
    (SoundSince(clock, run[..|run| - 1], n) && CheckIsSound(After(clock, run[..|run| - 1]), run[|run| - 1]))
  }

  lemma {:induction false} SoundThroughout(clock: int, run: seq<Label>, n: nat)
    requires Legal(clock, run) && n <= |run| && SoundSince(clock, run, n)
    requires Legal(clock, run[..n]) && Along(clock, run[..n], CheckIsSound)
    ensures Along(clock, run, CheckIsSound)
    decreases |run|
  {
    if n == |run| {
      assert run[..n] == run;
    } else {
      assert run[..|run| - 1][..n] == run[..n];
      SoundThroughout(clock, run[..|run| - 1], n);
    }
  }

  // The run goes on from `run`, soundly, to `longer`.
  ghost predicate Continues(clock: int, run: seq<Label>, longer: seq<Label>) {
    run <= longer && Legal(clock, longer) && SoundSince(clock, longer, |run|)
  }

  lemma Extend(clock: int, run: seq<Label>, l: Label) returns (longer: seq<Label>)
    requires Legal(clock, run) && Enabled(After(clock, run), l)
    ensures longer == run + [l] && Legal(clock, longer) && After(clock, longer) == Next(After(clock, run), l)
    ensures Along(clock, run, CheckIsSound) && CheckIsSound(After(clock, run), l) ==> Along(clock, longer, CheckIsSound)
    ensures CheckIsSound(After(clock, run), l) ==> SoundSince(clock, longer, |run|)
  {
    longer := run + [l];
    assert longer[..|longer| - 1] == run;
  }

  // A check that is not sound, and the unlink right after it.
  lemma UnsoundCheckLoses(w: World, id: nat)
    requires Enabled(w, LCheck(id)) && !CheckIsSound(w, LCheck(id))
    ensures var v := DoCheck(w, id);
            Enabled(v, LUnlink(id, Succeeds)) && !FilesPresent(DoUnlink(v, id, Succeeds).cat)
  {
    var c, u := w.work.collectors[id], DoUnlink(DoCheck(w, id), id, Succeeds).cat;
    assert u.entries[c.key].blob.path !in u.files;
  }

  /** Exactly which share checks are safe: after any run of sound checks, every sound continuation of a
      further check keeps the files of all live entries if and only if that check is sound itself. */
  lemma CheckIsSafeIff(clock: int, run: seq<Label>, id: nat)
    requires Legal(clock, run) && Along(clock, run, CheckIsSound) && Enabled(After(clock, run), LCheck(id))
    ensures (forall longer | Continues(clock, run + [LCheck(id)], longer) ::
             FilesPresent(After(clock, longer).cat)) <==>
            CheckIsSound(After(clock, run), LCheck(id))
  {
    var checked := Extend(clock, run, LCheck(id));
    if CheckIsSound(After(clock, run), LCheck(id)) {
      forall longer | Continues(clock, checked, longer) ensures FilesPresent(After(clock, longer).cat) {
        assert longer[..|checked|] == checked;
        SoundThroughout(clock, longer, |checked|);
        SoundChecksKeepFiles(clock, longer);
      }
    } else {
      UnsoundCheckLoses(After(clock, run), id);
      var longer := Extend(clock, checked, LUnlink(id, Succeeds));
      assert Continues(clock, checked, longer);
    }
  }

  // ----- One collector on a key -----

  lemma MarksKept(w: World, l: Label)
    requires Safe(w) && Enabled(w, l) && OneCollectorPerKey(w, l) &&
             (l.LPublish? || l.LMark? || l.LCheck? || l.LUnlink?)
    ensures forall id :: MarkOk(Next(w, l), id)
    ensures forall a, b :: Apart(Next(w, l), a, b)
  {
    var v := Next(w, l);
    forall i ensures MarkOk(v, i) { assert MarkOk(w, i); }
    forall a, b ensures Apart(v, a, b) { assert Apart(w, a, b); }
  }

  lemma OtherMarksKept(w: World, l: Label)
    requires Safe(w) && Enabled(w, l) && (l.LRemove? || Quiet(w, Next(w, l)))
    ensures forall id :: MarkOk(Next(w, l), id)
    ensures forall a, b :: Apart(Next(w, l), a, b)
  {
    var v := Next(w, l);
    forall i ensures MarkOk(v, i) {
      assert MarkOk(w, i);
      if l.LRemove? { assert Apart(w, i, l.id); }
    }
    forall a, b ensures Apart(v, a, b) { assert Apart(w, a, b); }
  }

  lemma SafeStep(w: World, l: Label)
    requires Safe(w) && Enabled(w, l) && OneCollectorPerKey(w, l)
    ensures Safe(Next(w, l))
  {
    if l.LCheck? { assert MarkOk(w, l.id); }
    GuardedStep(w, l);
    if l.LPublish? || l.LMark? || l.LCheck? || l.LUnlink? {
      MarksKept(w, l);
    } else {
      if !l.LRemove? { OthersAreQuiet(w, l); }
      OtherMarksKept(w, l);
    }
  }

  lemma {:induction false} RunsStaySafe(clock: int, run: seq<Label>)
    requires Legal(clock, run) && Along(clock, run, OneCollectorPerKey)
    ensures Safe(After(clock, run))
    decreases |run|
  {
    if run != [] {
      RunsStaySafe(clock, run[..|run| - 1]);
      SafeStep(After(clock, run[..|run| - 1]), run[|run| - 1]);
    }
  }

  /** In every interleaving with at most one collector per key, whatever file steps fail, each entry
      that is not tombstoned has its file, and no unlink about to happen is of a file such an entry names. */
  lemma LiveFilesPresent(clock: int, run: seq<Label>)
    requires Legal(clock, run) && Along(clock, run, OneCollectorPerKey)
    ensures var w := After(clock, run);
            && (forall k | Live(w.cat, k) :: w.cat.entries[k].blob.path in w.cat.files)
            && (forall id, k | id in w.work.collectors && w.work.collectors[id].phase == Checked(false) &&
                Live(w.cat, k) ::
                  !Names(w.cat, k, w.work.collectors[id].blob.path))
  {
    RunsStaySafe(clock, run);
    var w := After(clock, run);
    forall k | Live(w.cat, k) ensures w.cat.entries[k].blob.path in w.cat.files { assert KeyOk(w, k); }
    forall id, k | id in w.work.collectors && w.work.collectors[id].phase == Checked(false) && Live(w.cat, k)
      ensures !Names(w.cat, k, w.work.collectors[id].blob.path)
    {
      assert Spares(w, id, k);
    }
  }
}
