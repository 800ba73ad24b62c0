/** With file steps succeeding, the object files are exactly the paths that entries name. */
module CatalogExact {
  import opened IdealCrypto
  import opened Catalog
  import opened CatalogRuns
  import opened CatalogSafety

  // Collector `id` has yet to decide about unlinking, or has decided to unlink, the object of `k`.
  ghost predicate Undecided(w: World, id: nat, k: Key) {
    id in w.work.collectors && w.work.collectors[id].key == k && w.work.collectors[id].phase in {Marked, Checked(false)}
  }

  // `k` keeps the file at `p` for good reason: it is live, or its collector will see to the file.
  ghost predicate Answers(w: World, k: Key, p: Path) {
    Names(w.cat, k, p) && (Live(w.cat, k) || exists id :: Undecided(w, id, k))
  }

  ghost predicate Answered(w: World, p: Path) {
    p in w.cat.files ==> exists k :: Answers(w, k, p)
  }

  ghost predicate Collects(w: World, id: nat, k: Key) { id in w.work.collectors && w.work.collectors[id].key == k }

  ghost predicate Attended(w: World, k: Key) {
    k in w.cat.entries ==>
      if w.cat.entries[k].tombstoned then exists id :: Collects(w, id, k) else w.cat.entries[k].fence == 0
  }

  ghost predicate Exact(w: World) {
    && Safe(w)
    && (forall p :: Answered(w, p))
    && (forall k :: Attended(w, k))
  }

  lemma AnswersKept(w: World, v: World, k: Key, p: Path)
    requires Answers(w, k, p) && k in v.cat.entries && SameSlot(v.cat.entries[k], w.cat.entries[k])
    requires forall id | Undecided(w, id, k) :: Undecided(v, id, k)
    ensures Answers(v, k, p)
  {
    if !Live(w.cat, k) {
      var id :| Undecided(w, id, k);
      assert Undecided(v, id, k);
    }
  }

  lemma AttendedKept(w: World, v: World, k: Key)
    requires Attended(w, k) && k in w.cat.entries && k in v.cat.entries && SameSlot(v.cat.entries[k], w.cat.entries[k])
    requires forall id | Collects(w, id, k) :: Collects(v, id, k)
    ensures Attended(v, k)
  {
    if w.cat.entries[k].tombstoned {
      var id :| Collects(w, id, k);
      assert Collects(v, id, k);
    }
  }

  lemma ExactQuiet(w: World, v: World)
    requires Exact(w) && Quiet(w, v) && Safe(v)
    ensures Exact(v)
  {
    forall p ensures Answered(v, p) {
      assert Answered(w, p);
      if p in v.cat.files { var k :| Answers(w, k, p); AnswersKept(w, v, k, p); }
    }
    forall k ensures Attended(v, k) {
      assert Attended(w, k);
      if k in v.cat.entries { AttendedKept(w, v, k); }
    }
  }

  lemma ExactPublish(w: World, m: Manifest, bytes: Bytes, supply: Supply)
    requires Exact(w) && DonorFound(w.cat, m, supply.donor) && supply.path !in w.past.paths && supply.io.Succeeds?
    requires Safe(DoPublish(w, m, bytes, supply))
    ensures Exact(DoPublish(w, m, bytes, supply))
  {
    var v := DoPublish(w, m, bytes, supply);
    assert forall k | k in w.cat.entries :: k in v.cat.entries && v.cat.entries[k] == w.cat.entries[k];
    forall p ensures Answered(v, p) {
      assert Answered(w, p);
      if p in v.cat.files {
        if p in w.cat.files { var k :| Answers(w, k, p); AnswersKept(w, v, k, p); }
        else { assert Answers(v, KeyOf(m), p); }
      }
    }
    forall k ensures Attended(v, k) {
      assert Attended(w, k);
      if k in w.cat.entries { AttendedKept(w, v, k); }
    }
  }

  lemma ExactMark(w: World, id: nat, key: Key, now: int, batch: int)
    requires Exact(w) && id !in w.work.collectors
    requires forall i | i in w.work.collectors :: w.work.collectors[i].key != key
    requires Safe(DoMark(w, id, key, now, batch))
    ensures Exact(DoMark(w, id, key, now, batch))
  {
    var v := DoMark(w, id, key, now, batch);
    assert Attended(w, key);
    if key in w.cat.entries {
      assert forall i :: !Collects(w, i, key);
      MarkOutcome(w, v, id, key, now, batch);
    } else {
      ExactQuiet(w, v);
    }
  }

  lemma MarkOutcome(w: World, v: World, id: nat, key: Key, now: int, batch: int)
    requires Exact(w) && id !in w.work.collectors && Live(w.cat, key) && w.cat.entries[key].fence == 0
    requires forall i | i in w.work.collectors :: w.work.collectors[i].key != key
    requires v == DoMark(w, id, key, now, batch) && Safe(v)
    ensures Exact(v)
  {
    if v.cat.entries[key].tombstoned {
      assert Collects(v, id, key) && Undecided(v, id, key);
      assert forall i, k | Undecided(w, i, k) :: Undecided(v, i, k);
      forall p ensures Answered(v, p) {
        assert Answered(w, p);
        if p in v.cat.files {
          var k :| Answers(w, k, p);
          if k == key { assert Answers(v, k, p); } else { AnswersKept(w, v, k, p); }
        }
      }
      forall k ensures Attended(v, k) {
        assert Attended(w, k);
        if k in w.cat.entries && k != key { AttendedKept(w, v, k); }
      }
    } else {
      ExactQuiet(w, v);
    }
  }

  lemma ExactCheck(w: World, id: nat)
    requires Exact(w) && id in w.work.collectors && Safe(DoCheck(w, id))
    ensures Exact(DoCheck(w, id))
  {
    var v := DoCheck(w, id);
    var c := w.work.collectors[id];
    assert MarkOk(w, id);
    forall p ensures Answered(v, p) {
      assert Answered(w, p);
      if p in v.cat.files {
        var k :| Answers(w, k, p);
        if k == c.key && GcShared(w.cat, k, p) {
          var other :| other in w.cat.entries && other != k && Live(w.cat, other) && Names(w.cat, other, p);
          assert Answers(v, other, p);
        } else {
          AnswersKept(w, v, k, p);
        }
      }
    }
    forall k ensures Attended(v, k) {
      assert Attended(w, k);
      if k in w.cat.entries { AttendedKept(w, v, k); }
    }
  }

  lemma ExactUnlink(w: World, id: nat)
    requires Exact(w) && id in w.work.collectors && w.work.collectors[id].phase.Checked?
    requires Safe(DoUnlink(w, id, Succeeds))
    ensures Exact(DoUnlink(w, id, Succeeds))
  {
    var v := DoUnlink(w, id, Succeeds);
    var c := w.work.collectors[id];
    assert MarkOk(w, id);
    forall p ensures Answered(v, p) {
      assert Answered(w, p);
      if p in v.cat.files {
        var k :| Answers(w, k, p);
        forall i | Undecided(w, i, k) ensures Undecided(v, i, k) { assert Apart(w, i, id); }
        AnswersKept(w, v, k, p);
      }
    }
    forall k ensures Attended(v, k) {
      assert Attended(w, k);
      if k in w.cat.entries { AttendedKept(w, v, k); }
    }
  }

  lemma ExactRemove(w: World, id: nat)
    requires Exact(w) && id in w.work.collectors && w.work.collectors[id].phase.Unlinked?
    requires Safe(DoRemove(w, id))
    ensures Exact(DoRemove(w, id))
  {
    var v := DoRemove(w, id);
    var c := w.work.collectors[id];
    assert MarkOk(w, id);
    forall p ensures Answered(v, p) {
      assert Answered(w, p);
      if p in v.cat.files {
        var k :| Answers(w, k, p);
        forall i | Undecided(w, i, k) ensures i != id && k != c.key { assert Apart(w, i, id); }
        AnswersKept(w, v, k, p);
      }
    }
    forall k ensures Attended(v, k) {
      assert Attended(w, k);
      if k in v.cat.entries { AttendedKept(w, v, k); }
    }
  }

  lemma ExactStep(w: World, l: Label)
    requires Exact(w) && Enabled(w, l) && Smooth(w, l)
    ensures Exact(Next(w, l))
  {
    SafeStep(w, l);
    if l.LPublish? { ExactPublish(w, l.m, l.bytes, l.supply); }
    else if l.LMark? { ExactMark(w, l.id, l.key, l.now, l.batch); }
    else if l.LCheck? { ExactCheck(w, l.id); }
    else if l.LUnlink? { ExactUnlink(w, l.id); }
    else if l.LRemove? { ExactRemove(w, l.id); }
    else { OthersAreQuiet(w, l); ExactQuiet(w, Next(w, l)); }
  }

  lemma {:induction false} RunsStayExact(clock: int, run: seq<Label>)
    requires Legal(clock, run) && Along(clock, run, Smooth)
    ensures Exact(After(clock, run))
    decreases |run|
  {
    if run != [] {
      RunsStayExact(clock, run[..|run| - 1]);
      ExactStep(After(clock, run[..|run| - 1]), run[|run| - 1]);
    }
  }

  /** Whenever no collector is at work the files are exactly the paths that entries name, and as many
      as the catalog counts: the last sharer to be tombstoned unlinks, nothing leaks, nothing goes early. */
  lemma FilesAreExactlyNamed(clock: int, run: seq<Label>)
    requires Legal(clock, run) && Along(clock, run, Smooth)
    requires After(clock, run).work.collectors == map[]
    ensures var s := After(clock, run).cat; s.files.Keys == NamedPaths(s) && |s.files| == PhysicalObjectCount(s)
  {
    RunsStayExact(clock, run);
    var w := After(clock, run);
    forall p ensures p in w.cat.files <==> p in NamedPaths(w.cat) {
      assert Answered(w, p);
      if p in w.cat.files { var k :| Answers(w, k, p); }
      if p in NamedPaths(w.cat) {
        var k :| k in w.cat.entries && w.cat.entries[k].blob.path == p;
        assert Attended(w, k) && KeyOk(w, k);
      }
    }
    assert w.cat.files.Keys == NamedPaths(w.cat);
  }
}
