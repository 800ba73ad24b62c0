/** Whatever crashes and whatever file calls fail, every content row and every active lease can be read. */
module RotationSafety {
  import opened Options
  import opened Rotation

  ghost predicate Drawn(w: World, n: Name) {
    n in w.disk.objects || n in w.disk.stage || n in w.past.published ==> n in w.past.names
  }

  ghost predicate NamesDrawn(w: World) { forall n :: Drawn(w, n) }

  ghost predicate RowOk(w: World, o: ObjectId) {
    o in w.db.rows ==>
      && o in w.past.origin && ReadRow(w.disk.objects, w.db.rows[o]) == Some(w.past.origin[o])
      && w.db.rows[o].copy.name in w.past.published && w.past.published[w.db.rows[o].copy.name] == o
  }

  ghost predicate LeaseOk(w: World, id: LeaseId) {
    id in w.db.leases ==>
      var e := w.db.leases[id];
      && e.target in w.db.rows && e.target in w.past.origin
      && e.row.copy.name in w.past.published && w.past.published[e.row.copy.name] == e.target
      && (Active(w, id) ==> ReadRow(w.disk.objects, e.row) == Some(w.past.origin[e.target]))
  }

  // A registered copy that no row carries yet is nobody's object so far.
  ghost predicate JobOk(w: World, j: JobId) {
    j in w.db.jobs ==>
      var x := w.db.jobs[j];
      && x.target in w.db.rows && x.oldName in w.past.published && w.past.published[x.oldName] == x.target
      && (x.copy.Some? ==> x.copy.value.name in w.past.names && w.past.names[x.copy.value.name] == Rewriter(j))
      && (x.state.Staged? || x.state.Promoted? ==> x.copy.Some? && x.copy.value.name !in w.past.published)
      && (x.state.Swapped? || x.state.Cleanup? ==> x.copy.Some? && x.copy.value.name != x.oldName)
  }

  ghost predicate BatchOk(w: World, j: JobId) {
    w.executor.Working? && j in w.executor.batch ==> j in w.db.jobs && w.db.jobs[j] == w.executor.batch[j]
  }

  ghost predicate WorkOk(w: World) {
    AtWork(w) ==>
      var k := TheWork(w);
      && k.job in w.db.jobs && k.job !in w.executor.batch
      && w.db.jobs[k.job].target == k.claim.target && w.db.jobs[k.job].newGeneration == k.claim.newGeneration
      && k.claim.target in w.db.rows && k.row.subject == w.db.rows[k.claim.target].subject
      && (k.copy.Some? ==> k.copy.value.name in w.past.names && w.past.names[k.copy.value.name] == Rewriter(k.job))
      && (k.copy.Some? ==> k.copy.value.name !in w.past.published)
      && (Risky(k.phase) ==> k.copy.Some? && w.db.jobs[k.job].copy == k.copy)
      && (k.phase.ToSwap? ==> Verified(w, k))
  }

  ghost predicate Verified(w: World, k: Work) {
    && k.copy.Some? && k.claim.target in w.past.origin
    && ReadCopy(w.disk.objects, k.copy.value, k.claim.newGeneration, k.row.subject) ==
         Some(w.past.origin[k.claim.target])
  }

  ghost predicate Unheld(w: World, j: JobId, id: LeaseId)
    requires j in w.db.jobs
  {
    Active(w, id) ==> w.db.leases[id].row.copy.name != w.db.jobs[j].oldName
  }

  // What the due query found still holds when the unlink comes.
  ghost predicate CleanOk(w: World, j: JobId) {
    && (w.executor.Cleaning? && (j in w.executor.todo || j in w.executor.done) ==>
          j in w.db.jobs && (w.db.jobs[j].state.Swapped? || w.db.jobs[j].state.Cleanup?))
    && (w.executor.Cleaning? && j in w.executor.todo ==>
          && w.db.jobs[j].rollbackUntil <= w.db.now
          && w.db.jobs[j].target in w.db.rows && w.db.rows[w.db.jobs[j].target].copy.name != w.db.jobs[j].oldName
          && forall id :: Unheld(w, j, id))
  }

  ghost predicate Safe(w: World) {
    && NamesDrawn(w)
    && (forall o :: RowOk(w, o)) && (forall id :: LeaseOk(w, id))
    && (forall j :: JobOk(w, j)) && (forall j :: BatchOk(w, j))
    && WorkOk(w) && (forall j :: CleanOk(w, j))
  }

  // ----- Steps that leave rows, leases and every published file alone -----

  ghost predicate SameFile(w: World, v: World, n: Name) {
    && (n in w.past.published && n in w.disk.objects ==> n in v.disk.objects && v.disk.objects[n] == w.disk.objects[n])
    && (Drawn(w, n) ==> Drawn(v, n))
  }

  ghost predicate Kept(w: World, v: World) {
    && v.db.rows == w.db.rows && v.db.leases == w.db.leases && v.past.origin == w.past.origin
    && v.past.published == w.past.published && v.db.now == w.db.now
    && forall n :: SameFile(w, v, n)
  }

  lemma KeptRows(w: World, v: World)
    requires Safe(w) && Kept(w, v)
    ensures NamesDrawn(v) && (forall o :: RowOk(v, o)) && (forall id :: LeaseOk(v, id))
  {
    forall n ensures Drawn(v, n) { assert Drawn(w, n) && SameFile(w, v, n); }
    forall o ensures RowOk(v, o) {
      assert RowOk(w, o);
      if o in w.db.rows { assert SameFile(w, v, w.db.rows[o].copy.name); }
    }
    forall id ensures LeaseOk(v, id) {
      assert LeaseOk(w, id);
      if id in w.db.leases { assert SameFile(w, v, w.db.leases[id].row.copy.name); }
    }
  }

  // ----- The executor at work on one job -----

  ghost predicate WorkJob(w: World) { AtWork(w) && WorkOk(w) && JobOk(w, TheWork(w).job) }

  ghost predicate SameJob(w: World, v: World, j: JobId) {
    (j in v.db.jobs <==> j in w.db.jobs) && (j in w.db.jobs ==> v.db.jobs[j] == w.db.jobs[j])
  }

  // Only the job at hand and the work on it change.
  ghost predicate Local(w: World, v: World)
    requires AtWork(w)
  {
    var j := TheWork(w).job;
    && Kept(w, v) && v.past.names == w.past.names
    && (v.executor.Idle? || (v.executor.Working? && v.executor.batch == w.executor.batch))
    && (forall i :: i != j ==> SameJob(w, v, i)) && JobOk(v, j)
    && WorkOk(v)
  }

  lemma SafeLocal(w: World, v: World)
    requires Safe(w) && AtWork(w) && Local(w, v)
    ensures Safe(v)
  {
    KeptRows(w, v);
    forall j ensures BatchOk(v, j) && JobOk(v, j) {
      assert BatchOk(w, j) && JobOk(w, j);
      if j != TheWork(w).job { assert SameJob(w, v, j); }
    }
  }

  // Register and acknowledge.
  lemma LocalJob(w: World)
    requires WorkJob(w) && (AtCopy(w, ToRegister) || AtCopy(w, ToAck))
    ensures Local(w, DoWork(w))
  {
    var v := DoWork(w);
    assert Kept(w, v) by { forall n ensures SameFile(w, v, n) {} }
  }

  // Probe, check and verify.
  lemma LocalLook(w: World)
    requires WorkJob(w) && RowOk(w, TheWork(w).claim.target)
    requires AtCopy(w, ToProbe) || AtCopy(w, ToCheck) || AtCopy(w, ToVerify)
    ensures Local(w, DoWork(w))
  {
    var v := DoWork(w);
    assert Kept(w, v) by { forall n ensures SameFile(w, v, n) {} }
  }

  // Link and unlink.
  lemma LocalFiles(w: World)
    requires WorkJob(w) && TheWork(w).copy.Some? && (TheWork(w).phase.ToLink? || TheWork(w).phase.ToUnlinkStage?)
    ensures Local(w, DoWork(w))
  {
    var v := DoWork(w);
    assert Kept(w, v) by { forall n ensures SameFile(w, v, n) {} }
  }

  lemma SafeWork(w: World)
    requires Safe(w) && AtWork(w) && TheWork(w).copy.Some? && Plain(TheWork(w).phase)
    ensures Safe(DoWork(w))
  {
    var k := TheWork(w);
    assert JobOk(w, k.job) && RowOk(w, k.claim.target);
    if k.phase.ToRegister? || k.phase.ToAck? { LocalJob(w); }
    else if k.phase.ToLink? || k.phase.ToUnlinkStage? { LocalFiles(w); }
    else { LocalLook(w); }
    SafeLocal(w, DoWork(w));
  }

  lemma LocalSetback(w: World, l: Label)
    requires WorkJob(w) && Enabled(w, l) && (l.LDelete? || l.LFail? || l.LTrouble? || l.LProbeFails?)
    ensures Local(w, Next(w, l))
  {
    var v := Next(w, l);
    assert Kept(w, v) by { forall n ensures SameFile(w, v, n) {} }
  }

  lemma SafeSetback(w: World, l: Label)
    requires Safe(w) && Enabled(w, l) && (l.LDelete? || l.LFail? || l.LTrouble? || l.LProbeFails?)
    ensures Safe(Next(w, l))
  {
    assert JobOk(w, TheWork(w).job);
    LocalSetback(w, l);
    SafeLocal(w, Next(w, l));
  }

  lemma SafeEncrypt(w: World, name: Name, nonce: int)
    requires Safe(w) && At(w, ToEncrypt) && name !in w.past.names
    ensures Safe(DoEncrypt(w, name, nonce))
  {
    var v := DoEncrypt(w, name, nonce);
    assert Drawn(w, name);
    assert Kept(w, v) by { forall n ensures SameFile(w, v, n) {} }
    KeptRows(w, v);
    forall j ensures JobOk(v, j) && BatchOk(v, j) { assert JobOk(w, j) && BatchOk(w, j); }
  }

  lemma SafeBegin(w: World, j: JobId)
    requires Safe(w) && Enabled(w, LBegin(j))
    ensures Safe(DoBegin(w, j))
  {
    var v := DoBegin(w, j);
    assert Kept(w, v) by { forall n ensures SameFile(w, v, n) {} }
    KeptRows(w, v);
    assert BatchOk(w, j) && JobOk(w, j);
    forall i ensures JobOk(v, i) && BatchOk(v, i) { assert JobOk(w, i) && BatchOk(w, i); }
  }

  // Neither rows nor leases nor published files change, and no job becomes due.
  lemma SafeJobs(w: World, v: World)
    requires Safe(w) && Kept(w, v) && WorkOk(v)
    requires v.executor.Cleaning? ==> v.executor == w.executor
    requires forall j :: JobOk(v, j) && BatchOk(v, j)
    requires forall j | CleanOk(w, j) && v.executor.Cleaning? && (j in v.executor.todo || j in v.executor.done) ::
               SameJob(w, v, j)
    ensures Safe(v)
  {
    KeptRows(w, v);
    forall j ensures CleanOk(v, j) {
      assert CleanOk(w, j);
      if v.executor.Cleaning? && j in v.executor.todo {
        forall id ensures Unheld(v, j, id) { assert Unheld(w, j, id); }
      }
    }
  }

  // Crashing, scanning, planning and giving up.
  lemma SafeTables(w: World, l: Label)
    requires Safe(w) && Enabled(w, l) && (l.LCrash? || l.LScan? || l.LPlan? || l.LExhaust?)
    ensures Safe(Next(w, l))
  {
    var v := Next(w, l);
    assert Kept(w, v) by { forall n ensures SameFile(w, v, n) {} }
    if l.LPlan? { assert RowOk(w, l.target); }
    forall j ensures JobOk(v, j) && BatchOk(v, j) {
      assert JobOk(w, j) && BatchOk(w, j);
    }
    SafeJobs(w, v);
  }

  // Damage to a copy that no row has taken up.
  lemma SafeCorrupt(w: World, name: Name, stage: Option<Ciphertext>, blob: Option<Ciphertext>)
    requires Safe(w) && Enabled(w, LCorrupt(name, stage, blob))
    ensures Safe(DoCorrupt(w, name, stage, blob))
  {
    var v := DoCorrupt(w, name, stage, blob);
    assert Kept(w, v) by { forall n ensures SameFile(w, v, n) {} }
    forall j ensures JobOk(v, j) && BatchOk(v, j) { assert JobOk(w, j) && BatchOk(w, j); }
    SafeJobs(w, v);
  }

  // Claiming a batch and finishing a cleanup.
  lemma SafeClaims(w: World, l: Label)
    requires Safe(w) && Enabled(w, l) && (l.LClaim? || l.LFinish?)
    ensures Safe(Next(w, l))
  {
    var v := Next(w, l);
    assert Kept(w, v) by { forall n ensures SameFile(w, v, n) {} }
    forall j ensures JobOk(v, j) && BatchOk(v, j) {
      assert JobOk(w, j) && BatchOk(w, j) && CleanOk(w, j);
    }
    SafeJobs(w, v);
  }

  lemma SafeSelect(w: World, chosen: set<JobId>)
    requires Safe(w) && Enabled(w, LSelect(chosen))
    ensures Safe(DoSelect(w, chosen))
  {
    var v := DoSelect(w, chosen);
    assert Kept(w, v) by { forall n ensures SameFile(w, v, n) {} }
    KeptRows(w, v);
    forall j ensures JobOk(v, j) && CleanOk(v, j) {
      assert JobOk(w, j);
      if j in chosen {
        forall id ensures Unheld(v, j, id) { assert LeaseOk(w, id); }
      }
    }
  }

  // ----- Steps that change rows, leases, time or published files -----

  lemma SafeSwap(w: World, horizon: nat)
    requires Safe(w) && AtCopy(w, ToSwap)
    ensures Safe(DoSwap(w, horizon))
  {
    var v, k := DoSwap(w, horizon), TheWork(w);
    if Swappable(w, k) {
      assert JobOk(w, k.job);
      forall n ensures Drawn(v, n) { assert Drawn(w, n); }
      forall o ensures RowOk(v, o) { assert RowOk(w, o); }
      forall id ensures LeaseOk(v, id) { assert LeaseOk(w, id); }
      forall j ensures JobOk(v, j) && BatchOk(v, j) {
        assert JobOk(w, j) && BatchOk(w, j);
      }
    } else {
      SafeTables(w, LCrash);
    }
  }

  lemma PublishKeepsJobs(w: World, v: World)
    requires Safe(w) && v.db.jobs == w.db.jobs && v.db.leases == w.db.leases && v.db.now == w.db.now &&
             v.executor == w.executor
    requires forall o | o in w.db.rows :: o in v.db.rows && v.db.rows[o] == w.db.rows[o]
    requires forall n | n in w.past.names :: n in v.past.names && v.past.names[n] == w.past.names[n] &&
                                             (n in v.past.published <==> n in w.past.published)
    requires forall n | n in w.past.published :: n in v.past.published && v.past.published[n] == w.past.published[n]
    ensures forall j :: JobOk(v, j) && BatchOk(v, j) && CleanOk(v, j)
  {
    forall j ensures JobOk(v, j) && BatchOk(v, j) && CleanOk(v, j) {
      assert JobOk(w, j) && BatchOk(w, j) && CleanOk(w, j);
      if j in w.db.jobs { assert Drawn(w, w.db.jobs[j].oldName); }
      if w.executor.Cleaning? && j in w.executor.todo {
        forall id ensures Unheld(v, j, id) { assert Unheld(w, j, id); }
      }
    }
  }

  lemma SafePublish(w: World, o: ObjectId, subject: Subject, generation: Generation, name: Name, nonce: int,
                    content: Plaintext)
    requires Safe(w) && o !in w.db.rows && name !in w.past.names && subject.content == content
    ensures Safe(DoPublish(w, o, subject, generation, name, nonce, content))
  {
    var v := DoPublish(w, o, subject, generation, name, nonce, content);
    assert Drawn(w, name);
    forall n ensures Drawn(v, n) { assert Drawn(w, n); }
    forall i ensures RowOk(v, i) { assert RowOk(w, i); }
    forall id ensures LeaseOk(v, id) { assert LeaseOk(w, id); }
    forall n | n in w.past.published ensures n in v.past.published && v.past.published[n] == w.past.published[n] {
      assert Drawn(w, n);
    }
    PublishKeepsJobs(w, v);
  }

  // Only the leases and the clock change, and no lease comes back to life.
  lemma SafeReaders(w: World, v: World)
    requires Safe(w) && v == World(w.db.(leases := v.db.leases, now := v.db.now), w.disk, w.executor, w.past) &&
             w.db.now <= v.db.now
    requires forall id :: LeaseOk(v, id)
    requires forall j, id :: CleanOk(w, j) && w.executor.Cleaning? && j in w.executor.todo ==> Unheld(v, j, id)
    ensures Safe(v)
  {
    forall n ensures Drawn(v, n) { assert Drawn(w, n); }
    forall o ensures RowOk(v, o) { assert RowOk(w, o); }
    forall j ensures JobOk(v, j) && BatchOk(v, j) && CleanOk(v, j) {
      assert JobOk(w, j) && BatchOk(w, j) && CleanOk(w, j);
    }
  }

  lemma SafeLease(w: World, l: Label)
    requires Safe(w) && Enabled(w, l) && (l.LTick? || l.LGrant? || l.LRenew? || l.LReturn?)
    ensures Safe(Next(w, l))
  {
    var v := Next(w, l);
    forall id ensures LeaseOk(v, id) {
      assert LeaseOk(w, id);
      if l.LGrant? { assert RowOk(w, l.target); }
    }
    forall j, id | CleanOk(w, j) && w.executor.Cleaning? && j in w.executor.todo ensures Unheld(v, j, id) {
      assert Unheld(w, j, id) && JobOk(w, j);
      if l.LGrant? { assert RowOk(w, l.target); }
    }
    SafeReaders(w, v);
  }

  lemma SafeUnlinkOld(w: World, j: JobId)
    requires Safe(w) && w.executor.Cleaning? && j in w.executor.todo && j in w.db.jobs
    ensures Safe(DoUnlinkOld(w, j))
  {
    var v := DoUnlinkOld(w, j);
    assert CleanOk(w, j) && JobOk(w, j);
    forall n ensures Drawn(v, n) { assert Drawn(w, n); }
    forall o ensures RowOk(v, o) { assert RowOk(w, o); }
    forall id ensures LeaseOk(v, id) { assert LeaseOk(w, id) && Unheld(w, j, id); }
    forall i ensures JobOk(v, i) && CleanOk(v, i) {
      assert JobOk(w, i) && CleanOk(w, i);
      if i in v.executor.todo { forall id ensures Unheld(v, i, id) { assert Unheld(w, i, id); } }
    }
  }

  lemma SafeStep(w: World, l: Label)
    requires Safe(w) && Enabled(w, l)
    ensures Safe(Next(w, l))
  {
    if l.LPublish? { SafePublish(w, l.target, l.subject, l.generation, l.name, l.nonce, l.content); }
    else if l.LTick? || l.LGrant? || l.LRenew? || l.LReturn? { SafeLease(w, l); }
    else if l.LSelect? { SafeSelect(w, l.chosen); }
    else { SafeExecutorStep(w, l); }
  }

  lemma SafeExecutorStep(w: World, l: Label)
    requires Safe(w) && Enabled(w, l)
    requires !l.LPublish? && !l.LTick? && !l.LGrant? && !l.LRenew? && !l.LReturn? && !l.LSelect?
    ensures Safe(Next(w, l))
  {
    if l.LBegin? { SafeBegin(w, l.job); }
    else if l.LEncrypt? { SafeEncrypt(w, l.name, l.nonce); }
    else if l.LWork? { SafeWork(w); }
    else if l.LSwap? { SafeSwap(w, l.horizon); }
    else if l.LDelete? || l.LFail? || l.LTrouble? || l.LProbeFails? { SafeSetback(w, l); }
    else if l.LUnlinkOld? { SafeUnlinkOld(w, l.job); }
    else if l.LClaim? || l.LFinish? { SafeClaims(w, l); }
    else if l.LCorrupt? { SafeCorrupt(w, l.name, l.stage, l.blob); }
    else { SafeTables(w, l); }
  }

  lemma {:induction false} RunsStaySafe(now: int, run: seq<Label>)
    requires Legal(now, run)
    ensures Safe(After(now, run))
    decreases |run|
  {
    if run != [] {
      RunsStaySafe(now, run[..|run| - 1]);
      SafeStep(After(now, run[..|run| - 1]), run[|run| - 1]);
    }
  }

  // What reads as the object it was published as.
  ghost predicate Reads(w: World, row: Row, o: ObjectId) {
    o in w.past.origin && ReadRow(w.disk.objects, row) == Some(w.past.origin[o])
  }

  /** After every run, whatever crashed and whatever file call failed: each content row names a file that
      opens under the row's generation to the plaintext it was published with, and so does the row that
      each active lease was granted on. */
  lemma RowsAndLeasesReadable(now: int, run: seq<Label>)
    requires Legal(now, run)
    ensures var w := After(now, run);
            && (forall o | o in w.db.rows :: Reads(w, w.db.rows[o], o))
            && (forall id | Active(w, id) :: Reads(w, w.db.leases[id].row, w.db.leases[id].target))
  {
    RunsStaySafe(now, run);
    var w := After(now, run);
    forall o | o in w.db.rows ensures Reads(w, w.db.rows[o], o) { assert RowOk(w, o); }
    forall id | Active(w, id) ensures Reads(w, w.db.leases[id].row, w.db.leases[id].target) { assert LeaseOk(w, id); }
  }

  // The reasons for which an old object file may go.
  ghost predicate Outlived(w: World, j: JobId, n: Name) {
    && j in w.db.jobs && w.db.jobs[j].state.Swapped? && w.db.jobs[j].oldName == n
    && w.db.jobs[j].rollbackUntil <= w.db.now
    && w.db.jobs[j].target in w.db.rows && w.db.rows[w.db.jobs[j].target].copy.name != n
    && forall id | Active(w, id) :: w.db.leases[id].row.copy.name != n
  }

  // Except for the cleanup's unlink, a step leaves a published file as it is.
  lemma PublishedFileKept(w: World, l: Label, n: Name)
    requires Drawn(w, n) && WorkOk(w) && Enabled(w, l) && !l.LUnlinkOld? && n in w.past.published && n in w.disk.objects
    ensures n in Next(w, l).disk.objects && Next(w, l).disk.objects[n] == w.disk.objects[n]
  {
  }

  lemma UnlinkIsLate(w: World, j: JobId, n: Name)
    requires Safe(w) && Enabled(w, LUnlinkOld(j)) && n in w.disk.objects
    ensures n in DoUnlinkOld(w, j).disk.objects ==> DoUnlinkOld(w, j).disk.objects[n] == w.disk.objects[n]
    ensures n !in DoUnlinkOld(w, j).disk.objects ==> Outlived(w, j, n)
  {
    assert CleanOk(w, j);
    forall id | Active(w, id) ensures w.db.leases[id].row.copy.name != w.db.jobs[j].oldName { assert Unheld(w, j, id); }
  }

  /** In every run, a file that some row has ever named keeps its content, and the only step that takes it away
      is the cleanup's unlink, which comes after the swap and the rollback horizon, when no active lease was
      granted on that file. */
  lemma OldFilesGoLast(now: int, run: seq<Label>, l: Label, n: Name)
    requires Legal(now, run) && Enabled(After(now, run), l)
    requires n in After(now, run).past.published && n in After(now, run).disk.objects
    ensures var w := After(now, run); var v := Next(w, l);
            && (n in v.disk.objects ==> v.disk.objects[n] == w.disk.objects[n])
            && (n !in v.disk.objects ==> l.LUnlinkOld? && Outlived(w, l.job, n))
  {
    RunsStaySafe(now, run);
    var w := After(now, run);
    if l.LUnlinkOld? { UnlinkIsLate(w, l.job, n); } else { assert Drawn(w, n); PublishedFileKept(w, l, n); }
  }
}
