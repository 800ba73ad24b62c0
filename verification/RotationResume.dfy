/** A registered copy is kept and finished with, from whichever disk state a crash left behind. */
module RotationResume {
  import opened Options
  import opened Rotation
  import opened RotationSafety

  // File calls succeed, files stay as they are, and the scanner leaves a stage file alone that is too young to be
  // an orphan.
  predicate Smooth(w: World, l: Label) {
    && !l.LTrouble? && !l.LProbeFails? && !l.LCorrupt?
    && (l.LScan? && AtCopy(w, ToRegister) ==> TheWork(w).copy.value.name != l.name)
  }

  ghost predicate Along(now: int, run: seq<Label>, p: (World, Label) -> bool)
    requires Legal(now, run)
    decreases |run|
  {
    run == [] || (Along(now, run[..|run| - 1], p) && p(After(now, run[..|run| - 1]), run[|run| - 1]))
  }

  // The copy is the target's plaintext under the generation of the job.
  ghost predicate Proper(w: World, target: ObjectId, generation: Generation, copy: Copy) {
    && target in w.db.rows && target in w.past.origin
    && copy.digest == Encrypted(w.db.rows[target].subject, generation, copy.nonce, w.past.origin[target])
  }

  // Staged only, linked into both directories, or in the objects directory only.
  ghost predicate Whole(w: World, copy: Copy) {
    && (copy.name in w.disk.stage || copy.name in w.disk.objects)
    && (copy.name in w.disk.stage ==> Holds(w.disk.stage, copy))
    && (copy.name in w.disk.objects ==> Holds(w.disk.objects, copy))
  }

  ghost predicate JobIntact(w: World, j: JobId) {
    j in w.db.jobs ==>
      var x := w.db.jobs[j];
      && (x.state.Pending? || x.state.Leased? ==> x.copy.None?)
      && (x.copy.None? ==> x.state.Pending? || x.state.Leased? || x.state.Failed?)
      && (x.copy.Some? ==>
            Proper(w, x.target, x.newGeneration, x.copy.value) &&
              x.seal == Some(Aad(w.db.rows[x.target].subject, x.newGeneration)))
      && (x.state.Staged? ==> x.copy.Some? && Whole(w, x.copy.value))
      && (x.state.Promoted? ==>
            x.copy.Some? && Holds(w.disk.objects, x.copy.value) && x.copy.value.name !in w.disk.stage)
  }

  ghost predicate WorkIntact(w: World) {
    AtWork(w) ==>
      var k := TheWork(w);
      && !k.phase.ToDelete? && !k.phase.ToFail?
      && (k.phase.ToEncrypt? <==> k.copy.None?)
      && (k.phase.ToRegister? ==>
            && Proper(w, k.claim.target, k.claim.newGeneration, k.copy.value)
            && Holds(w.disk.stage, k.copy.value) && k.copy.value.name !in w.disk.objects)
      && k.job in w.db.jobs
      && (Risky(k.phase) ==>
            if k.phase.ToVerify? || k.phase.ToSwap?
              then w.db.jobs[k.job].state.Promoted? else w.db.jobs[k.job].state.Staged?)
      && (k.phase.ToLink? ==> k.copy.value.name !in w.disk.objects)
      && (k.phase.ToUnlinkStage? || k.phase.ToCheck? || k.phase.ToAck? ==> Holds(w.disk.objects, k.copy.value))
      && (k.phase.ToCheck? || k.phase.ToAck? ==> k.copy.value.name !in w.disk.stage)
  }

  ghost predicate Intact(w: World) { (forall j :: JobIntact(w, j)) && WorkIntact(w) }

  // ----- One job at a time -----

  // The files that job `j` and its registered copy depend on are as they were.
  ghost predicate SameCopy(w: World, v: World, j: JobId) {
    j in w.db.jobs && w.db.jobs[j].copy.Some? && (w.db.jobs[j].state.Staged? || w.db.jobs[j].state.Promoted?) ==>
      var n := w.db.jobs[j].copy.value.name;
      && (n in v.disk.stage <==> n in w.disk.stage) && (n in w.disk.stage ==> v.disk.stage[n] == w.disk.stage[n])
      && (n in v.disk.objects <==> n in w.disk.objects) &&
         (n in w.disk.objects ==> v.disk.objects[n] == w.disk.objects[n])
  }

  ghost predicate SameSubjects(w: World, v: World) {
    forall o | o in w.db.rows && o in w.past.origin ::
      o in v.db.rows && o in v.past.origin && v.db.rows[o].subject == w.db.rows[o].subject &&
      v.past.origin[o] == w.past.origin[o]
  }

  lemma SameJobIntact(w: World, v: World, j: JobId)
    requires JobIntact(w, j) && SameJob(w, v, j) && SameCopy(w, v, j) && SameSubjects(w, v)
    ensures JobIntact(v, j)
  {
  }

  // The name of another job's copy is another name.
  lemma OtherCopies(w: World, v: World, j: JobId)
    requires JobOk(w, j) && AtWork(w) && WorkOk(w) && TheWork(w).job != j && TheWork(w).copy.Some?
    requires v.disk.stage == w.disk.stage || v.disk.stage == w.disk.stage - {TheWork(w).copy.value.name}
    requires v.disk.objects == w.disk.objects ||
             (TheWork(w).copy.value.name in w.disk.stage &&
              v.disk.objects == w.disk.objects[TheWork(w).copy.value.name := w.disk.stage[TheWork(w).copy.value.name]])
    ensures SameCopy(w, v, j)
  {
  }

  // ----- The steps of the work on one job -----

  ghost predicate Ready(w: World) {
    && AtWork(w) && TheWork(w).copy.Some? && WorkOk(w) && WorkIntact(w)
    && JobOk(w, TheWork(w).job) && JobIntact(w, TheWork(w).job) && RowOk(w, TheWork(w).claim.target)
  }

  ghost predicate Done(w: World, v: World)
    requires AtWork(w)
  {
    JobIntact(v, TheWork(w).job) && WorkIntact(v)
  }

  lemma DoneJob(w: World)
    requires Ready(w) && (TheWork(w).phase.ToRegister? || TheWork(w).phase.ToAck?)
    ensures Done(w, DoWork(w))
  {
  }

  lemma DoneLook(w: World)
    requires Ready(w) && (TheWork(w).phase.ToProbe? || TheWork(w).phase.ToCheck? || TheWork(w).phase.ToVerify?)
    ensures Done(w, DoWork(w))
  {
  }

  lemma DoneFiles(w: World)
    requires Ready(w) && (TheWork(w).phase.ToLink? || TheWork(w).phase.ToUnlinkStage?)
    ensures Done(w, DoWork(w))
  {
  }

  lemma IntactWork(w: World)
    requires Safe(w) && Intact(w) && Enabled(w, LWork)
    ensures Intact(DoWork(w))
  {
    var v, k := DoWork(w), TheWork(w);
    assert JobOk(w, k.job) && JobIntact(w, k.job) && RowOk(w, k.claim.target);
    if k.phase.ToRegister? || k.phase.ToAck? { DoneJob(w); LocalJob(w); }
    else if k.phase.ToLink? || k.phase.ToUnlinkStage? { DoneFiles(w); LocalFiles(w); }
    else { DoneLook(w); LocalLook(w); }
    forall j | j != k.job ensures JobIntact(v, j) {
      assert JobIntact(w, j) && JobOk(w, j) && SameJob(w, v, j);
      OtherCopies(w, v, j);
      SameJobIntact(w, v, j);
    }
  }

  // ----- The other steps -----

  // Jobs and their files are as they were, and so is the work, unless it ended.
  lemma IntactFrame(w: World, v: World)
    requires Intact(w) && SameSubjects(w, v)
    requires forall j :: SameJob(w, v, j) && SameCopy(w, v, j)
    requires WorkIntact(v)
    ensures Intact(v)
  {
    forall j ensures JobIntact(v, j) {
      assert JobIntact(w, j) && SameJob(w, v, j) && SameCopy(w, v, j);
      SameJobIntact(w, v, j);
    }
  }

  lemma IntactReaders(w: World, v: World)
    requires Intact(w) && v.db.rows == w.db.rows && v.db.jobs == w.db.jobs && v.disk == w.disk && v.past == w.past
    requires v.executor == w.executor || !AtWork(v)
    ensures Intact(v)
  {
    forall j ensures SameJob(w, v, j) && SameCopy(w, v, j) {}
    IntactFrame(w, v);
  }

  // Files that no registered copy depends on come and go.
  lemma IntactFiles(w: World, l: Label)
    requires Safe(w) && Intact(w) && Enabled(w, l) && Smooth(w, l) && (l.LScan? || l.LPublish? || l.LUnlinkOld?)
    ensures Intact(Next(w, l))
  {
    var v := Next(w, l);
    if l.LUnlinkOld? { assert JobOk(w, l.job); }
    forall j ensures SameJob(w, v, j) && SameCopy(w, v, j) { assert JobOk(w, j); }
    assert WorkIntact(v);
    IntactFrame(w, v);
  }

  lemma IntactEncrypt(w: World, name: Name, nonce: int)
    requires Safe(w) && Intact(w) && At(w, ToEncrypt) && name !in w.past.names
    ensures Intact(DoEncrypt(w, name, nonce))
  {
    var v := DoEncrypt(w, name, nonce);
    assert Drawn(w, name) && RowOk(w, TheWork(w).claim.target);
    forall j ensures SameJob(w, v, j) && SameCopy(w, v, j) { assert JobOk(w, j); }
    IntactFrame(w, v);
  }

  lemma IntactBegin(w: World, j: JobId)
    requires Intact(w) && BatchOk(w, j) && Enabled(w, LBegin(j))
    ensures Intact(DoBegin(w, j))
  {
    var v := DoBegin(w, j);
    assert JobIntact(w, j);
    forall i ensures SameJob(w, v, i) && SameCopy(w, v, i) {}
    IntactFrame(w, v);
  }

  lemma IntactPlan(w: World, j: JobId, o: ObjectId, generation: Generation)
    requires Safe(w) && Intact(w) && Enabled(w, LPlan(j, o, generation))
    ensures Intact(DoPlan(w, j, o, generation))
  {
    var v := DoPlan(w, j, o, generation);
    forall i ensures JobIntact(v, i) {
      assert JobIntact(w, i);
      if i != j { assert SameJob(w, v, i); SameJobIntact(w, v, i); }
    }
  }

  // Claims and giving up leave copies and seals alone and promote nothing.
  lemma IntactClaims(w: World, v: World)
    requires Intact(w) && v.db.rows == w.db.rows && v.disk == w.disk && v.past == w.past && !AtWork(v)
    requires forall j :: Claimed(w, v, j)
    ensures Intact(v)
  {
    forall j ensures JobIntact(v, j) { assert JobIntact(w, j) && Claimed(w, v, j); }
  }

  ghost predicate Claimed(w: World, v: World, j: JobId) {
    && (j in v.db.jobs <==> j in w.db.jobs)
    && (j in w.db.jobs ==>
          var x, y := w.db.jobs[j], v.db.jobs[j];
          && y.target == x.target && y.newGeneration == x.newGeneration && y.copy == x.copy && y.seal == x.seal
          && (y.state == x.state || (x.state.Pending? && y.state.Leased?) || y.state.Failed? ||
              (y.state.Completed? && (x.state.Swapped? || x.state.Cleanup?))))
  }

  lemma IntactJobs(w: World, l: Label)
    requires Safe(w) && Intact(w) && Enabled(w, l) && (l.LClaim? || l.LExhaust? || l.LFinish?)
    ensures Intact(Next(w, l))
  {
    var v := Next(w, l);
    forall j ensures Claimed(w, v, j) { assert CleanOk(w, j); }
    IntactClaims(w, v);
  }

  lemma IntactSwap(w: World, horizon: nat)
    requires Safe(w) && Intact(w) && AtCopy(w, ToSwap)
    ensures Intact(DoSwap(w, horizon))
  {
    var v, k := DoSwap(w, horizon), TheWork(w);
    if Swappable(w, k) {
      assert JobIntact(w, k.job);
      forall j ensures JobIntact(v, j) {
        assert JobIntact(w, j);
        if j != k.job { assert SameJob(w, v, j) && SameCopy(w, v, j); SameJobIntact(w, v, j); }
      }
    } else {
      IntactReaders(w, v);
    }
  }

  lemma IntactStep(w: World, l: Label)
    requires Safe(w) && Intact(w) && Enabled(w, l) && Smooth(w, l)
    ensures Intact(Next(w, l))
  {
    if l.LPublish? || l.LScan? || l.LUnlinkOld? { IntactFiles(w, l); }
    else if l.LPlan? { IntactPlan(w, l.job, l.target, l.generation); }
    else if l.LClaim? || l.LExhaust? || l.LFinish? { IntactJobs(w, l); }
    else if l.LBegin? { assert BatchOk(w, l.job); IntactBegin(w, l.job); }
    else if l.LEncrypt? { IntactEncrypt(w, l.name, l.nonce); }
    else if l.LWork? { IntactWork(w); }
    else if l.LSwap? { IntactSwap(w, l.horizon); }
    else if !l.LDelete? && !l.LFail? { IntactReaders(w, Next(w, l)); }
  }

  lemma {:induction false} RunsStayIntact(now: int, run: seq<Label>)
    requires Legal(now, run) && Along(now, run, Smooth)
    ensures Intact(After(now, run))
    decreases |run|
  {
    if run != [] {
      var before := run[..|run| - 1];
      RunsStayIntact(now, before);
      RunsStaySafe(now, before);
      IntactStep(After(now, before), run[|run| - 1]);
    }
  }

  /** In every run whose file calls succeed, crashes anywhere included: a staged job's copy is whole, staged
      only, linked twice or in place only; a promoted job's copy is in place and reads as the original under
      the new generation; and the executor never turns to deleting a copy or failing a job. */
  lemma CopiesStayWhole(now: int, run: seq<Label>)
    requires Legal(now, run) && Along(now, run, Smooth)
    ensures var w := After(now, run);
            && (forall j | j in w.db.jobs && w.db.jobs[j].state.Staged? ::
                w.db.jobs[j].copy.Some? && Whole(w, w.db.jobs[j].copy.value))
            && (forall j | j in w.db.jobs && w.db.jobs[j].state.Promoted? :: PromotedReads(w, w.db.jobs[j]))
            && (AtWork(w) ==> !TheWork(w).phase.ToDelete? && !TheWork(w).phase.ToFail?)
  {
    RunsStayIntact(now, run);
    RunsStaySafe(now, run);
    var w := After(now, run);
    forall j | j in w.db.jobs && w.db.jobs[j].state.Staged?
      ensures w.db.jobs[j].copy.Some? && Whole(w, w.db.jobs[j].copy.value)
    {
      assert JobIntact(w, j);
    }
    forall j | j in w.db.jobs && w.db.jobs[j].state.Promoted? ensures PromotedReads(w, w.db.jobs[j]) {
      assert JobIntact(w, j) && JobOk(w, j) && RowOk(w, w.db.jobs[j].target);
    }
  }

  ghost predicate PromotedReads(w: World, x: Job) {
    && x.copy.Some? && x.copy.value.name !in w.disk.stage && x.target in w.db.rows && x.target in w.past.origin
    && ReadCopy(w.disk.objects, x.copy.value, x.newGeneration, w.db.rows[x.target].subject) ==
         Some(w.past.origin[x.target])
  }

  // ----- A resume reaches the swap -----

  // The row is still the one that the job was planned for.
  predicate Current(w: World, x: Job) {
    x.target in w.db.rows && w.db.rows[x.target].generation == x.oldGeneration &&
    w.db.rows[x.target].copy.name == x.oldName
  }

  // Claimed from the stage or from the objects directory, with time left on the lease.
  predicate Resumable(w: World, j: JobId) {
    && w.executor.Working? && w.executor.work.None? && j in w.executor.batch && j in w.db.jobs
    && (w.db.jobs[j].state.Staged? || w.db.jobs[j].state.Promoted?)
    && w.db.now < w.db.jobs[j].leaseUntil && Current(w, w.db.jobs[j])
  }

  function Rank(phase: Phase): nat {
    match phase
    case ToProbe => 6 case ToLink => 5 case ToUnlinkStage(_) => 4
    case ToCheck => 3 case ToAck => 2 case ToVerify => 1 case _ => 0
  }

  ghost predicate OnTrack(w: World, j: JobId, copy: Option<Copy>) {
    && AtWork(w) && TheWork(w).job == j && Risky(TheWork(w).phase) && TheWork(w).copy.Some?
    && Held(w, TheWork(w)) && w.db.jobs[j].copy == copy && Current(w, w.db.jobs[j])
  }

  lemma WorkAdvances(w: World, j: JobId, copy: Option<Copy>)
    requires Safe(w) && Intact(w) && OnTrack(w, j, copy) && !TheWork(w).phase.ToSwap?
    ensures OnTrack(DoWork(w), j, copy) && Rank(TheWork(DoWork(w)).phase) < Rank(TheWork(w).phase)
  {
    assert JobIntact(w, j) && RowOk(w, TheWork(w).claim.target);
  }

  lemma SwapSucceeds(w: World, j: JobId, copy: Option<Copy>, horizon: nat)
    requires Safe(w) && Intact(w) && OnTrack(w, j, copy) && TheWork(w).phase.ToSwap?
    ensures Swapped(DoSwap(w, horizon), j, copy, horizon)
  {
    assert JobIntact(w, j);
  }

  // The row has taken up the job's copy, the old one is kept for the rollback horizon, and the job is done with.
  predicate Swapped(w: World, j: JobId, copy: Option<Copy>, horizon: nat) {
    && w.executor.Working? && w.executor.work.None? && j !in w.executor.batch
    && j in w.db.jobs && w.db.jobs[j].rollbackUntil == w.db.now + horizon
    && w.db.jobs[j].state.Swapped? && w.db.jobs[j].copy == copy && copy.Some?
    && w.db.jobs[j].target in w.db.rows && w.db.rows[w.db.jobs[j].target].copy == copy.value
    && w.db.rows[w.db.jobs[j].target].generation == w.db.jobs[j].newGeneration
  }

  predicate Executes(l: Label) { l.LBegin? || l.LEncrypt? || l.LWork? || l.LSwap? }

  lemma Extend(now: int, run: seq<Label>, l: Label) returns (longer: seq<Label>)
    requires Legal(now, run) && Along(now, run, Smooth) && Enabled(After(now, run), l) && Executes(l)
    ensures longer == run + [l] && Legal(now, longer) && Along(now, longer, Smooth) &&
            After(now, longer) == Next(After(now, run), l)
  {
    longer := run + [l];
    assert longer[..|longer| - 1] == run;
  }

  lemma StepOfWork(now: int, run: seq<Label>, j: JobId, copy: Option<Copy>) returns (longer: seq<Label>)
    requires Legal(now, run) && Along(now, run, Smooth)
    requires OnTrack(After(now, run), j, copy) && !TheWork(After(now, run)).phase.ToSwap?
    ensures longer == run + [LWork] && Legal(now, longer) && Along(now, longer, Smooth)
    ensures OnTrack(After(now, longer), j, copy) &&
            Rank(TheWork(After(now, longer)).phase) < Rank(TheWork(After(now, run)).phase)
  {
    RunsStaySafe(now, run);
    RunsStayIntact(now, run);
    WorkAdvances(After(now, run), j, copy);
    longer := Extend(now, run, LWork);
  }

  lemma StepOfSwap(now: int, run: seq<Label>, j: JobId, copy: Option<Copy>, horizon: nat) returns (longer: seq<Label>)
    requires Legal(now, run) && Along(now, run, Smooth)
    requires OnTrack(After(now, run), j, copy) && TheWork(After(now, run)).phase.ToSwap?
    ensures longer == run + [LSwap(horizon)] && Legal(now, longer) && Along(now, longer, Smooth)
    ensures Swapped(After(now, longer), j, copy, horizon)
  {
    RunsStaySafe(now, run);
    RunsStayIntact(now, run);
    SwapSucceeds(After(now, run), j, copy, horizon);
    longer := Extend(now, run, LSwap(horizon));
  }

  lemma BeginIsOnTrack(w: World, j: JobId)
    requires Safe(w) && Intact(w) && Resumable(w, j)
    ensures Enabled(w, LBegin(j)) && OnTrack(DoBegin(w, j), j, w.db.jobs[j].copy)
  {
    assert BatchOk(w, j) && JobOk(w, j) && JobIntact(w, j);
  }

  lemma StepOfBegin(now: int, run: seq<Label>, j: JobId) returns (longer: seq<Label>)
    requires Legal(now, run) && Along(now, run, Smooth) && Resumable(After(now, run), j)
    ensures longer == run + [LBegin(j)] && Legal(now, longer) && Along(now, longer, Smooth)
    ensures OnTrack(After(now, longer), j, After(now, run).db.jobs[j].copy)
  {
    RunsStaySafe(now, run);
    RunsStayIntact(now, run);
    BeginIsOnTrack(After(now, run), j);
    longer := Extend(now, run, LBegin(j));
  }

  // The run goes on by the executor's own steps.
  predicate Executed(run: seq<Label>, longer: seq<Label>) {
    run <= longer && forall i | |run| <= i < |longer| :: Executes(longer[i])
  }

  lemma {:induction false} WorkToTheSwap(now: int, run: seq<Label>, j: JobId, copy: Option<Copy>, horizon: nat,
                                         rank: nat)
    returns (longer: seq<Label>)
    requires Legal(now, run) && Along(now, run, Smooth) && OnTrack(After(now, run), j, copy)
    requires Rank(TheWork(After(now, run)).phase) <= rank
    ensures Legal(now, longer) && Along(now, longer, Smooth) && Executed(run, longer)
    ensures Swapped(After(now, longer), j, copy, horizon)
    decreases rank
  {
    if TheWork(After(now, run)).phase.ToSwap? {
      longer := StepOfSwap(now, run, j, copy, horizon);
    } else {
      longer := StepOfWork(now, run, j, copy);
      longer := WorkToTheSwap(now, longer, j, copy, horizon, rank - 1);
    }
  }

  /** In every run whose file calls succeed, the resume of a staged or promoted job with time left on its
      lease reaches the swap, by the executor's own steps, with the copy the job had registered. */
  lemma ResumeReachesSwap(now: int, run: seq<Label>, j: JobId, horizon: nat) returns (longer: seq<Label>)
    requires Legal(now, run) && Along(now, run, Smooth) && Resumable(After(now, run), j)
    ensures Legal(now, longer) && Executed(run, longer) &&
            Swapped(After(now, longer), j, After(now, run).db.jobs[j].copy, horizon)
  {
    longer := StepOfBegin(now, run, j);
    longer := WorkToTheSwap(now, longer, j, After(now, run).db.jobs[j].copy, horizon, 6);
  }

  // ----- So does a first claim -----

  // Claimed with nothing staged yet, and time left on the lease.
  predicate Startable(w: World, j: JobId) {
    && w.executor.Working? && w.executor.work.None? && j in w.executor.batch && j in w.db.jobs
    && w.db.jobs[j].state.Leased? && w.db.now < w.db.jobs[j].leaseUntil && Current(w, w.db.jobs[j])
  }

  // About to encrypt the row's file for the job.
  ghost predicate Encrypting(w: World, j: JobId, x: Job) {
    && At(w, ToEncrypt) && TheWork(w).job == j && TheWork(w).claim == x && x.target in w.db.rows
    && TheWork(w).row == w.db.rows[x.target]
    && j in w.db.jobs && w.db.jobs[j] == x && x.state.Leased? && w.db.now < x.leaseUntil && Current(w, x)
  }

  ghost predicate Registering(w: World, j: JobId, x: Job, copy: Copy) {
    && At(w, ToRegister) && TheWork(w).job == j && TheWork(w).claim == x && TheWork(w).copy == Some(copy)
    && j in w.db.jobs && w.db.jobs[j] == x && x.state.Leased? && w.db.now < x.leaseUntil && Current(w, x)
  }

  // The new ciphertext: the bytes of the row's file under the job's generation.
  function NewCopy(w: World, x: Job, name: Name, nonce: int): Copy
    requires x.target in w.db.rows && x.target in w.past.origin
  {
    Copy(name, nonce, Encrypted(w.db.rows[x.target].subject, x.newGeneration, nonce, w.past.origin[x.target]))
  }

  lemma BeginIsEncrypting(w: World, j: JobId)
    requires Safe(w) && Intact(w) && Startable(w, j)
    ensures Enabled(w, LBegin(j)) && Encrypting(DoBegin(w, j), j, w.db.jobs[j])
    ensures DoBegin(w, j).db == w.db && DoBegin(w, j).past == w.past
  {
    assert BatchOk(w, j) && JobIntact(w, j);
  }

  lemma EncryptIsRegistering(w: World, j: JobId, x: Job, name: Name, nonce: int)
    requires Safe(w) && Encrypting(w, j, x) && name !in w.past.names
    ensures x.target in w.past.origin && Registering(DoEncrypt(w, name, nonce), j, x, NewCopy(w, x, name, nonce))
  {
    assert RowOk(w, x.target);
  }

  lemma RegisterIsOnTrack(w: World, j: JobId, x: Job, copy: Copy)
    requires Registering(w, j, x, copy)
    ensures OnTrack(DoWork(w), j, Some(copy)) && TheWork(DoWork(w)).phase.ToProbe?
  {
  }

  lemma StepsToTheStage(now: int, run: seq<Label>, j: JobId, name: Name, nonce: int) returns (longer: seq<Label>)
    requires Legal(now, run) && Along(now, run, Smooth) && Startable(After(now, run), j)
    requires name !in After(now, run).past.names
    ensures longer == run + [LBegin(j)] + [LEncrypt(name, nonce)] + [LWork]
    ensures Legal(now, longer) && Along(now, longer, Smooth)
    ensures var w, v := After(now, run), After(now, longer);
            && w.db.jobs[j].target in w.past.origin
            && OnTrack(v, j, Some(NewCopy(w, w.db.jobs[j], name, nonce))) && TheWork(v).phase.ToProbe?
  {
    var w := After(now, run);
    RunsStaySafe(now, run);
    RunsStayIntact(now, run);
    BeginIsEncrypting(w, j);
    longer := Extend(now, run, LBegin(j));
    RunsStaySafe(now, longer);
    EncryptIsRegistering(After(now, longer), j, w.db.jobs[j], name, nonce);
    longer := Extend(now, longer, LEncrypt(name, nonce));
    RegisterIsOnTrack(After(now, longer), j, w.db.jobs[j], NewCopy(w, w.db.jobs[j], name, nonce));
    longer := Extend(now, longer, LWork);
  }

  /** In every run whose file calls succeed, the first claim of a job with time left on its lease, for a row that
      is still the one planned for, reaches the swap by the executor's own steps, with a copy of the original
      bytes under the job's generation, whatever name and nonce are drawn. */
  lemma FirstClaimReachesSwap(now: int, run: seq<Label>, j: JobId, name: Name, nonce: int, horizon: nat)
    returns (longer: seq<Label>)
    requires Legal(now, run) && Along(now, run, Smooth) && Startable(After(now, run), j)
    requires name !in After(now, run).past.names
    ensures Legal(now, longer) && Along(now, longer, Smooth) && Executed(run, longer)
    ensures var w := After(now, run);
            && w.db.jobs[j].target in w.past.origin
            && Swapped(After(now, longer), j, Some(NewCopy(w, w.db.jobs[j], name, nonce)), horizon)
  {
    var w := After(now, run);
    longer := StepsToTheStage(now, run, j, name, nonce);
    longer := WorkToTheSwap(now, longer, j, Some(NewCopy(w, w.db.jobs[j], name, nonce)), horizon, 6);
  }

  // ----- A registered copy is never replaced, in every run -----

  ghost predicate CopyAwaited(w: World, j: JobId) {
    j in w.db.jobs && (w.db.jobs[j].state.Pending? || w.db.jobs[j].state.Leased?) ==> w.db.jobs[j].copy.None?
  }

  lemma CopyStep(w: World, l: Label, j: JobId)
    requires Enabled(w, l) && CopyAwaited(w, j)
    ensures CopyAwaited(Next(w, l), j)
    ensures j in w.db.jobs && w.db.jobs[j].copy.Some? ==>
              j in Next(w, l).db.jobs && Next(w, l).db.jobs[j].copy == w.db.jobs[j].copy
  {
  }

  lemma {:induction false} CopiesAreAwaited(now: int, run: seq<Label>, j: JobId)
    requires Legal(now, run)
    ensures CopyAwaited(After(now, run), j)
    decreases |run|
  {
    if run != [] {
      CopiesAreAwaited(now, run[..|run| - 1], j);
      CopyStep(After(now, run[..|run| - 1]), run[|run| - 1], j);
    }
  }

  /** In every run, failing file calls included, a job never changes the copy it has registered, whoever
      resumes it and however often. */
  lemma {:induction false} RegisteredCopyIsKept(now: int, run: seq<Label>, n: nat, j: JobId)
    requires Legal(now, run) && n <= |run| && Legal(now, run[..n])
    requires j in After(now, run[..n]).db.jobs && After(now, run[..n]).db.jobs[j].copy.Some?
    ensures j in After(now, run).db.jobs && After(now, run).db.jobs[j].copy == After(now, run[..n]).db.jobs[j].copy
    decreases |run|
  {
    if n == |run| {
      assert run[..n] == run;
    } else {
      var before := run[..|run| - 1];
      assert before[..n] == run[..n];
      RegisteredCopyIsKept(now, before, n, j);
      CopiesAreAwaited(now, before, j);
      CopyStep(After(now, before), run[|run| - 1], j);
    }
  }
}
