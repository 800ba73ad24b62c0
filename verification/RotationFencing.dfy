/** Who may change a job and when, which claims are made, and how a job that is in trouble ends. */
module RotationFencing {
  import opened Options
  import opened Rotation
  import opened RotationSafety

  // The executor is at work on the job under the claim that the job still has, before its lease runs out.
  predicate UnderClaim(w: World, j: JobId) {
    && j in w.db.jobs && w.executor.Working? && w.executor.work.Some? && w.executor.work.value.job == j
    && w.db.jobs[j].token == w.executor.work.value.claim.token
    && w.db.jobs[j].epoch == w.executor.work.value.claim.epoch
  }

  predicate InTime(w: World, j: JobId) { j in w.db.jobs && w.db.now < w.db.jobs[j].leaseUntil }

  // Not finished, and either never claimed or claimed by somebody whose time is over.
  predicate Available(x: Job, now: int) {
    x.state.Pending? || ((x.state.Leased? || x.state.Staged? || x.state.Promoted? || x.state.Swapped? ||
                          x.state.Cleanup?) && x.leaseUntil <= now)
  }

  // ----- The life of a job -----

  // The one way in which a step may change the state of a job.
  ghost predicate Rightful(w: World, l: Label, j: JobId, x: Job, y: Job)
    requires Enabled(w, l)
  {
    match y.state
    case Leased => x.state.Pending? && l.LClaim? && j in l.chosen
    case Staged => x.state.Leased? && l.LWork? && UnderClaim(w, j) && InTime(w, j) && y.copy.Some?
    case Promoted =>
      x.state.Staged? && l.LWork? && UnderClaim(w, j) && InTime(w, j) && x.copy.Some? && y.copy == x.copy &&
      Holds(w.disk.objects, x.copy.value)
    case Swapped => x.state.Promoted? && l.LSwap? && UnderClaim(w, j) && InTime(w, j) && Moves(w, l, x)
    case Completed => x.state.Swapped? && l.LFinish? && w.executor.Cleaning? && j in w.executor.done
    case Failed => (l == LExhaust(j) && Available(x, w.db.now)) || (l == LFail(true) && UnderClaim(w, j))
    case _ => false
  }

  // The row was the one planned for, the copy is sealed for it, and the row takes it up under the new generation.
  ghost predicate Moves(w: World, l: Label, x: Job)
    requires Enabled(w, l)
  {
    && x.target in w.db.rows && w.db.rows[x.target].generation == x.oldGeneration
    && w.db.rows[x.target].copy.name == x.oldName && x.copy.Some?
    && x.seal == Some(Aad(w.db.rows[x.target].subject, x.newGeneration))
    && Next(w, l).db.rows ==
         w.db.rows[x.target := Row(w.db.rows[x.target].subject, x.newGeneration, x.copy.value)]
  }

  // What is about to be acknowledged, and what was found in place, is what the job registered.
  ghost predicate AckOk(w: World) {
    AtWork(w) && TheWork(w).copy.Some? &&
    (TheWork(w).phase.ToAck? || (TheWork(w).phase.ToUnlinkStage? && TheWork(w).phase.verified)) ==>
      Holds(w.disk.objects, TheWork(w).copy.value)
  }

  lemma AckStep(w: World, l: Label)
    requires Safe(w) && AckOk(w) && Enabled(w, l)
    ensures AckOk(Next(w, l))
  {
    if l.LUnlinkOld? { assert JobOk(w, l.job); }
  }

  lemma {:induction false} RunsAck(now: int, run: seq<Label>)
    requires Legal(now, run)
    ensures AckOk(After(now, run))
    decreases |run|
  {
    if run != [] {
      RunsAck(now, run[..|run| - 1]);
      RunsStaySafe(now, run[..|run| - 1]);
      AckStep(After(now, run[..|run| - 1]), run[|run| - 1]);
    }
  }

  lemma RightfulWork(w: World, j: JobId)
    requires Safe(w) && AckOk(w) && Enabled(w, LWork) && j in w.db.jobs
    requires DoWork(w).db.jobs[j].state != w.db.jobs[j].state
    ensures Rightful(w, LWork, j, w.db.jobs[j], DoWork(w).db.jobs[j])
  {
    assert JobOk(w, j);
  }

  lemma RightfulSwap(w: World, horizon: nat, j: JobId)
    requires Safe(w) && Enabled(w, LSwap(horizon)) && j in w.db.jobs
    requires DoSwap(w, horizon).db.jobs[j].state != w.db.jobs[j].state
    ensures Rightful(w, LSwap(horizon), j, w.db.jobs[j], DoSwap(w, horizon).db.jobs[j])
  {
    assert JobOk(w, j);
  }

  lemma RightfulRest(w: World, l: Label, j: JobId)
    requires Safe(w) && Enabled(w, l) && !l.LWork? && !l.LSwap? && j in w.db.jobs && j in Next(w, l).db.jobs
    requires Next(w, l).db.jobs[j].state != w.db.jobs[j].state && NoneCleaned(w)
    ensures Rightful(w, l, j, w.db.jobs[j], Next(w, l).db.jobs[j])
  {
    assert CleanOk(w, j);
  }

  // The intermediate state is left again in the transaction that enters it.
  ghost predicate NoneCleaned(w: World) { forall j | j in w.db.jobs :: !w.db.jobs[j].state.Cleanup? }

  lemma NoneCleanedStep(w: World, l: Label)
    requires NoneCleaned(w) && Enabled(w, l)
    ensures NoneCleaned(Next(w, l))
  {
  }

  lemma {:induction false} RunsCleanNone(now: int, run: seq<Label>)
    requires Legal(now, run)
    ensures NoneCleaned(After(now, run))
    decreases |run|
  {
    if run != [] {
      RunsCleanNone(now, run[..|run| - 1]);
      NoneCleanedStep(After(now, run[..|run| - 1]), run[|run| - 1]);
    }
  }

  lemma JobsStay(w: World, l: Label, j: JobId)
    requires Enabled(w, l) && j in w.db.jobs
    ensures j in Next(w, l).db.jobs
  {
  }

  /** In every run, failing file calls, damaged copies and crashes included, a job's state changes only from pending
      to leased to staged to promoted to swapped to completed, or to failed, and each change only by the step
      and under the claim that it takes: registering, acknowledging and swapping before the lease runs out,
      acknowledging only what is in place as registered, and swapping only the row that was planned for. */
  lemma JobsLiveRightfully(now: int, run: seq<Label>, l: Label, j: JobId)
    requires Legal(now, run) && Enabled(After(now, run), l) && j in After(now, run).db.jobs
    ensures var w := After(now, run); var v := Next(w, l);
            && j in v.db.jobs
            && (v.db.jobs[j].state != w.db.jobs[j].state ==> Rightful(w, l, j, w.db.jobs[j], v.db.jobs[j]))
  {
    var w := After(now, run);
    RunsStaySafe(now, run);
    RunsAck(now, run);
    RunsCleanNone(now, run);
    JobsStay(w, l, j);
    if Next(w, l).db.jobs[j].state != w.db.jobs[j].state {
      if l.LWork? { RightfulWork(w, j); }
      else if l.LSwap? { RightfulSwap(w, l.horizon, j); }
      else { RightfulRest(w, l, j); }
    }
  }

  // ----- Claims -----

  /** A job's claim changes only when it is available, is then newer than all before, and lasts as granted; a job
      that was claimed too often fails as it is, and a completed one has no claim left. */
  lemma ClaimsAreFenced(w: World, l: Label, j: JobId)
    requires Enabled(w, l) && j in w.db.jobs && j in Next(w, l).db.jobs
    ensures var x, y := w.db.jobs[j], Next(w, l).db.jobs[j];
            && (y.epoch != x.epoch ==>
                l.LClaim? && j in l.chosen && Available(x, w.db.now) && y.epoch == x.epoch + 1 && y.token == l.token &&
                y.leaseUntil == l.until)
            && (l.LClaim? && j in l.chosen ==> y.epoch == x.epoch + 1)
            && (l == LExhaust(j) ==> y == x.(state := Failed))
            && (y.state.Completed? && !x.state.Completed? ==> y.token == 0 && y.leaseUntil == 0)
  {
  }

  /** Whenever a job is available, a free executor can claim it. */
  lemma AvailableIsClaimable(w: World, j: JobId, token: Token, until: int)
    requires j in w.db.jobs
    ensures Enabled(w, LClaim({j}, token, until)) <==>
            Available(w.db.jobs[j], w.db.now) && (w.executor.Idle? || w.executor == Working(map[], None))
  {
    assert Available(w.db.jobs[j], w.db.now) <==> Claimable(w, j);
  }

  lemma {:induction false} EpochsGrow(now: int, run: seq<Label>, n: nat, j: JobId)
    requires Legal(now, run) && n <= |run| && Legal(now, run[..n]) && j in After(now, run[..n]).db.jobs
    ensures j in After(now, run).db.jobs
    ensures After(now, run[..n]).db.jobs[j].epoch <= After(now, run).db.jobs[j].epoch
    decreases |run|
  {
    if n == |run| {
      assert run[..n] == run;
    } else {
      var before := run[..|run| - 1];
      assert before[..n] == run[..n];
      EpochsGrow(now, before, n, j);
      JobsStay(After(now, before), run[|run| - 1], j);
      ClaimsAreFenced(After(now, before), run[|run| - 1], j);
    }
  }

  /** In every run, two claims of one job have different epochs, the later the larger. */
  lemma ClaimsDiffer(now: int, run: seq<Label>, n: nat, j: JobId)
    requires Legal(now, run) && n < |run| - 1 && Legal(now, run[..n]) && Legal(now, run[..n + 1])
    requires run[n].LClaim? && j in run[n].chosen && run[|run| - 1].LClaim? && j in run[|run| - 1].chosen
    ensures j in After(now, run[..n + 1]).db.jobs && j in After(now, run).db.jobs
    ensures After(now, run[..n + 1]).db.jobs[j].epoch < After(now, run).db.jobs[j].epoch
  {
    assert run[..n + 1][..n] == run[..n] && run[..n + 1][n] == run[n];
    var before := run[..|run| - 1];
    JobsStay(After(now, run[..n]), run[n], j);
    assert before[..n + 1] == run[..n + 1];
    EpochsGrow(now, before, n + 1, j);
    JobsStay(After(now, before), run[|run| - 1], j);
    ClaimsAreFenced(After(now, before), run[|run| - 1], j);
  }

  // ----- Resuming and failing -----

  /** Work on a copy begins only with the copy that the job registered, and only if it is sealed for the row as it
      is; a claimed job with something registered that does not fit is failed. */
  lemma BeginChecksSeal(w: World, j: JobId)
    requires Enabled(w, LBegin(j))
    ensures var v, c := DoBegin(w, j), w.executor.batch[j];
            var sealed := c.seal == Some(Aad(w.db.rows[c.target].subject, c.newGeneration));
            && (AtWork(v) && TheWork(v).copy.Some? ==> TheWork(v).copy == c.copy && sealed)
            && (c.copy.Some? && (c.state.Leased? || !sealed) ==> At(v, ToFail))
            && (At(v, ToEncrypt) <==> c.state.Leased? && c.copy.None?)
  {
  }

  // What is looked at is not there as registered.
  predicate FindsWrong(w: World) {
    AtWork(w) && TheWork(w).copy.Some? &&
    var k, files := TheWork(w), w.disk.objects;
    match k.phase
    case ToProbe =>
      k.copy.value.name in files && !Holds(files, k.copy.value) &&
      files[k.copy.value.name].plaintext.length == k.copy.value.digest.plaintext.length
    case ToCheck => !Holds(files, k.copy.value)
    case ToVerify => ReadCopy(files, k.copy.value, k.claim.newGeneration, k.row.subject).None?
    case _ => false
  }

  /** Whatever looks at a copy and finds it otherwise than registered turns to deleting it. */
  lemma MismatchIsDeleted(w: World)
    requires FindsWrong(w)
    ensures Enabled(w, LWork) && AtCopy(DoWork(w), ToDelete) && DoWork(w).db == w.db && DoWork(w).disk == w.disk
  {
  }

  /** From there, if the file can be deleted and the job updated, the copy's object file is gone and the job has
      failed, while all rows are as they were. */
  lemma TroubleEndsInFailure(w: World) returns (v: World)
    requires AtCopy(w, ToDelete) && Fenced(w, TheWork(w))
    ensures Enabled(w, LDelete(true)) && Enabled(Next(w, LDelete(true)), LFail(true))
    ensures v == Next(Next(w, LDelete(true)), LFail(true)) && v.db.rows == w.db.rows && v.executor.Idle?
    ensures TheWork(w).copy.value.name !in v.disk.objects
    ensures v.db.jobs == w.db.jobs[TheWork(w).job := w.db.jobs[TheWork(w).job].(state := Failed)]
  {
    v := Next(Next(w, LDelete(true)), LFail(true));
  }

  // The executor is not at work on the job, and has neither claimed nor selected it.
  predicate LetGo(w: World, j: JobId) {
    match w.executor
    case Idle => true
    case Working(batch, work) => j !in batch && (work.Some? ==> work.value.job != j)
    case Cleaning(todo, done) => j !in todo && j !in done
  }

  predicate Lost(w: World, j: JobId) { j in w.db.jobs && w.db.jobs[j].state.Failed? && LetGo(w, j) }

  lemma LostStep(w: World, l: Label, j: JobId)
    requires Enabled(w, l) && Lost(w, j)
    ensures Lost(Next(w, l), j)
  {
  }

  lemma LostBegins(w: World, l: Label, j: JobId)
    requires Enabled(w, l) && j in Next(w, l).db.jobs && Next(w, l).db.jobs[j].state.Failed?
    requires j !in w.db.jobs || !w.db.jobs[j].state.Failed?
    ensures Lost(Next(w, l), j)
  {
  }

  lemma {:induction false} FailedAreLost(now: int, run: seq<Label>, j: JobId)
    requires Legal(now, run) && j in After(now, run).db.jobs && After(now, run).db.jobs[j].state.Failed?
    ensures Lost(After(now, run), j)
    decreases |run|
  {
    if run != [] {
      var before := run[..|run| - 1];
      if j in After(now, before).db.jobs && After(now, before).db.jobs[j].state.Failed? {
        FailedAreLost(now, before, j);
        LostStep(After(now, before), run[|run| - 1], j);
      } else {
        LostBegins(After(now, before), run[|run| - 1], j);
      }
    }
  }

  /** In every run, a job that has failed stays failed. */
  lemma {:induction false} FailedForGood(now: int, run: seq<Label>, n: nat, j: JobId)
    requires Legal(now, run) && n <= |run| && Legal(now, run[..n])
    requires j in After(now, run[..n]).db.jobs && After(now, run[..n]).db.jobs[j].state.Failed?
    ensures j in After(now, run).db.jobs && After(now, run).db.jobs[j].state.Failed?
    decreases |run|
  {
    if n == |run| {
      assert run[..n] == run;
    } else {
      var before := run[..|run| - 1];
      assert before[..n] == run[..n];
      FailedForGood(now, before, n, j);
      FailedAreLost(now, before, j);
      LostStep(After(now, before), run[|run| - 1], j);
    }
  }
}
