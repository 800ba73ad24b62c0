/** A rotation from its plan to its completion, and what a completed job leaves behind. */
module RotationCompletion {
  import opened Options
  import opened Rotation
  import opened RotationSafety
  import opened RotationResume

  // ----- A completed job's old file is gone, in every run -----

  ghost predicate OldGone(w: World, j: JobId) {
    && (j in w.db.jobs ==> !w.db.jobs[j].state.Cleanup?)
    && (j in w.db.jobs && w.db.jobs[j].state.Completed? ==>
          w.db.jobs[j].oldName in w.past.published && w.db.jobs[j].oldName !in w.disk.objects)
    && (w.executor.Cleaning? && j in w.executor.done && j in w.db.jobs ==>
          w.db.jobs[j].oldName in w.past.published && w.db.jobs[j].oldName !in w.disk.objects)
  }

  // A published name that has no file never gets one again.
  lemma GoneStaysGone(w: World, l: Label, n: Name)
    requires Drawn(w, n) && WorkOk(w) && Enabled(w, l) && n in w.past.published && n !in w.disk.objects
    ensures n in Next(w, l).past.published && n !in Next(w, l).disk.objects
  {
  }

  // The cleanup of a job, and the end of all cleanups.
  lemma OldGoneCleaning(w: World, l: Label, j: JobId)
    requires Safe(w) && Enabled(w, l) && OldGone(w, j) && (l.LUnlinkOld? || l.LFinish? || l.LSelect?)
    ensures OldGone(Next(w, l), j)
  {
    assert JobOk(w, j) && CleanOk(w, j);
    if j in w.db.jobs && w.db.jobs[j].oldName !in w.disk.objects {
      assert Drawn(w, w.db.jobs[j].oldName);
      GoneStaysGone(w, l, w.db.jobs[j].oldName);
    }
  }

  // No other step completes a job or cleans one up.
  lemma OthersComplete(w: World, l: Label, j: JobId)
    requires Enabled(w, l) && !(l.LUnlinkOld? || l.LFinish? || l.LSelect?) && j in Next(w, l).db.jobs
    ensures var v := Next(w, l);
            && (v.db.jobs[j].state.Cleanup? || v.db.jobs[j].state.Completed? ==>
                j in w.db.jobs && w.db.jobs[j].state == v.db.jobs[j].state)
            && (j in w.db.jobs ==> v.db.jobs[j].oldName == w.db.jobs[j].oldName)
            && (v.executor.Cleaning? ==> w.executor == v.executor)
  {
  }

  lemma OldGoneStep(w: World, l: Label, j: JobId)
    requires Safe(w) && Enabled(w, l) && OldGone(w, j)
    ensures OldGone(Next(w, l), j)
  {
    if l.LUnlinkOld? || l.LFinish? || l.LSelect? {
      OldGoneCleaning(w, l, j);
    } else {
      assert CleanOk(w, j);
      if j in w.db.jobs && w.db.jobs[j].oldName in w.past.published && w.db.jobs[j].oldName !in w.disk.objects {
        assert Drawn(w, w.db.jobs[j].oldName);
        GoneStaysGone(w, l, w.db.jobs[j].oldName);
      }
      if j in Next(w, l).db.jobs { OthersComplete(w, l, j); }
    }
  }

  lemma {:induction false} OldFilesGo(now: int, run: seq<Label>, j: JobId)
    requires Legal(now, run)
    ensures OldGone(After(now, run), j)
    decreases |run|
  {
    if run != [] {
      OldFilesGo(now, run[..|run| - 1], j);
      RunsStaySafe(now, run[..|run| - 1]);
      OldGoneStep(After(now, run[..|run| - 1]), run[|run| - 1], j);
    }
  }

  /** In every run, crashes and failing file calls included, the old file of a completed job is gone, and the
      row it was for has moved on to another. */
  lemma CompletedLeavesNothing(now: int, run: seq<Label>, j: JobId)
    requires Legal(now, run) && j in After(now, run).db.jobs && After(now, run).db.jobs[j].state.Completed?
    ensures var w := After(now, run);
            && w.db.jobs[j].oldName !in w.disk.objects && w.db.jobs[j].target in w.db.rows
            && w.db.rows[w.db.jobs[j].target].copy.name != w.db.jobs[j].oldName
  {
    OldFilesGo(now, run, j);
    RunsStaySafe(now, run);
    assert JobOk(After(now, run), j) && RowOk(After(now, run), After(now, run).db.jobs[j].target);
  }

  // ----- From plan to completion -----

  predicate Rotates(l: Label) {
    Executes(l) || l.LPlan? || l.LClaim? || l.LTick? || l.LSelect? || l.LUnlinkOld? || l.LFinish?
  }

  // What the executor's steps leave alone.
  ghost predicate Same(w: World, v: World, o: ObjectId, j: JobId) {
    && (v.executor.Working? ==> w.executor.Working? && v.executor.batch.Keys <= w.executor.batch.Keys)
    && v.db.leases == w.db.leases && v.past.origin == w.past.origin && (o in w.db.rows ==> o in v.db.rows)
    && (j in w.db.jobs ==>
          j in v.db.jobs && v.db.jobs[j].target == w.db.jobs[j].target &&
          v.db.jobs[j].oldName == w.db.jobs[j].oldName && v.db.jobs[j].newGeneration == w.db.jobs[j].newGeneration)
  }

  lemma ExecutesKeeps(w: World, l: Label, o: ObjectId, j: JobId)
    requires Enabled(w, l) && Executes(l)
    ensures Same(w, Next(w, l), o, j) && Next(w, l).db.now == w.db.now
  {
  }

  lemma {:induction false} ExecutedKeeps(now: int, run: seq<Label>, longer: seq<Label>, o: ObjectId, j: JobId)
    requires Legal(now, run) && Legal(now, longer) && Executed(run, longer)
    ensures Same(After(now, run), After(now, longer), o, j) && After(now, longer).db.now == After(now, run).db.now
    decreases |longer|
  {
    if |longer| == |run| {
      assert longer == run;
    } else {
      var n := |longer| - 1;
      assert run <= longer[..n];
      ExecutedKeeps(now, run, longer[..n], o, j);
      ExecutesKeeps(After(now, longer[..n]), longer[n], o, j);
    }
  }

  lemma Extended(now: int, run: seq<Label>, l: Label) returns (longer: seq<Label>)
    requires Legal(now, run) && Along(now, run, Smooth) && Enabled(After(now, run), l) && Smooth(After(now, run), l)
    ensures longer == run + [l] && Legal(now, longer) && Along(now, longer, Smooth)
    ensures After(now, longer) == Next(After(now, run), l)
  {
    longer := run + [l];
    assert longer[..|longer| - 1] == run;
  }

  lemma PlanAndClaim(now: int, run: seq<Label>, o: ObjectId, j: JobId, generation: Generation, token: Token, until: int)
    returns (longer: seq<Label>)
    requires Legal(now, run) && Along(now, run, Smooth)
    requires var w := After(now, run); Free(w) && o in w.db.rows && j !in w.db.jobs && w.db.now < until
    ensures longer == run + [LPlan(j, o, generation)] + [LClaim({j}, token, until)]
    ensures Legal(now, longer) && Along(now, longer, Smooth) && Startable(After(now, longer), j)
    ensures var w, v := After(now, run), After(now, longer);
            && v.executor.batch.Keys == {j}
            && v.past == w.past && v.db.leases == w.db.leases && v.db.rows == w.db.rows && v.db.now == w.db.now
            && v.db.jobs[j].target == o && v.db.jobs[j].newGeneration == generation
            && v.db.jobs[j].oldName == w.db.rows[o].copy.name
  {
    longer := Extended(now, run, LPlan(j, o, generation));
    assert Claimable(After(now, longer), j);
    longer := Extended(now, longer, LClaim({j}, token, until));
  }

  // The old file may go at this time, as far as leases are concerned.
  predicate Quiet(w: World, o: ObjectId, later: int) {
    forall id | id in w.db.leases && w.db.leases[id].target == o :: w.db.leases[id].until <= later
  }

  predicate ByRotation(run: seq<Label>, longer: seq<Label>) {
    run <= longer && forall i | |run| <= i < |longer| :: Rotates(longer[i])
  }

  // The world after the cleanup of one job.
  lemma CleanSteps(w: World, j: JobId, copy: Option<Copy>, horizon: nat, later: int) returns (v: World, u: World)
    requires RotationResume.Swapped(w, j, copy, horizon) && Free(w)
    requires w.db.now + horizon <= later && Quiet(w, w.db.jobs[j].target, later)
    ensures v == DoTick(w, later) && Free(v) && Due(v, j)
    ensures Enabled(DoSelect(v, {j}), LUnlinkOld(j)) && Enabled(DoUnlinkOld(DoSelect(v, {j}), j), LFinish)
    ensures u == DoFinish(DoUnlinkOld(DoSelect(v, {j}), j)) && u.db.rows == w.db.rows && u.past == w.past
    ensures j in u.db.jobs && u.db.jobs[j].state.Completed? && u.db.jobs[j].oldName == w.db.jobs[j].oldName
    ensures u.db.jobs[j].target == w.db.jobs[j].target
  {
    v := DoTick(w, later);
    assert {j} - {j} == {} && {} + {j} == {j};
    u := DoFinish(DoUnlinkOld(DoSelect(v, {j}), j));
  }

  lemma Step(now: int, run: seq<Label>, l: Label, v: World) returns (longer: seq<Label>)
    requires Legal(now, run) && Along(now, run, Smooth) && Enabled(After(now, run), l) && Smooth(After(now, run), l)
    requires Next(After(now, run), l) == v
    ensures longer == run + [l] && Legal(now, longer) && Along(now, longer, Smooth) && After(now, longer) == v
  {
    longer := Extended(now, run, l);
  }

  lemma CleanLabels(now: int, run: seq<Label>, w: World, j: JobId, later: int, v: World, u: World)
    returns (longer: seq<Label>)
    requires Legal(now, run) && Along(now, run, Smooth) && After(now, run) == w && w.db.now <= later
    requires v == DoTick(w, later) && Free(v) && Due(v, j)
    requires Enabled(DoSelect(v, {j}), LUnlinkOld(j)) && Enabled(DoUnlinkOld(DoSelect(v, {j}), j), LFinish)
    requires u == DoFinish(DoUnlinkOld(DoSelect(v, {j}), j))
    ensures Legal(now, longer) && After(now, longer) == u
    ensures longer == run + [LTick(later)] + [LSelect({j})] + [LUnlinkOld(j)] + [LFinish]
  {
    var selected := DoSelect(v, {j});
    var gone := DoUnlinkOld(selected, j);
    assert Next(w, LTick(later)) == v && Next(v, LSelect({j})) == selected;
    assert Next(selected, LUnlinkOld(j)) == gone && Next(gone, LFinish) == u;
    longer := Step(now, run, LTick(later), v);
    longer := Step(now, longer, LSelect({j}), selected);
    longer := Step(now, longer, LUnlinkOld(j), gone);
    longer := Step(now, longer, LFinish, u);
  }

  lemma CleanUp(now: int, run: seq<Label>, j: JobId, copy: Option<Copy>, horizon: nat, later: int)
    returns (longer: seq<Label>)
    requires Legal(now, run) && Along(now, run, Smooth) && RotationResume.Swapped(After(now, run), j, copy, horizon)
    requires var w := After(now, run);
             Free(w) && w.db.now + horizon <= later && Quiet(w, w.db.jobs[j].target, later)
    ensures Legal(now, longer) && ByRotation(run, longer)
    ensures var w, v := After(now, run), After(now, longer);
            && v.db.rows == w.db.rows && v.past == w.past && j in v.db.jobs && v.db.jobs[j].state.Completed?
            && v.db.jobs[j].oldName == w.db.jobs[j].oldName && v.db.jobs[j].target == w.db.jobs[j].target
  {
    var v, u := CleanSteps(After(now, run), j, copy, horizon, later);
    longer := CleanLabels(now, run, After(now, run), j, later, v, u);
  }

  // The job is completed, and the row reads as it did, but under the new generation and from another file.
  ghost predicate Rotated(w: World, v: World, o: ObjectId, j: JobId, generation: Generation) {
    && o in w.db.rows && o in w.past.origin && o in v.db.rows
    && j in v.db.jobs && v.db.jobs[j].state.Completed? && v.db.jobs[j].target == o
    && v.db.rows[o].generation == generation
    && ReadRow(w.disk.objects, w.db.rows[o]) == Some(w.past.origin[o])
    && ReadRow(v.disk.objects, v.db.rows[o]) == Some(w.past.origin[o])
    && w.db.rows[o].copy.name !in v.disk.objects
  }

  // Planned for the row as it was, and swapped.
  ghost predicate MovedOn(w: World, v: World, o: ObjectId, j: JobId, generation: Generation, horizon: nat) {
    && Free(v) && j in v.db.jobs && RotationResume.Swapped(v, j, v.db.jobs[j].copy, horizon)
    && o in w.db.rows && v.db.jobs[j].target == o && v.db.jobs[j].newGeneration == generation
    && v.db.jobs[j].oldName == w.db.rows[o].copy.name
    && v.db.leases == w.db.leases && v.db.now == w.db.now && v.past.origin == w.past.origin
  }

  lemma PlanToSwap(now: int, run: seq<Label>, o: ObjectId, j: JobId, generation: Generation, token: Token,
                   until: int, name: Name, nonce: int, horizon: nat)
    returns (longer: seq<Label>)
    requires Legal(now, run) && Along(now, run, Smooth)
    requires var w := After(now, run);
             Free(w) && o in w.db.rows && j !in w.db.jobs && w.db.now < until && name !in w.past.names
    ensures Legal(now, longer) && Along(now, longer, Smooth) && ByRotation(run, longer)
    ensures MovedOn(After(now, run), After(now, longer), o, j, generation, horizon)
  {
    var claimed := PlanAndClaim(now, run, o, j, generation, token, until);
    longer := FirstClaimReachesSwap(now, claimed, j, name, nonce, horizon);
    ExecutedKeeps(now, claimed, longer, o, j);
    assert After(now, longer).executor.batch == map[];
  }

  /** Every object can be rotated: from any run whose file calls succeed and that leaves the executor free, a plan
      for any row, a claim and the executor's own steps, with time to pass until the rollback horizon and the
      leases on the row are over, end in a completed job, and the row then reads as the original under the new
      generation, while its old file is gone. */
  lemma EveryRowCanBeRotated(now: int, run: seq<Label>, o: ObjectId, j: JobId, generation: Generation, token: Token,
                             until: int, name: Name, nonce: int, horizon: nat, later: int)
    returns (longer: seq<Label>)
    requires Legal(now, run) && Along(now, run, Smooth)
    requires var w := After(now, run);
             && Free(w) && o in w.db.rows && j !in w.db.jobs && w.db.now < until && name !in w.past.names
             && w.db.now + horizon <= later && Quiet(w, o, later)
    ensures Legal(now, longer) && ByRotation(run, longer)
    ensures Rotated(After(now, run), After(now, longer), o, j, generation)
  {
    var w := After(now, run);
    RunsStaySafe(now, run);
    assert RowOk(w, o);
    var moved := PlanToSwap(now, run, o, j, generation, token, until, name, nonce, horizon);
    longer := CleanUp(now, moved, j, After(now, moved).db.jobs[j].copy, horizon, later);
    CompletedLeavesNothing(now, longer, j);
    RunsStaySafe(now, longer);
    assert RowOk(After(now, longer), o);
  }

  // ----- Recovery -----

  // Neither swapped nor given up, for a row that is still the one planned for, and nobody's claim runs.
  predicate Waiting(w: World, j: JobId) {
    && Free(w) && j in w.db.jobs && Current(w, w.db.jobs[j])
    && match w.db.jobs[j].state
       case Pending => true
       case Leased => w.db.jobs[j].leaseUntil <= w.db.now
       case Staged => w.db.jobs[j].leaseUntil <= w.db.now
       case Promoted => w.db.jobs[j].leaseUntil <= w.db.now
       case _ => false
  }

  lemma ClaimIsTaken(w: World, j: JobId, token: Token, until: int)
    requires Waiting(w, j) && w.db.now < until
    ensures Enabled(w, LClaim({j}, token, until))
    ensures var v := DoClaim(w, {j}, token, until);
            if w.db.jobs[j].state.Staged? || w.db.jobs[j].state.Promoted? then Resumable(v, j) else Startable(v, j)
    ensures DoClaim(w, {j}, token, until).past == w.past
  {
    assert Claimable(w, j);
  }

  /** Whatever a crash left behind: in every run whose file calls succeed, any job that is not swapped yet, for a row
      that is still the one planned for, once claims on it have run out, is claimed and carried on to the swap
      by the executor's own steps, and the row then reads as the original under the job's generation. */
  lemma EveryJobCanBeFinished(now: int, run: seq<Label>, j: JobId, token: Token, until: int, name: Name, nonce: int,
                              horizon: nat)
    returns (longer: seq<Label>, copy: Option<Copy>)
    requires Legal(now, run) && Along(now, run, Smooth)
    requires var w := After(now, run); Waiting(w, j) && w.db.now < until && name !in w.past.names
    ensures Legal(now, longer) && ByRotation(run, longer)
    ensures RotationResume.Swapped(After(now, longer), j, copy, horizon)
    ensures var v := After(now, longer); var o := v.db.jobs[j].target;
            o in v.past.origin && ReadRow(v.disk.objects, v.db.rows[o]) == Some(v.past.origin[o])
  {
    ClaimIsTaken(After(now, run), j, token, until);
    var claimed := Extended(now, run, LClaim({j}, token, until));
    longer, copy := FinishClaimed(now, claimed, j, name, nonce, horizon);
    assert ByRotation(run, longer) by {
      assert forall i | |run| <= i < |longer| :: if i == |run| then longer[i] == LClaim({j}, token, until)
                                                 else Executes(longer[i]);
    }
    RunsStaySafe(now, longer);
    assert RowOk(After(now, longer), After(now, longer).db.jobs[j].target);
  }

  lemma FinishClaimed(now: int, run: seq<Label>, j: JobId, name: Name, nonce: int, horizon: nat)
    returns (longer: seq<Label>, copy: Option<Copy>)
    requires Legal(now, run) && Along(now, run, Smooth) && name !in After(now, run).past.names
    requires Resumable(After(now, run), j) || Startable(After(now, run), j)
    ensures Legal(now, longer) && Executed(run, longer)
    ensures RotationResume.Swapped(After(now, longer), j, copy, horizon)
  {
    var w := After(now, run);
    if Resumable(w, j) {
      longer := ResumeReachesSwap(now, run, j, horizon);
      copy := w.db.jobs[j].copy;
    } else {
      longer := FirstClaimReachesSwap(now, run, j, name, nonce, horizon);
      copy := Some(NewCopy(w, w.db.jobs[j], name, nonce));
    }
  }
}
