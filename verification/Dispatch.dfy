/**
 One durable dispatch, from preparing the adapter to replaying what was settled.

 The coordinator is written as it runs: each `await` whose answer comes from elsewhere (authority,
 adapter, clock, owner, renewal task) is an arbitrary choice. What it did and was told is kept as a
 trace; `DispatchTrace` says what every such trace is like, and which result it calls for.
 */
module Dispatch {
  import opened Options
  import opened DispatchTrace

  // The dispatch is where it was, and no trouble has gone away.
  predicate Steady(a: View, b: View) {
    && a.course == b.course && (a.watch.lost ==> b.watch.lost)
    && (a.watch.balked ==> b.watch.balked) && (a.watch.unjoined ==> b.watch.unjoined)
  }

  lemma ReasonLasts(p: Profile, a: View, b: View, error: Error)
    requires Steady(a, b) && a.answer == b.answer && Reason(p, a, error)
    ensures Reason(p, b, error)
  {
  }

  // The renewal task, if any, has ended, or was aborted for being late.
  predicate Halted(v: View) { v.watch.started ==> v.watch.joined || v.watch.lost || v.watch.unjoined }

  lemma FaithfulLasts(p: Profile, a: View, b: View, r: Result)
    requires Steady(a, b) && a.answer == b.answer && Faithful(p, a, r)
    ensures Faithful(p, b, r)
  {
    if r.Failed? && !a.course.overruled { ReasonLasts(p, a, b, r.error); }
  }

  datatype Admitted = Refused(error: Error) | Ready(pollerDone: bool)

  datatype Executed = Broke(error: Error) | Ended(outcome: Outcome)

  // ----- The coordinator -----

  class Coordinator {
    const profile: Profile
    ghost const lawful: (seq<Event>, View) -> bool
    var trace: seq<Event>
    var lease: Lease
    // The renewal task: whether it was started and joined, the last value it published, whether it
    // panicked, and whether its handle has been taken to join it.
    var started: bool
    var joined: bool
    var latest: Option<Lease>
    var panicked: bool
    var taken: bool
    ghost var view: View

    constructor (profile: Profile, ghost lawful: (seq<Event>, View) -> bool)
      requires lawful([], NOTHING) && Closed(profile, lawful)
      ensures Valid() && view == NOTHING && !started && !taken && !panicked
      ensures this.profile == profile && this.lawful == lawful
    {
      this.profile, this.lawful := profile, lawful;
      trace, started, joined, latest, panicked, taken := [], false, false, None, false, false;
      lease := Lease(0, 0, 0);
      view := NOTHING;
    }

    ghost predicate Kept()
      reads `trace, `view
    {
      lawful(trace, view) && Closed(profile, lawful)
    }

    predicate Lossy()
      reads `started, `latest, `panicked
    {
      started && (latest.None? || panicked)
    }

    ghost predicate Valid()
      reads this
    {
      && Kept()
      && view.watch.started == started && view.watch.joined == joined && view.watch.lost == Lossy()
      && (started && latest.Some? ==> view.lease == latest) && (joined ==> taken && !panicked)
      && (started && taken ==> joined || view.watch.lost || view.watch.unjoined)
    }

    // After `begin_receive` handed out the lease.
    ghost predicate Holding()
      reads this
    {
      && Valid() && started == profile.renews && (!started ==> view.lease == Some(lease))
      && view.lease.Some? && !view.course.overruled
    }

    // There is no answer to pass on, but a reason to fail.
    ghost predicate Excused(error: Error)
      reads this
    {
      Holding() && !Answers(view) && Reason(profile, view, error)
    }

    method Note(e: Event)
      requires Kept() && Proper(profile, view, e)
      modifies `trace, `view
      ensures Kept() && view == Advance(old(view), e)
    {
      trace := trace + [e];
      view := Advance(view, e);
    }

    // Whether somebody stands in the way here.
    method Obstructed() returns (b: bool)
      ensures b ==> !profile.calm
    {
      b := *;
      if profile.calm { b := false; }
    }

    method Balk()
      requires Holding() && !profile.calm
      modifies `trace, `view
      ensures Holding() && view == old(view).(watch := old(view).watch.(balked := true))
    {
      Note(Balked);
    }

    method RenewalStep()
      requires Holding() && started && !joined && !Lossy()
      modifies `trace, `view, `latest, `panicked
      ensures Holding() && Steady(old(view), view) && view.answer == old(view.answer) &&
              view.watch.lossWon == old(view.watch.lossWon)
      ensures if Lossy() then view.watch.lost && view.lease == old(view.lease)
              else latest.Some? && view.lease == latest &&
                   latest.value.token == old(latest).value.token && latest.value.epoch == old(latest).value.epoch
    {
      var fails := Obstructed();
      if !fails {
        var until: int := *;
        var next := latest.value.(until := until);
        Note(Renewed(next));
        latest := Some(next);
      } else {
        Note(RenewalLost);
        if * { latest := None; } else { panicked := true; }
      }
    }

    // Whatever the renewal task does while the coordinator waits.
    method Wait()
      requires Holding()
      modifies `trace, `view, `latest, `panicked
      ensures Holding() && Steady(old(view), view) && view.answer == old(view.answer) &&
              view.watch.lossWon == old(view.watch.lossWon)
      ensures joined || !started ==> view.lease == old(view.lease) && view.watch.lost == old(view.watch.lost)
    {
      var n: nat := *;
      while n > 0 && started && !joined && !Lossy()
        invariant Holding() && Steady(old(view), view) && view.answer == old(view.answer) &&
                  view.watch.lossWon == old(view.watch.lossWon)
        invariant joined || !started ==> view.lease == old(view.lease) && view.watch.lost == old(view.watch.lost)
      {
        n := n - 1;
        RenewalStep();
      }
    }

    // A branch of a `select` that waits for the loss of the lease, polled first.
    method LossBranch() returns (won: bool)
      requires Holding()
      modifies `trace, `view, `latest, `panicked
      ensures Holding() && won == Lossy()
      ensures Steady(old(view), view) && view.answer == old(view.answer) &&
              view.watch.lossWon == (old(view.watch.lossWon) || won)
    {
      Wait();
      won := Lossy();
      if won { Note(LossWon); }
    }

    // The authority is asked whether cancellation was requested; no answer is an error or the phase bound.
    method Query() returns (answer: Answer)
      requires Holding() && (view.watch.lost ==> view.course.polled)
      modifies `trace, `view
      ensures Holding() && Steady(old(view), view) && view.watch.lossWon == old(view.watch.lossWon)
      ensures view.answer == if answer.Unasked? then old(view.answer) else answer
      ensures view.lease == old(view.lease) && (answer.Unasked? ==> view.watch.balked)
    {
      answer := *;
      if answer.Unasked? && profile.calm { answer := NotRequested; }
      if answer.Unasked? { Balk(); } else { Answered(answer.Requested?); }
    }

    method Answered(requested: bool)
      requires Holding() && (view.watch.lost ==> view.course.polled)
      modifies `trace, `view
      ensures Holding() && Steady(old(view), view) && view.watch.lossWon == old(view.watch.lossWon)
      ensures view.answer == (if requested then Requested else NotRequested) && view.lease == old(view.lease)
    {
      Note(Queried(requested));
    }

    method Stop() returns (fenced: Option<Lease>)
      requires Holding() && (taken ==> joined)
      modifies `trace, `view, `latest, `panicked, `joined, `taken
      ensures Holding()
      ensures Steady(old(view), view) && view.answer == old(view.answer) &&
              view.watch.lossWon == old(view.watch.lossWon)
      ensures fenced.Some? ==> (started ==> joined) && !Lossy() && view.lease == fenced
      ensures fenced.None? ==> view.watch.lost || view.watch.unjoined
      ensures started ==> taken
    {
      if !started {
        return Some(lease);
      }
      if !taken {
        Wait();
        if panicked {
          taken := true;
          return None;
        }
        var ended := Join();
        if !ended {
          return None;
        }
      }
      fenced := latest;
    }

    // The renewal task ends, or not in time.
    method Join() returns (ended: bool)
      requires Holding() && started && !taken && !panicked
      modifies `trace, `view, `joined, `taken
      ensures Holding() && Steady(old(view), view) && view.answer == old(view.answer) && joined == ended
      ensures view.watch.lossWon == old(view.watch.lossWon) && (!ended ==> view.watch.unjoined) && taken
    {
      var late := Obstructed();
      ended := !late;
      if ended {
        Note(RenewalJoined);
        joined := true;
      } else {
        Note(Unjoined);
      }
      taken := true;
    }

    // The authority accepts or refuses; no answer in time counts as a refusal.
    method Settle(what: Settlement, fenced: Lease) returns (ok: bool)
      requires Holding() && Proper(profile, view, Settled(what, fenced, true))
      modifies `trace, `view
      ensures Holding() && view == Advance(old(view), Settled(what, fenced, ok))
    {
      var refused := Obstructed();
      ok := !refused;
      Note(Settled(what, fenced, ok));
    }

    method AuthoritativeReplay() returns (r: Result)
      requires Holding() && Settling(view) && view.course.receipt.None?
      modifies `trace, `view
      ensures Holding() && Faithful(profile, view, r)
    {
      var obstructed := Obstructed();
      if obstructed {
        Balk();
        return Failed(PostReceiveUnresolved);
      }
      var admission: Admission := *;
      if profile.calm && !admission.Replay? && !admission.ReplayOutcome? {
        var events: int := *;
        admission := Replay(events);
      }
      Note(Replayed(admission));
      match admission
      case Replay(events) => return Delivered(events);
      case ReplayOutcome(outcome) => return Interrupted(outcome);
      case _ => return Failed(PostReceiveUnresolved);
    }

    // Ready to settle: the renewal task is joined, not lost, and its last lease is at hand.
    ghost predicate Fenced(fenced: Lease)
      reads this
    {
      Holding() && (started ==> joined) && !Lossy() && view.lease == Some(fenced) && !Answers(view)
    }

    // `candidate`: the profile had authorised a proposal, so its store is told of the cancellation.
    method Cancel(fenced: Lease, candidate: bool) returns (r: Result)
      requires Fenced(fenced) && view.answer.Requested? && !view.course.canceled
      requires candidate == view.course.authorized && (view.course.pollerEnded ==> view.course.outcome.Some?)
      modifies `trace, `view
      ensures Holding() && Faithful(profile, view, r)
    {
      var ok := Settle(Canceled(candidate), fenced);
      if !ok {
        return Failed(PostReceiveUnresolved);
      }
      r := AuthoritativeReplay();
    }

    // The cancellation poller asks again and again while a `select` waits, whichever branch wins in the end,
    // and the renewal task goes on beside it.
    method Linger()
      requires Holding() && view.course.polled
      modifies `trace, `view, `latest, `panicked
      ensures Holding() && Steady(old(view), view) && view.watch.lossWon == old(view.watch.lossWon)
    {
      var n: nat := *;
      while n > 0
        invariant Holding() && Steady(old(view), view) && view.watch.lossWon == old(view.watch.lossWon)
      {
        n := n - 1;
        Wait();
        Answered(false);
      }
    }

    // The poller ends with the answer yes or with an error.
    method EndPoll() returns (asked: bool)
      requires Holding() && (view.watch.lost ==> view.course.polled)
      modifies `trace, `view
      ensures if asked then view.answer.Requested? else !profile.calm
      ensures Holding() && Steady(old(view), view) && view.watch.lossWon == old(view.watch.lossWon)
    {
      var fails := Obstructed();
      asked := !fails;
      if asked { Answered(true); }
    }

    ghost predicate Untouched()
      reads this
    {
      Holding() && !taken && !Settling(view) && !Answers(view)
    }

    // While the adapter is at work.
    ghost predicate Running()
      reads this
    {
      Untouched() && view.course.outcome.None? && !view.course.authorized
    }

    // Before the adapter is first polled.
    ghost predicate Fresh()
      reads this
    {
      Running() && !view.course.polled && !view.watch.lossWon && !view.course.pollerEnded
    }

    // The admission after its first poll: it comes, or another branch wins.
    method AwaitAdmission() returns (error: Option<Error>, pollerDone: bool)
      requires Running() && view.course.polled && !view.course.pollerEnded
      modifies `trace, `view, `latest, `panicked
      ensures Running() && view.course.polled && view.course.pollerEnded == pollerDone
      ensures error.Some? ==> Reason(profile, view, error.value)
    {
      error, pollerDone := None, false;
      Linger();
      var lost := LossBranch();
      if lost {
        error := Some(FatalRenewal);
        return;
      }
      var ends := Obstructed();
      if ends {
        var asked := EndPoll();
        Note(PollerEnded);
        return Some(PostReceiveUnresolved), true;
      }
      var obstructed := Obstructed();
      if obstructed {
        Balk();
        error := Some(PostReceiveUnresolved);
      }
    }

    method Admit() returns (a: Admitted)
      requires Fresh() && view.answer.NotRequested?
      modifies `trace, `view, `latest, `panicked, `joined, `taken
      ensures a.Ready? ==> Running() && view.course.polled && view.course.pollerEnded == a.pollerDone
      ensures a.Refused? ==> Excused(a.error)
    {
      var lost := LossBranch();
      if lost {
        return Refused(FatalRenewal);
      }
      var obstructed := Obstructed();
      if obstructed {
        Balk();
        return Refused(PostReceiveUnresolved);
      }
      Note(AdmissionPolled);
      var error, pollerDone := None, false;
      if * {
        error, pollerDone := AwaitAdmission();
      }
      if error.Some? {
        var given := Supervise();
        if !given {
          return Refused(error.value);
        }
      }
      obstructed := Obstructed();
      if obstructed {
        Balk();
        Quit(PostReceiveUnresolved);
        return Refused(PostReceiveUnresolved);
      }
      return Ready(pollerDone);
    }

    // The renewal task is stopped, whatever comes of it.
    method Quit(error: Error)
      requires Untouched() && Reason(profile, view, error)
      modifies `trace, `view, `latest, `panicked, `joined, `taken
      ensures Excused(error)
    {
      var fenced := Stop();
      ReasonLasts(profile, old(view), view, error);
    }

    // The adapter is cancelled and waited for, and the renewal task stopped.
    method GiveUp(error: Error) returns (x: Executed)
      requires Untouched() && Reason(profile, view, error)
      modifies `trace, `view, `latest, `panicked, `joined, `taken
      ensures x == Broke(error) && Excused(error)
    {
      Wait();
      ReasonLasts(profile, old(view), view, error);
      Quit(error);
      return Broke(error);
    }

    // The adapter is cancelled and may still give its outcome.
    method Supervise() returns (given: bool)
      requires Untouched()
      modifies `trace, `view, `latest, `panicked
      ensures Untouched() && Steady(old(view), view) && (!given ==> view.watch.balked)
      ensures view.answer == old(view.answer)
    {
      Wait();
      var late := Obstructed();
      given := !late;
      if late { Balk(); }
    }

    method RunToEnd(pollerDone: bool) returns (x: Executed)
      requires Running() && view.course.polled && view.course.pollerEnded == pollerDone
      modifies `trace, `view, `latest, `panicked, `joined, `taken
      ensures x.Ended? ==> Untouched() && view.course.outcome == Some(x.outcome) && !view.course.authorized
      ensures x.Broke? ==> Excused(x.error)
    {
      var lost := LossBranch();
      if lost {
        x := GiveUp(FatalRenewal);
        return;
      }
      if * {
        x := Finish(true);
        return;
      }
      // The poller's future must not be polled again once it has completed: that panics.
      if pollerDone {
        return Broke(PostReceiveUnresolved);
      }
      x := RunOn();
    }

    // The execution phase after its first poll.
    method RunOn() returns (x: Executed)
      requires Running() && view.course.polled && !view.course.pollerEnded
      modifies `trace, `view, `latest, `panicked, `joined, `taken
      ensures x.Ended? ==> Untouched() && view.course.outcome == Some(x.outcome) && !view.course.authorized
      ensures x.Broke? ==> Excused(x.error)
    {
      Linger();
      var lost := LossBranch();
      if lost {
        x := GiveUp(FatalRenewal);
        return;
      }
      if * {
        var given := CutShort();
        if !given {
          return Broke(PostReceiveUnresolved);
        }
        x := Finish(false);
        return;
      }
      var late := Obstructed();
      if late {
        Balk();
        x := GiveUp(PostReceiveUnresolved);
        return;
      }
      x := Finish(false);
    }

    // Cancellation was requested, or the owner cancels: the adapter is cancelled and may still give its outcome.
    method CutShort() returns (given: bool)
      requires Running() && view.course.polled && !view.course.pollerEnded
      modifies `trace, `view, `latest, `panicked
      ensures Running() && view.course.polled && !view.course.pollerEnded
      ensures (!given ==> Reason(profile, view, PostReceiveUnresolved)) && Undisturbed(view, false)
    {
      var cancels := Obstructed();
      if cancels {
        Balk();
      } else {
        var asked := EndPoll();
        if !asked {
          Balk();
          return false;
        }
      }
      given := Supervise();
    }

    method Finish(atOnce: bool) returns (x: Executed)
      requires Running() && view.course.polled && (view.course.pollerEnded ==> atOnce) && Undisturbed(view, atOnce)
      modifies `trace, `view
      ensures x.Ended? && Untouched() && view.course.outcome == Some(x.outcome) && !view.course.authorized
    {
      var outcome: Outcome := *;
      if profile.calm && !outcome.Terminal? {
        var proposal: Proposal := *;
        outcome := Terminal(proposal);
      }
      Note(Finished(outcome, atOnce));
      return Ended(outcome);
    }

    // A profile has to authorise a proposal before it may be settled.
    method Authorize() returns (failure: Option<Error>)
      requires Untouched() && profile.mode.TextConcordance?
      requires view.course.outcome.Some? && view.course.outcome.value.Terminal?
      modifies `trace, `view, `latest, `panicked, `joined, `taken
      ensures failure.None? ==> Untouched() && view.course.outcome == old(view.course.outcome) && view.course.authorized
      ensures failure.Some? ==> Excused(failure.value)
    {
      var lost := LossBranch();
      if lost {
        Quit(FatalRenewal);
        return Some(FatalRenewal);
      }
      var obstructed := Obstructed();
      if obstructed {
        Balk();
        Quit(PostReceiveUnresolved);
        return Some(PostReceiveUnresolved);
      }
      failure := Freeze();
    }

    // The profile freezes the proposal as its candidate, or refuses it.
    method Freeze() returns (failure: Option<Error>)
      requires Untouched() && profile.mode.TextConcordance? && !Lossy()
      requires view.course.outcome.Some? && view.course.outcome.value.Terminal?
      modifies `trace, `view
      ensures failure.None? ==> Untouched() && view.course.outcome == old(view.course.outcome) && view.course.authorized
      ensures failure.Some? ==> Excused(failure.value)
    {
      var refused := Obstructed();
      if refused {
        Balk();
        return Some(PostReceiveUnresolved);
      }
      Note(Authorized);
      return None;
    }

    method SettleProposal(proposal: Proposal, fenced: Lease, candidate: bool) returns (r: Result)
      requires Fenced(fenced) && !profile.mode.Runtime? && !Settling(view)
      requires view.course.outcome == Some(Terminal(proposal))
      requires candidate == view.course.authorized == profile.mode.TextConcordance?
      modifies `trace, `view
      ensures Holding() && Faithful(profile, view, r)
    {
      var won := Query();
      if won.Unasked? {
        return Failed(PostReceiveUnresolved);
      }
      if won.Requested? {
        r := Cancel(fenced, candidate);
        return;
      }
      var ok := Settle(Completed(proposal, candidate && proposal.termination.Success?), fenced);
      if !ok {
        won := Query();
        if !won.Requested? {
          return Failed(PostReceiveUnresolved);
        }
        r := Cancel(fenced, candidate);
        return;
      }
      r := AuthoritativeReplay();
    }

    method Conclude(outcome: Outcome) returns (r: Result)
      requires Untouched() && view.course.outcome == Some(outcome) && !view.course.authorized
      modifies `trace, `view, `latest, `panicked, `joined, `taken
      ensures Holding() && Faithful(profile, view, r)
    {
      var candidate := false;
      if outcome.Terminal? && profile.mode.TextConcordance? {
        var failure := Authorize();
        if failure.Some? {
          return Failed(failure.value);
        }
        candidate := true;
      }
      var fenced := Stop();
      if outcome.Terminal? && profile.mode.Runtime? {
        return Failed(RuntimeProposalUnresolved);
      }
      if outcome.ExecutionFailed? || outcome.AdmittedUnknown? {
        return Failed(PostReceiveUnresolved);
      }
      if fenced.None? {
        return Failed(FatalRenewal);
      }
      if outcome.Terminal? {
        r := SettleProposal(outcome.proposal, fenced.value, candidate);
        return;
      }
      var won := Query();
      if !won.Requested? {
        return Failed(PostReceiveUnresolved);
      }
      r := Cancel(fenced.value, false);
    }

    method RunAdmitted() returns (r: Result)
      requires Fresh()
      modifies `trace, `view, `latest, `panicked, `joined, `taken
      ensures Holding() && Faithful(profile, view, r)
    {
      var lost := LossBranch();
      if lost {
        return Failed(FatalRenewal);
      }
      var answer := Query();
      if answer.Unasked? {
        return Failed(PostReceiveUnresolved);
      }
      if answer.Requested? {
        var fenced := Stop();
        if fenced.None? {
          return Failed(FatalRenewal);
        }
        r := Cancel(fenced.value, false);
        return;
      }
      var admitted := Admit();
      if admitted.Refused? {
        return Failed(admitted.error);
      }
      var executed := RunToEnd(admitted.pollerDone);
      if executed.Broke? {
        return Failed(executed.error);
      }
      r := Conclude(executed.outcome);
    }

    method RunReceived() returns (r: Result)
      requires Fresh()
      modifies `trace, `view, `latest, `panicked, `joined, `taken
      ensures Holding() && Faithful(profile, view, r)
    {
      Wait();
      if Lossy() {
        return Failed(FatalRenewal);
      }
      var lost := LossBranch();
      if lost {
        return Failed(FatalRenewal);
      }
      var obstructed := Obstructed();
      if obstructed {
        Balk();
        Quit(PostReceiveUnresolved);
        return Failed(PostReceiveUnresolved);
      }
      obstructed := Obstructed();
      if obstructed {
        Balk();
        return Failed(PostReceiveUnresolved);
      }
      r := RunAdmitted();
    }

    // Reserving capacity with the adapter, before anything is received.
    method Prepare() returns (early: Option<Result>)
      requires Valid() && view == NOTHING
      modifies `trace, `view
      ensures Kept() && (early.None? ==> view == NOTHING)
      ensures early.Some? ==> view != NOTHING && Faithful(profile, view, early.value) && Halted(view)
    {
      var obstructed := Obstructed();
      if !obstructed {
        return None;
      }
      if * {
        Note(Unprepared(OwnerLeft));
        return Some(Failed(OwnerCancelledBeforeReceive));
      }
      if * {
        Note(Unprepared(NoCapacity));
        return Some(ReceiverBusy);
      }
      if * {
        Note(Unprepared(Rejected));
        return Some(Failed(Permanent));
      }
      // The owner cancels, or `begin_receive` fails or is late.
      Note(Balked);
      return Some(Failed(PostReceiveUnresolved));
    }

    method DispatchOnce() returns (r: Result)
      requires Valid() && view == NOTHING && !started && !taken && !panicked
      modifies this
      ensures Kept() && Faithful(profile, view, r) && view != NOTHING && Halted(view)
    {
      var early := Prepare();
      if early.Some? {
        return early.value;
      }
      var admission: Admission := *;
      Note(Received(admission));
      if !admission.Execute? {
        match admission
        case Replay(events) => return Delivered(events);
        case ReplayOutcome(outcome) => return Interrupted(outcome);
        case _ => return ReceiverBusy;
      }
      lease := admission.lease;
      var duplicate := Obstructed();
      if duplicate {
        Note(Balked);
        return Failed(PostReceiveUnresolved);
      }
      r := Execute();
    }

    // Beside the run, the loss of the lease may have been noticed.
    method Monitor() returns (noticed: bool)
      requires Valid()
      modifies `trace, `view
      ensures Valid() && view == if noticed then Advance(old(view), Overruled) else old(view)
    {
      noticed := *;
      noticed := noticed && Lossy();
      if noticed { Note(Overruled); }
    }

    // The registered run, and what is left to do after it.
    method Execute() returns (r: Result)
      requires Valid() && !started && !taken && !panicked && !joined && view.lease == Some(lease)
      requires view == Advance(NOTHING, Received(Admission.Execute(lease)))
      modifies this
      ensures Kept() && Faithful(profile, view, r) && view != NOTHING && Halted(view)
    {
      if profile.renews {
        Note(RenewalStarted);
        started, latest := true, Some(lease);
      }
      r := RunReceived();
      if !taken || joined {
        ghost var v := view;
        var fenced := Stop();
        FaithfulLasts(profile, v, view, r);
      }
      var noticed := Monitor();
      if noticed {
        r := Failed(FatalRenewal);
      }
    }
  }

  /** Every run of one dispatch keeps the discipline, its result is the one that the trace calls for, and it
      leaves no renewal task behind. */
  method Dispatch(profile: Profile) returns (result: Result, trace: seq<Event>)
    ensures Disciplined(profile, trace) && Faithful(profile, ViewOf(trace), result)
    ensures trace != []
    ensures RenewalStarted in trace ==> RenewalJoined in trace || RenewalLost in trace || Unjoined in trace
  {
    DisciplineIsClosed(profile);
    var c := new Coordinator(profile, Discipline(profile));
    result := c.DispatchOnce();
    trace := c.trace;
    ghost var events := trace;
    MarksHappened(events);
    TroublesHappened(events);
    if RenewalStarted in events {
      ghost var i :| 0 <= i < |events| && events[i] == RenewalStarted;
      Remembers(events, i);
    }
  }
}
