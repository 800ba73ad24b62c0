/**
 What a dispatch may do, told by the trace of what it did and was told: which event may follow which past,
 what that comes to over whole traces, and which result a trace calls for.
 */
module DispatchTrace {
  import opened Options

  datatype Mode = Loopback | Runtime | TextConcordance

  // The coordinator's mode, whether the authority renews leases, and whether everybody else does their part: nobody
  // refuses, fails, is late or loses a lease, the adapter ends with a proposal, and what is settled is replayed.
  datatype Profile = Profile(mode: Mode, renews: bool, calm: bool)

  datatype Lease = Lease(token: int, epoch: int, until: int)

  datatype Termination = Success | InputRequired | AuthRequired

  // Event lists and results are only passed on, so they are numbers here.
  datatype Proposal = Proposal(termination: Termination, events: int)

  datatype Admission = Execute(lease: Lease) | Replay(events: int) | ReplayOutcome(outcome: int) | Busy

  datatype Outcome = Terminal(proposal: Proposal) | ConfirmedStopped | ExecutionFailed | AdmittedUnknown

  // `candidate` says whether the settlement goes to the profile's store, with the candidate it authorised.
  datatype Settlement = Canceled(candidate: bool) | Completed(proposal: Proposal, candidate: bool)

  datatype Error =
    FatalRenewal | OwnerCancelledBeforeReceive | PostReceiveUnresolved | RuntimeProposalUnresolved | Permanent

  datatype Result = Delivered(events: int) | Interrupted(outcome: int) | ReceiverBusy | Failed(error: Error)

  datatype Obstacle = OwnerLeft | NoCapacity | Rejected

  /** `Unprepared`: the dispatch ends before anything is received. `Balked`: the owner cancelled, a bound passed,
      or the authority, the registry, the profile or the adapter refused or failed. `Unjoined`: the renewal task
      did not end in time. `Overruled`: the loss of the lease was noticed beside the run. */
  datatype Event =
    | Unprepared(obstacle: Obstacle)
    | Received(answer: Admission)
    | Replayed(answer: Admission)
    | Queried(requested: bool)
    | RenewalStarted
    | Renewed(lease: Lease)
    | RenewalLost
    | RenewalJoined
    | Unjoined
    | LossWon
    | AdmissionPolled
    | PollerEnded
    | Finished(outcome: Outcome, atOnce: bool)
    | Authorized
    | Settled(what: Settlement, lease: Lease, accepted: bool)
    | Balked
    | Overruled

  // ----- What a trace says so far -----

  datatype Answer = Unasked | Requested | NotRequested

  // How the dispatch went along so far.
  datatype Course = Course(
    receipt: Option<Admission>, outcome: Option<Outcome>, completed: bool, canceled: bool, authorized: bool,
    polled: bool, pollerEnded: bool, unprepared: Option<Obstacle>, refused: bool, overruled: bool)

  // How the renewal task and the others have behaved.
  datatype Watch = Watch(started: bool, joined: bool, lost: bool, lossWon: bool, unjoined: bool, balked: bool)

  datatype View = View(answer: Answer, lease: Option<Lease>, course: Course, watch: Watch)

  const NOTHING := View(Unasked, None, Course(None, None, false, false, false, false, false, None, false, false),
                        Watch(false, false, false, false, false, false))

  predicate IsCompletion(e: Event) { e.Settled? && e.what.Completed? }

  predicate IsCancellation(e: Event) { e.Settled? && e.what.Canceled? }

  // An answer from before the adapter ended, or a completion was refused, counts for nothing afterwards.
  function AnswerAfter(a: Answer, e: Event): Answer {
    match e
    case Queried(requested) => if requested then Requested else NotRequested
    case Finished(_, _) => Unasked
    case Settled(what, _, accepted) => if what.Completed? && !accepted then Unasked else a
    case _ => a
  }

  // A settlement calls for a new replay.
  function ReceiptAfter(r: Option<Admission>, e: Event): Option<Admission> {
    match e
    case Received(a) => Some(a)
    case Replayed(a) => Some(a)
    case Settled(_, _, _) => None
    case _ => r
  }

  function LeaseAfter(l: Option<Lease>, e: Event): Option<Lease> {
    match e
    case Received(a) => if a.Execute? then Some(a.lease) else None
    case Renewed(lease) => Some(lease)
    case _ => l
  }

  function CourseAfter(c: Course, e: Event): Course {
    Course(ReceiptAfter(c.receipt, e), if e.Finished? then Some(e.outcome) else c.outcome,
           c.completed || IsCompletion(e), c.canceled || IsCancellation(e), c.authorized || e.Authorized?,
           c.polled || e.AdmissionPolled?, c.pollerEnded || e.PollerEnded?,
           if e.Unprepared? then Some(e.obstacle) else c.unprepared,
           c.refused || (e.Settled? && !e.accepted), c.overruled || e.Overruled?)
  }

  function WatchAfter(w: Watch, e: Event): Watch {
    Watch(w.started || e.RenewalStarted?, w.joined || e.RenewalJoined?, w.lost || e.RenewalLost?,
          w.lossWon || e.LossWon?, w.unjoined || e.Unjoined?, w.balked || e.Balked?)
  }

  function Advance(v: View, e: Event): View {
    View(AnswerAfter(v.answer, e), LeaseAfter(v.lease, e), CourseAfter(v.course, e), WatchAfter(v.watch, e))
  }

  function ViewOf(trace: seq<Event>): View {
    if trace == [] then NOTHING else Advance(ViewOf(trace[..|trace| - 1]), trace[|trace| - 1])
  }

  /** What must hold of the past when an event happens. A settlement follows the latest cancellation answer,
      given since the adapter ended if it did, comes after the renewal task was joined without a loss, carries
      the latest lease, settles what the adapter proposed unless it cancels, and is the first of its kind; a
      proposal is never settled after a cancellation, nor in plain runtime mode, nor unauthorised if there is a
      profile, whose store then settles successes and cancellations. The adapter is first polled after a query
      answered no. Once the poller has ended during admission, the adapter's outcome counts only if it is there
      at once, and nothing is settled without it. */
  predicate Proper(p: Profile, v: View, e: Event) {
    match e
    case Settled(what, lease, accepted) =>
      && (p.calm ==> accepted)
      && v.answer == (if what.Canceled? then Requested else NotRequested)
      && (p.renews ==> v.watch.started && v.watch.joined) && !v.watch.lost && v.lease == Some(lease)
      && (v.course.pollerEnded ==> v.course.outcome.Some?) && !v.course.canceled
      && (match what
          case Canceled(candidate) => candidate == v.course.authorized
          case Completed(proposal, candidate) =>
            && p.mode != Runtime && !v.course.completed && v.course.outcome == Some(Terminal(proposal))
            && v.course.authorized == p.mode.TextConcordance?
            && candidate == (p.mode.TextConcordance? && proposal.termination.Success?))
    case Renewed(_) => v.watch.started && !v.watch.joined && !v.watch.lost
    case RenewalLost => v.watch.started && !v.watch.joined && !v.watch.lost && !p.calm
    case RenewalStarted => p.renews && !v.watch.started && v.lease.Some?
    case RenewalJoined => v.watch.started
    case Queried(_) => v.lease.Some? && (v.answer.Unasked? && !v.course.polled ==> !v.watch.lost)
    case AdmissionPolled =>
      !v.course.polled && !v.watch.lost && !v.watch.lossWon && !v.course.completed && !v.course.canceled &&
      v.answer.NotRequested?
    case PollerEnded => v.course.outcome.None? && !p.calm
    case Finished(outcome, atOnce) =>
      && v.course.polled && v.course.outcome.None? && (v.course.pollerEnded ==> atOnce) && Undisturbed(v, atOnce)
      && (p.calm ==> outcome.Terminal?)
    case Authorized =>
      p.mode.TextConcordance? && v.course.outcome.Some? && v.course.outcome.value.Terminal? && !v.watch.lost
    case LossWon => v.watch.lost
    case Overruled => v.watch.lost
    case Unprepared(_) => v == NOTHING && !p.calm
    case Received(_) => v == NOTHING
    case Replayed(answer) =>
      (v.course.completed || v.course.canceled) && (p.calm ==> answer.Replay? || answer.ReplayOutcome?)
    case Unjoined => !p.calm
    case Balked => !p.calm
  }

  // The lease is not lost when the adapter's outcome is taken, unless it had been cut short and was waited for.
  predicate Undisturbed(v: View, atOnce: bool) {
    v.watch.lost ==> !atOnce && (v.answer.Requested? || v.watch.balked)
  }

  predicate Disciplined(p: Profile, trace: seq<Event>) {
    forall i | 0 <= i < |trace| :: ProperAt(p, trace, i)
  }

  predicate ProperAt(p: Profile, trace: seq<Event>, i: nat)
    requires i < |trace|
  {
    Proper(p, ViewOf(trace[..i]), trace[i])
  }

  // A condition on traces and their views that every proper event preserves.
  ghost predicate Closed(p: Profile, lawful: (seq<Event>, View) -> bool) {
    forall t, v, e :: lawful(t, v) && Proper(p, v, e) ==> lawful(t + [e], Advance(v, e))
  }

  ghost function Discipline(p: Profile): (seq<Event>, View) -> bool {
    (t, v) => Disciplined(p, t) && v == ViewOf(t)
  }

  lemma Follows(p: Profile, t: seq<Event>, e: Event)
    requires Disciplined(p, t) && Proper(p, ViewOf(t), e)
    ensures Disciplined(p, t + [e]) && ViewOf(t + [e]) == Advance(ViewOf(t), e)
  {
    var more := t + [e];
    assert more[..|t|] == t;
    forall i | 0 <= i < |more| ensures ProperAt(p, more, i) {
      if i < |t| { assert ProperAt(p, t, i) && more[..i] == t[..i]; }
    }
  }

  lemma DisciplineIsClosed(p: Profile)
    ensures Closed(p, Discipline(p)) && Discipline(p)([], NOTHING)
  {
    assert ViewOf([]) == NOTHING && Disciplined(p, []);
    forall t: seq<Event>, e | Disciplined(p, t) && Proper(p, ViewOf(t), e)
      ensures Disciplined(p, t + [e]) && Advance(ViewOf(t), e) == ViewOf(t + [e])
    {
      Follows(p, t, e);
    }
  }

  // ----- Which result a trace calls for -----

  predicate Settling(v: View) { v.course.completed || v.course.canceled }

  // `begin_receive` last gave an answer that ends the dispatch.
  predicate Answers(v: View) {
    v.course.receipt.Some? && match v.course.receipt.value
      case Replay(_) => true
      case ReplayOutcome(_) => true
      case Busy => !Settling(v)
      case Execute(_) => false
  }

  // What a failure is down to.
  predicate Reason(p: Profile, v: View, error: Error) {
    match error
    case OwnerCancelledBeforeReceive => v.course.unprepared == Some(OwnerLeft)
    case Permanent => v.course.unprepared == Some(Rejected)
    case FatalRenewal => v.watch.lost || v.watch.unjoined
    case RuntimeProposalUnresolved => p.mode.Runtime? && v.course.outcome.Some? && v.course.outcome.value.Terminal?
    case PostReceiveUnresolved =>
      || v.watch.balked || (v.course.refused && (v.course.canceled || v.answer.NotRequested?))
      || (v.course.pollerEnded && v.course.outcome.None?)
      || v.course.outcome == Some(ExecutionFailed) || v.course.outcome == Some(AdmittedUnknown)
      || (v.course.outcome == Some(ConfirmedStopped) && v.answer.NotRequested?)
      || (Settling(v) && v.course.receipt.Some?)
  }

  predicate Faithful(p: Profile, v: View, r: Result) {
    match r
    case Delivered(events) => !v.course.overruled && v.course.receipt == Some(Replay(events))
    case Interrupted(outcome) => !v.course.overruled && v.course.receipt == Some(ReplayOutcome(outcome))
    case ReceiverBusy =>
      && !v.course.overruled
      && (|| (v.course.unprepared == Some(NoCapacity) && v.course.receipt.None?)
          || (v.course.receipt == Some(Busy) && !Settling(v)))
    case Failed(error) =>
      if v.course.overruled then error.FatalRenewal? else !Answers(v) && Reason(p, v, error)
  }

  // ----- What the discipline means, event by event -----

  // The latest cancellation query of the trace, and its answer; since then the adapter did not end, nor was a
  // completion refused.
  ghost predicate LatestQuery(trace: seq<Event>, k: nat, requested: bool) {
    && k < |trace| && trace[k] == Queried(requested)
    && forall j | k < j < |trace| :: !trace[j].Queried? && !Outdates(trace[j])
  }

  predicate Outdates(e: Event) { e.Finished? || (IsCompletion(e) && !e.accepted) }

  // The latest event of the trace that brought a lease, and that lease.
  ghost predicate LatestLease(trace: seq<Event>, k: nat, lease: Lease) {
    && k < |trace| && (trace[k] == Renewed(lease) || trace[k] == Received(Execute(lease)))
    && forall j | k < j < |trace| :: !trace[j].Renewed? && !trace[j].Received?
  }

  lemma AdvanceFields(v: View, e: Event)
    ensures !e.Queried? && !Outdates(e) ==> Advance(v, e).answer == v.answer
    ensures Outdates(e) ==> Advance(v, e).answer.Unasked?
    ensures !e.Renewed? && !e.Received? ==> Advance(v, e).lease == v.lease
    ensures !e.Finished? ==> Advance(v, e).course.outcome == v.course.outcome
    ensures !e.Received? && !e.Replayed? && !e.Settled? ==> Advance(v, e).course.receipt == v.course.receipt
    ensures e.Settled? ==> Advance(v, e).course.receipt.None?
    ensures v.watch.joined ==> Advance(v, e).watch.joined
    ensures Advance(v, e).watch.joined ==> v.watch.joined || e.RenewalJoined?
  {
  }

  lemma AdvanceFlags(v: View, e: Event)
    ensures v.watch.started ==> Advance(v, e).watch.started
    ensures v.watch.lost ==> Advance(v, e).watch.lost
  {
  }

  lemma AdvancePolls(v: View, e: Event)
    ensures v.watch.lossWon ==> Advance(v, e).watch.lossWon
    ensures v.course.polled ==> Advance(v, e).course.polled
  {
  }

  lemma AdvanceEnds(v: View, e: Event)
    ensures v.course.pollerEnded ==> Advance(v, e).course.pollerEnded
    ensures v.course.outcome.Some? ==> Advance(v, e).course.outcome.Some?
    ensures v.course.completed ==> Advance(v, e).course.completed
    ensures v.course.canceled ==> Advance(v, e).course.canceled
  {
  }

  lemma AdvanceTroubles(v: View, e: Event)
    ensures v.course.authorized ==> Advance(v, e).course.authorized
    ensures v.course.unprepared.Some? ==> Advance(v, e).course.unprepared.Some?
    ensures v.watch.balked ==> Advance(v, e).watch.balked
    ensures v.watch.unjoined ==> Advance(v, e).watch.unjoined
    ensures v.course.refused ==> Advance(v, e).course.refused
    ensures v.course.overruled ==> Advance(v, e).course.overruled
  {
  }

  lemma {:induction false} AnswerIsLatest(trace: seq<Event>) returns (k: nat)
    requires !ViewOf(trace).answer.Unasked?
    ensures LatestQuery(trace, k, ViewOf(trace).answer.Requested?)
  {
    var n := |trace| - 1;
    var v, e := ViewOf(trace[..n]), trace[n];
    if e.Queried? {
      k := n;
    } else {
      AdvanceFields(v, e);
      k := AnswerIsLatest(trace[..n]);
    }
  }

  lemma {:induction false} LeaseIsLatest(trace: seq<Event>) returns (k: nat)
    requires ViewOf(trace).lease.Some?
    ensures LatestLease(trace, k, ViewOf(trace).lease.value)
  {
    var n := |trace| - 1;
    var v, e := ViewOf(trace[..n]), trace[n];
    if e.Renewed? || e.Received? {
      k := n;
    } else {
      AdvanceFields(v, e);
      k := LeaseIsLatest(trace[..n]);
    }
  }

  // The view has taken note of the event.
  predicate Noted(v: View, e: Event) {
    match e
    case RenewalStarted => v.watch.started
    case RenewalJoined => v.watch.joined
    case RenewalLost => v.watch.lost
    case LossWon => v.watch.lossWon
    case AdmissionPolled => v.course.polled
    case PollerEnded => v.course.pollerEnded
    case Finished(_, _) => v.course.outcome.Some?
    case Settled(what, _, accepted) =>
      (if what.Canceled? then v.course.canceled else v.course.completed) && (!accepted ==> v.course.refused)
    case Authorized => v.course.authorized
    case Unprepared(_) => v.course.unprepared.Some?
    case Unjoined => v.watch.unjoined
    case Balked => v.watch.balked
    case Overruled => v.course.overruled
    case _ => true
  }

  lemma {:induction false} Remembers(trace: seq<Event>, i: nat)
    requires i < |trace|
    ensures Noted(ViewOf(trace), trace[i])
    decreases |trace|
  {
    var n := |trace| - 1;
    if i < n {
      Remembers(trace[..n], i);
      AdvanceFields(ViewOf(trace[..n]), trace[n]);
      AdvanceFlags(ViewOf(trace[..n]), trace[n]);
      AdvancePolls(ViewOf(trace[..n]), trace[n]);
      AdvanceEnds(ViewOf(trace[..n]), trace[n]);
      AdvanceTroubles(ViewOf(trace[..n]), trace[n]);
    }
  }

  // A mark is only made by its event.
  lemma {:induction false} MarksHappened(trace: seq<Event>)
    ensures var v := ViewOf(trace);
            && (v.watch.started ==> RenewalStarted in trace) && (v.watch.joined ==> RenewalJoined in trace)
            && (v.watch.lost ==> RenewalLost in trace) && (v.course.pollerEnded ==> PollerEnded in trace)
            && (v.course.authorized ==> Authorized in trace)
  {
    if trace != [] { MarksHappened(trace[..|trace| - 1]); }
  }

  lemma {:induction false} TroublesHappened(trace: seq<Event>)
    ensures var v := ViewOf(trace);
            && (v.course.unprepared.Some? ==> Unprepared(v.course.unprepared.value) in trace)
            && (v.watch.balked ==> Balked in trace) && (v.watch.unjoined ==> Unjoined in trace)
            && (v.course.overruled ==> Overruled in trace)
            && (v.course.refused ==> exists e :: e in trace && e.Settled? && !e.accepted)
  {
    if trace != [] {
      var n := |trace| - 1;
      TroublesHappened(trace[..n]);
      if ViewOf(trace[..n]).course.refused {
        var e :| e in trace[..n] && e.Settled? && !e.accepted;
        assert e in trace;
      }
    }
  }

  lemma {:induction false} SettlingHappened(trace: seq<Event>)
    requires Settling(ViewOf(trace))
    ensures exists e :: e in trace && e.Settled?
  {
    var n := |trace| - 1;
    if trace[n].Settled? {
      assert trace[n] in trace;
    } else {
      SettlingHappened(trace[..n]);
      var e :| e in trace[..n] && e.Settled?;
      assert e in trace;
    }
  }

  lemma {:induction false} CanceledHappened(trace: seq<Event>)
    requires ViewOf(trace).course.canceled
    ensures exists e :: e in trace && IsCancellation(e)
  {
    var n := |trace| - 1;
    if IsCancellation(trace[n]) {
      assert trace[n] in trace;
    } else {
      CanceledHappened(trace[..n]);
      var e :| e in trace[..n] && IsCancellation(e);
      assert e in trace;
    }
  }

  // Nothing that happens is forgotten altogether.
  lemma NeverNothing(p: Profile, v: View, e: Event)
    requires Proper(p, v, e)
    ensures Advance(v, e) != NOTHING
  {
  }

  lemma LaterIsSomething(p: Profile, trace: seq<Event>, i: nat)
    requires Disciplined(p, trace) && 0 < i <= |trace|
    ensures ViewOf(trace[..i]) != NOTHING
  {
    assert trace[..i][..i - 1] == trace[..i - 1] && ProperAt(p, trace, i - 1);
    NeverNothing(p, ViewOf(trace[..i - 1]), trace[i - 1]);
  }

  lemma FirstIsFirst(p: Profile, trace: seq<Event>, i: nat)
    requires Disciplined(p, trace) && i < |trace| && (trace[i].Received? || trace[i].Unprepared?)
    ensures i == 0
  {
    assert ProperAt(p, trace, i);
    if i > 0 { LaterIsSomething(p, trace, i); }
  }

  /** A canceled settlement follows a latest cancellation query answered yes, a completion one answered no. */
  lemma SettlementsFollowAnswers(p: Profile, trace: seq<Event>, i: nat) returns (k: nat)
    requires Disciplined(p, trace) && i < |trace| && trace[i].Settled?
    ensures LatestQuery(trace[..i], k, IsCancellation(trace[i]))
  {
    assert ProperAt(p, trace, i);
    k := AnswerIsLatest(trace[..i]);
  }

  /** Of two settlements the earlier is a completion and the later a cancellation, so there are at most two. */
  lemma SettlementsAreFew(p: Profile, trace: seq<Event>, i: nat, j: nat)
    requires Disciplined(p, trace) && i < j < |trace| && trace[i].Settled? && trace[j].Settled?
    ensures IsCompletion(trace[i]) && IsCancellation(trace[j])
  {
    Remembers(trace[..j], i);
    assert trace[..j][i] == trace[i];
    assert ProperAt(p, trace, i) && ProperAt(p, trace, j);
  }

  lemma {:induction false} OutcomeHappened(trace: seq<Event>) returns (k: nat)
    requires ViewOf(trace).course.outcome.Some?
    ensures k < |trace| && trace[k].Finished? && trace[k].outcome == ViewOf(trace).course.outcome.value
  {
    var n := |trace| - 1;
    var v, e := ViewOf(trace[..n]), trace[n];
    if e.Finished? {
      k := n;
    } else {
      AdvanceFields(v, e);
      k := OutcomeHappened(trace[..n]);
    }
  }

  /** What a completion settles is what the adapter ended with, never in plain runtime mode, and with a profile
      only what that authorised; its store settles the successes. */
  lemma CompletionsAreProposals(p: Profile, trace: seq<Event>, i: nat) returns (k: nat)
    requires Disciplined(p, trace) && i < |trace| && IsCompletion(trace[i])
    ensures p.mode != Runtime && k < i && trace[k].Finished? && trace[k].outcome == Terminal(trace[i].what.proposal)
    ensures p.mode.TextConcordance? ==> Authorized in trace[..i]
    ensures trace[i].what.candidate <==> p.mode.TextConcordance? && trace[i].what.proposal.termination.Success?
  {
    assert ProperAt(p, trace, i);
    MarksHappened(trace[..i]);
    k := OutcomeHappened(trace[..i]);
  }

  /** A cancellation goes to the profile's store exactly if the profile had authorised a proposal. */
  lemma CancellationsKnowTheCandidate(p: Profile, trace: seq<Event>, i: nat)
    requires Disciplined(p, trace) && i < |trace| && IsCancellation(trace[i])
    ensures trace[i].what.candidate <==> Authorized in trace[..i]
  {
    assert ProperAt(p, trace, i);
    MarksHappened(trace[..i]);
    if Authorized in trace[..i] {
      var j :| 0 <= j < i && trace[..i][j] == Authorized;
      Remembers(trace[..i], j);
    }
  }

  /** If the cancellation poller ended during admission, nothing is settled afterwards, not even the
      cancellation that it found, unless the adapter's outcome was there at the first poll of its execution:
      the second poll resumes the ended poller, which panics. */
  lemma EndedPollerNeedsOutcomeAtOnce(p: Profile, trace: seq<Event>, i: nat, j: nat) returns (k: nat)
    requires Disciplined(p, trace) && i < j < |trace| && trace[i].PollerEnded? && trace[j].Settled?
    ensures i < k < j && trace[k].Finished? && trace[k].atOnce
  {
    Remembers(trace[..j], i);
    assert trace[..j][i] == trace[i];
    assert ProperAt(p, trace, i) && ProperAt(p, trace, j);
    k := OutcomeHappened(trace[..j]);
    if k < i {
      FinishedIsNoted(trace, k, i);
    } else {
      Remembers(trace[..k], i);
      assert trace[..k][i] == trace[i];
      assert ProperAt(p, trace, k);
    }
  }

  // A cancellation that the poller found while the adapter was being admitted.
  function FoundInAdmission(p: Profile, lease: Lease): seq<Event> {
    [Received(Execute(lease))] + (if p.renews then [RenewalStarted] else []) +
    [Queried(false), AdmissionPolled, Queried(true), PollerEnded]
  }

  lemma Then(p: Profile, lawful: (seq<Event>, View) -> bool, t: seq<Event>, v: View, e: Event)
    returns (u: seq<Event>, w: View)
    requires Closed(p, lawful) && lawful(t, v) && Proper(p, v, e)
    ensures u == t + [e] && lawful(u, w) && w == Advance(v, e)
  {
    u, w := t + [e], Advance(v, e);
  }

  // Nothing was asked for, polled, lost or settled yet.
  predicate Early(v: View) {
    v.lease.Some? && !v.watch.lost && v.course.outcome.None? && !Settling(v) && !v.course.polled && !v.watch.lossWon
  }

  lemma BeginLawfully(p: Profile, lease: Lease, lawful: (seq<Event>, View) -> bool) returns (t: seq<Event>, v: View)
    requires Closed(p, lawful) && lawful([], NOTHING)
    ensures t == [Received(Execute(lease))] + (if p.renews then [RenewalStarted] else []) + [Queried(false)]
    ensures lawful(t, v) && Early(v) && v.answer.NotRequested?
  {
    t, v := Then(p, lawful, [], NOTHING, Received(Execute(lease)));
    if p.renews { t, v := Then(p, lawful, t, v, RenewalStarted); }
    t, v := Then(p, lawful, t, v, Queried(false));
  }

  lemma FoundIsLawful(p: Profile, lease: Lease, lawful: (seq<Event>, View) -> bool) returns (v: View)
    requires Closed(p, lawful) && lawful([], NOTHING) && !p.calm
    ensures lawful(FoundInAdmission(p, lease), v) && v.answer == Requested && !Settling(v)
  {
    var t;
    t, v := BeginLawfully(p, lease, lawful);
    t, v := Then(p, lawful, t, v, AdmissionPolled);
    t, v := Then(p, lawful, t, v, Queried(true));
    t, v := Then(p, lawful, t, v, PollerEnded);
    assert t == FoundInAdmission(p, lease);
  }

  /** Such a trace is within the discipline, and ends with the cancellation requested and not settled. */
  lemma FoundIsDisciplined(p: Profile, lease: Lease)
    requires !p.calm
    ensures Disciplined(p, FoundInAdmission(p, lease))
    ensures var v := ViewOf(FoundInAdmission(p, lease)); v.answer == Requested && !Settling(v)
  {
    DisciplineIsClosed(p);
    var v := FoundIsLawful(p, lease, Discipline(p));
  }

  /** No continuation of that trace settles anything, the requested cancellation included, without an outcome
      of the adapter at the first poll. */
  lemma RequestedStaysUnsettled(p: Profile, lease: Lease, more: seq<Event>, j: nat)
    requires Disciplined(p, FoundInAdmission(p, lease) + more) && j < |more| && more[j].Settled?
    ensures exists k :: 0 <= k < j && more[k].Finished? && more[k].atOnce
  {
    var n := |FoundInAdmission(p, lease)|;
    var whole := FoundInAdmission(p, lease) + more;
    assert whole[n - 1] == PollerEnded;
    var k := EndedPollerNeedsOutcomeAtOnce(p, whole, n - 1, n + j);
    assert more[k - n] == whole[k];
  }

  lemma FinishedIsNoted(trace: seq<Event>, k: nat, i: nat)
    requires k < i <= |trace| && trace[k].Finished?
    ensures ViewOf(trace[..i]).course.outcome.Some?
  {
    Remembers(trace[..i], k);
    assert trace[..i][k] == trace[k];
  }

  /** A settlement comes after the renewal task, if leases are renewed, was started and joined, and with no lost
      renewal before it; it carries the lease of the latest renewal that was applied, or the one first received. */
  lemma SettlementsAreFenced(p: Profile, trace: seq<Event>, i: nat) returns (k: nat)
    requires Disciplined(p, trace) && i < |trace| && trace[i].Settled?
    ensures p.renews ==> RenewalStarted in trace[..i] && RenewalJoined in trace[..i]
    ensures RenewalLost !in trace[..i]
    ensures LatestLease(trace[..i], k, trace[i].lease)
  {
    var past := trace[..i];
    assert ProperAt(p, trace, i);
    forall j | 0 <= j < |past| ensures Noted(ViewOf(past), past[j]) { Remembers(past, j); }
    MarksHappened(past);
    k := LeaseIsLatest(past);
  }

  /** The adapter is first polled at most once, never after a loss won a race, and never after a settlement;
      no renewal is applied once the renewal task was joined or the lease lost. */
  lemma LossLeavesAdapterUnpolled(p: Profile, trace: seq<Event>, i: nat, j: nat)
    requires Disciplined(p, trace) && i < j < |trace|
    ensures trace[j].AdmissionPolled? ==> !trace[i].LossWon? && !trace[i].AdmissionPolled? && !trace[i].Settled?
    ensures trace[j].Renewed? ==> !trace[i].RenewalJoined? && !trace[i].RenewalLost?
  {
    Remembers(trace[..j], i);
    assert trace[..j][i] == trace[i];
    assert ProperAt(p, trace, j);
  }

  /** When the adapter is first polled, the latest cancellation query was answered no. */
  lemma PolledUnlessRequested(p: Profile, trace: seq<Event>, i: nat) returns (k: nat)
    requires Disciplined(p, trace) && i < |trace| && trace[i].AdmissionPolled?
    ensures LatestQuery(trace[..i], k, false)
  {
    assert ProperAt(p, trace, i);
    k := AnswerIsLatest(trace[..i]);
  }

  // The latest answer of `begin_receive`, with no settlement since.
  ghost predicate LatestReceipt(trace: seq<Event>, k: nat, a: Admission) {
    && k < |trace| && (trace[k] == Received(a) || trace[k] == Replayed(a))
    && forall j | k < j < |trace| :: !trace[j].Received? && !trace[j].Replayed? && !trace[j].Settled?
  }

  lemma {:induction false} ReceiptIsLatest(trace: seq<Event>) returns (k: nat)
    requires ViewOf(trace).course.receipt.Some?
    ensures LatestReceipt(trace, k, ViewOf(trace).course.receipt.value)
  {
    var n := |trace| - 1;
    var v, e := ViewOf(trace[..n]), trace[n];
    AdvanceFields(v, e);
    if e.Received? || e.Replayed? {
      k := n;
    } else {
      k := ReceiptIsLatest(trace[..n]);
    }
  }

  lemma {:induction false} LatestIsReceipt(trace: seq<Event>, k: nat, a: Admission)
    requires LatestReceipt(trace, k, a)
    ensures ViewOf(trace).course.receipt == Some(a)
    decreases |trace|
  {
    var n := |trace| - 1;
    if k < n {
      LatestIsReceipt(trace[..n], k, a);
      AdvanceFields(ViewOf(trace[..n]), trace[n]);
    }
  }

  // Nothing but the loss of the lease beside the run stands between the answer and the result.
  ghost predicate Stood(trace: seq<Event>, a: Admission) {
    Overruled !in trace && exists k :: LatestReceipt(trace, k, a)
  }

  lemma StoodIff(trace: seq<Event>, a: Admission)
    ensures Stood(trace, a) <==> !ViewOf(trace).course.overruled && ViewOf(trace).course.receipt == Some(a)
  {
    TroublesHappened(trace);
    if Overruled in trace {
      var j :| 0 <= j < |trace| && trace[j] == Overruled;
      Remembers(trace, j);
    }
    if ViewOf(trace).course.receipt == Some(a) { var k := ReceiptIsLatest(trace); }
    if Stood(trace, a) { var k :| LatestReceipt(trace, k, a); LatestIsReceipt(trace, k, a); }
  }

  /** What is delivered or interrupted is what `begin_receive` last answered, asked after the last settlement;
      and whenever it answered so, that is the result, unless the loss of the lease overrules it. */
  lemma DeliveredIffReplayed(p: Profile, trace: seq<Event>, r: Result, n: int)
    requires Faithful(p, ViewOf(trace), r)
    ensures r == Delivered(n) <==> Stood(trace, Replay(n))
    ensures r == Interrupted(n) <==> Stood(trace, ReplayOutcome(n))
  {
    StoodIff(trace, Replay(n));
    StoodIff(trace, ReplayOutcome(n));
  }

  /** The receiver is busy only if there was no capacity to prepare, or the first receipt says so. */
  lemma BusyAtOnce(p: Profile, trace: seq<Event>, r: Result)
    requires Disciplined(p, trace) && Faithful(p, ViewOf(trace), r) && r == ReceiverBusy
    ensures trace != [] && (trace[0] == Unprepared(NoCapacity) || trace[0] == Received(Busy))
  {
    var v := ViewOf(trace);
    if v.course.receipt.None? {
      TroublesHappened(trace);
      var i :| 0 <= i < |trace| && trace[i] == Unprepared(NoCapacity);
      FirstIsFirst(p, trace, i);
    } else {
      var k := ReceiptIsLatest(trace);
      if trace[k].Received? {
        FirstIsFirst(p, trace, k);
      } else {
        assert ProperAt(p, trace, k);
        SettlingLasts(trace, k);
      }
    }
  }

  /** And then it always is: nothing but the loss of a lease, of which there is none yet, can follow. */
  lemma BusyIsAnswered(p: Profile, trace: seq<Event>, r: Result)
    requires Faithful(p, ViewOf(trace), r)
    ensures trace == [Unprepared(NoCapacity)] || trace == [Received(Busy)] ==> r == ReceiverBusy
  {
    if trace == [Unprepared(NoCapacity)] || trace == [Received(Busy)] {
      assert trace[..0] == [];
      assert ViewOf(trace) == Advance(NOTHING, trace[0]);
    }
  }

  lemma {:induction false} SettlingLasts(trace: seq<Event>, k: nat)
    requires k <= |trace| && Settling(ViewOf(trace[..k]))
    ensures Settling(ViewOf(trace))
    decreases |trace|
  {
    if k == |trace| {
      assert trace[..k] == trace;
    } else {
      var n := |trace| - 1;
      assert trace[..n][..k] == trace[..k];
      SettlingLasts(trace[..n], k);
      AdvanceEnds(ViewOf(trace[..n]), trace[n]);
    }
  }

  ghost predicate Ends(trace: seq<Event>, o: Outcome) { exists e :: e in trace && e.Finished? && e.outcome == o }

  ghost predicate Refused(trace: seq<Event>) { exists e :: e in trace && e.Settled? && !e.accepted }

  // A settlement was refused, and it was the cancellation, or none was requested when asked again.
  ghost predicate RefusedForGood(trace: seq<Event>) {
    Refused(trace) && ((exists e :: e in trace && IsCancellation(e)) || exists k :: LatestQuery(trace, k, false))
  }

  // The trace has what a failure of this kind is down to.
  ghost predicate Explains(p: Profile, trace: seq<Event>, error: Error) {
    match error
    case OwnerCancelledBeforeReceive => Unprepared(OwnerLeft) in trace
    case Permanent => Unprepared(Rejected) in trace
    case FatalRenewal => RenewalLost in trace || Unjoined in trace
    case RuntimeProposalUnresolved => p.mode.Runtime? && exists x :: Ends(trace, Terminal(x))
    case PostReceiveUnresolved =>
      || Balked in trace || RefusedForGood(trace)
      || (PollerEnded in trace && forall o :: !Ends(trace, o))
      || Ends(trace, ExecutionFailed) || Ends(trace, AdmittedUnknown)
      || (Ends(trace, ConfirmedStopped) && exists k :: LatestQuery(trace, k, false))
      || exists e :: e in trace && e.Replayed? && (e.answer.Busy? || e.answer.Execute?)
  }

  lemma OutcomeEnds(trace: seq<Event>)
    ensures match ViewOf(trace).course.outcome case Some(o) => Ends(trace, o) case None => forall o :: !Ends(trace, o)
  {
    if ViewOf(trace).course.outcome.Some? {
      var k := OutcomeHappened(trace);
      assert trace[k] in trace;
    } else {
      forall o ensures !Ends(trace, o) {
        if Ends(trace, o) {
          var e :| e in trace && e.Finished? && e.outcome == o;
          var j :| 0 <= j < |trace| && trace[j] == e;
          Remembers(trace, j);
        }
      }
    }
  }

  lemma ReplayHappened(p: Profile, trace: seq<Event>)
    requires Disciplined(p, trace) && Settling(ViewOf(trace)) && ViewOf(trace).course.receipt.Some?
    ensures Replayed(ViewOf(trace).course.receipt.value) in trace
  {
    var k := ReceiptIsLatest(trace);
    if trace[k].Received? {
      FirstIsFirst(p, trace, k);
      SettlingHappened(trace);
    }
  }

  /** Every failure has its reason in the trace: a lost lease, an obstacle, a refused settlement, a poller that
      ended too soon, an outcome that cannot be settled, or a replay that is none. */
  lemma FailuresHaveReasons(p: Profile, trace: seq<Event>, r: Result)
    requires Disciplined(p, trace) && Faithful(p, ViewOf(trace), r) && r.Failed?
    ensures Explains(p, trace, r.error) || (r.error.FatalRenewal? && Overruled in trace)
  {
    var v := ViewOf(trace);
    MarksHappened(trace);
    TroublesHappened(trace);
    OutcomeEnds(trace);
    if r.error.PostReceiveUnresolved? {
      if v.answer.NotRequested? { var k := AnswerIsLatest(trace); }
      if v.course.canceled { CanceledHappened(trace); }
      if Settling(v) && v.course.receipt.Some? && !v.course.overruled { ReplayHappened(p, trace); }
    }
  }

  // Nobody stands in the way of a disciplined dispatch whose profile is calm.
  lemma CalmIsUntroubled(p: Profile, trace: seq<Event>, i: nat)
    requires Disciplined(p, trace) && p.calm && i < |trace|
    ensures var e := trace[i];
            && !e.Balked? && !e.RenewalLost? && !e.Unjoined? && !e.Overruled? && !e.PollerEnded? && !e.Unprepared?
            && (e.Settled? ==> e.accepted) && (e.Finished? ==> e.outcome.Terminal?)
            && (e.Replayed? ==> e.answer.Replay? || e.answer.ReplayOutcome?)
  {
    assert ProperAt(p, trace, i);
    if trace[i].Overruled? { MarksHappened(trace[..i]); LostIsNotCalm(p, trace, i); }
  }

  lemma LostIsNotCalm(p: Profile, trace: seq<Event>, i: nat)
    requires Disciplined(p, trace) && i <= |trace| && RenewalLost in trace[..i]
    ensures !p.calm
  {
    var j :| 0 <= j < i && trace[..i][j] == RenewalLost;
    assert ProperAt(p, trace, j);
  }

  /** Then the first thing that happens is an answer of `begin_receive`. */
  lemma CalmStartsWithReceipt(p: Profile, trace: seq<Event>)
    requires Disciplined(p, trace) && p.calm && trace != []
    ensures trace[0].Received?
  {
    assert ProperAt(p, trace, 0) && trace[..0] == [];
  }

  lemma CalmEndsWell(p: Profile, trace: seq<Event>, r: Result)
    requires Disciplined(p, trace) && Faithful(p, ViewOf(trace), r) && p.calm && p.mode != Runtime
    requires trace != [] && trace[0].Received? && trace[0].answer.Execute?
    ensures r.Delivered? || r.Interrupted?
  {
    forall i | 0 <= i < |trace| ensures !trace[i].Balked? && !trace[i].Overruled? && !trace[i].Unprepared? {
      CalmIsUntroubled(p, trace, i);
    }
    if r.Failed? { CalmHasNoReasons(p, trace, r.error); FailuresHaveReasons(p, trace, r); }
    if r.ReceiverBusy? { BusyAtOnce(p, trace, r); }
  }

  lemma CalmHasNoReasons(p: Profile, trace: seq<Event>, error: Error)
    requires Disciplined(p, trace) && p.calm && p.mode != Runtime
    ensures !Explains(p, trace, error)
  {
    forall e | e in trace
      ensures !e.Balked? && !e.RenewalLost? && !e.Unjoined? && !e.PollerEnded? && !e.Unprepared?
      ensures (e.Settled? ==> e.accepted) && (e.Finished? ==> e.outcome.Terminal?)
      ensures e.Replayed? ==> e.answer.Replay? || e.answer.ReplayOutcome?
    {
      var i :| 0 <= i < |trace| && trace[i] == e;
      CalmIsUntroubled(p, trace, i);
    }
  }

  /** If everybody else does their part, a dispatch that is told to execute, in a mode whose proposals may be
      settled, settles and then delivers or interrupts with what the replay after the last settlement says. */
  lemma CalmDelivers(p: Profile, trace: seq<Event>, r: Result) returns (k: nat)
    requires Disciplined(p, trace) && Faithful(p, ViewOf(trace), r) && p.calm && p.mode != Runtime
    requires trace != [] && trace[0].Received? && trace[0].answer.Execute?
    ensures exists e :: e in trace && e.Settled? && e.accepted
    ensures (r.Delivered? && LatestReceipt(trace, k, Replay(r.events)) && trace[k].Replayed?) ||
            (r.Interrupted? && LatestReceipt(trace, k, ReplayOutcome(r.outcome)) && trace[k].Replayed?)
  {
    CalmEndsWell(p, trace, r);
    k := ReceiptIsLatest(trace);
    if trace[k].Received? { FirstIsFirst(p, trace, k); }
    assert ProperAt(p, trace, k);
    SettlingHappened(trace[..k]);
    var e :| e in trace[..k] && e.Settled?;
    var i :| 0 <= i < k && trace[..k][i] == e;
    CalmIsUntroubled(p, trace, i);
    assert e in trace && e.accepted;
  }
}
