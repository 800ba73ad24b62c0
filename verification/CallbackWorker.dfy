/**
 One claimed callback delivery, from its checks to its settlement, and any number of them together.

 The answers of the authority, the quota, the policy and the peer are arbitrary choices; the calls made
 and what they told the worker are kept as a trace.
 */
module CallbackWorker {
  import opened Options
  import CallbackAudit

  const I64_MIN: int := -0x8000_0000_0000_0000
  const I64_MAX: int := 0x7FFF_FFFF_FFFF_FFFF
  const U64_MAX: int := 0xFFFF_FFFF_FFFF_FFFF

  datatype Policy = Policy(maxAttempts: int, baseMillis: int, maxMillis: int)

  predicate ValidPolicy(p: Policy) { 1 <= p.maxAttempts <= 32 && 1 <= p.baseMillis <= p.maxMillis <= U64_MAX }

  datatype Lease = Lease(event: string, config: string, attempt: int, expiresAt: int)

  predicate ValidLease(l: Lease) { 1 <= l.attempt <= 32 && 0 < l.expiresAt <= I64_MAX }

  function SaturatingAdd(a: int, b: int): int {
    if a + b > I64_MAX then I64_MAX else if a + b < I64_MIN then I64_MIN else a + b
  }

  function Clamp(v: int, low: int, high: int): int { if v < low then low else if v > high then high else v }

  function Pow2(n: nat): (r: nat)
    ensures 1 <= r
  {
    if n == 0 then 1 else 2 * Pow2(n - 1)
  }

  function Min(a: int, b: int): int { if a < b then a else b }

  lemma ProductIsPositive(a: int, b: int)
    requires 1 <= a && 1 <= b
    ensures 1 <= a * b
  {
    assert a * b == a + a * (b - 1) && 0 <= a * (b - 1);
  }

  function Ceiling(p: Policy, attempt: int): (c: int)
    requires ValidPolicy(p) && 1 <= attempt
    ensures 1 <= c <= p.maxMillis
  {
    var factor := Pow2(Min(attempt - 1, 63));
    ProductIsPositive(p.baseMillis, factor);
    Min(Min(p.baseMillis * factor, U64_MAX), p.maxMillis)
  }

  /** The bound starts at the base and doubles with every attempt until it reaches the maximum. */
  lemma CeilingDoubles(p: Policy, attempt: int)
    requires ValidPolicy(p) && 1 <= attempt < 64
    ensures Ceiling(p, 1) == p.baseMillis
    ensures Ceiling(p, attempt + 1) == Min(2 * Ceiling(p, attempt), p.maxMillis)
  {
    var factor := Pow2(attempt - 1);
    assert Pow2(attempt) == 2 * factor && Pow2(0) == 1;
    assert p.baseMillis * (2 * factor) == 2 * (p.baseMillis * factor);
  }

  // A random fraction of an exponentially growing bound.
  function FullJitter(p: Policy, attempt: int, sample: nat): Option<int>
    requires ValidPolicy(p)
  {
    if !(1 <= attempt <= p.maxAttempts) then None else Some(sample % Min(Ceiling(p, attempt) + 1, U64_MAX))
  }

  function ClampDelay(p: Policy, requested: Option<nat>, attempt: int, sample: nat): Option<int>
    requires ValidPolicy(p)
  {
    var selected := if requested.Some? then Some(requested.value) else FullJitter(p, attempt, sample);
    if selected.None? then None else Some(Clamp(selected.value, p.baseMillis, p.maxMillis))
  }

  // ----- The quota reservation of an attempt -----

  const NUL: char := '\0'

  predicate NulFree(s: string) { forall i | 0 <= i < |s| :: s[i] != NUL }

  // What the reservation id is the digest of; the digest is taken as collision free.
  function QuotaPreimage(event: string, config: string, attempt: string): string {
    event + [NUL] + config + [NUL] + attempt
  }

  lemma SplitAtNul(a: string, x: string, b: string, y: string)
    requires NulFree(a) && NulFree(b) && a + [NUL] + x == b + [NUL] + y
    ensures a == b && x == y
  {
    var s := a + [NUL] + x;
    assert s[|a|] == NUL && s[|b|] == NUL;
    assert forall i | 0 <= i < |a| :: s[i] == a[i];
    assert forall i | 0 <= i < |b| :: s[i] == b[i];
    assert |a| == |b|;
    assert a == s[..|a|] && b == s[..|b|] && x == s[|a| + 1..] && y == s[|b| + 1..];
  }

  /** Reservations of different attempts have different ids, for identifiers without a NUL character. */
  lemma QuotaIdIsUnique(e: string, c: string, n: string, e': string, c': string, n': string)
    requires NulFree(e) && NulFree(e') && NulFree(c) && NulFree(c')
    requires QuotaPreimage(e, c, n) == QuotaPreimage(e', c', n')
    ensures e == e' && c == c' && n == n'
  {
    var x, x' := c + [NUL] + n, c' + [NUL] + n';
    assert QuotaPreimage(e, c, n) == e + [NUL] + x && QuotaPreimage(e', c', n') == e' + [NUL] + x';
    SplitAtNul(e, x, e', x');
    SplitAtNul(c, n, c', n');
  }

  // ----- One delivery -----

  // What keeps a delivery from going on, or ends it: the policy does not have the enrolment (any more), all
  // attempts are spent, the payload is not the one digested or too large, the quota is exhausted or cannot be
  // asked, the lease is not renewed or the fence not valid, the worker stops, or the peer has answered.
  datatype Cause =
    | NotEnrolled | AttemptsSpent | BadPayload | NotRenewed | TooLarge
    | QuotaExhausted(after: nat) | QuotaUnavailable
    | EnrolmentGone | FenceLost | Stopped
    | Accepted | TryAgain(requested: Option<nat>) | Rejected

  datatype Event =
    | Met(cause: Cause)
    | Renewed(until: int)
    | Reserved(event: string, config: string, attempt: int)
    | Validated
    | Sent(attempt: int)
    | TimeRead(now: int)
    | RetryScheduled(at: int)
    | DeclaredDead
    | Committed
    | Revoked

  // The database time the worker goes by: the last one it asked for, or what the first renewal told it.
  function KnownTime(duration: int, trace: seq<Event>): Option<int> {
    if trace == [] then None
    else
      var n := |trace| - 1;
      if trace[n].TimeRead? then Some(trace[n].now)
      else if KnownTime(duration, trace[..n]).Some? then KnownTime(duration, trace[..n])
      else if trace[n].Renewed? then Some(SaturatingAdd(trace[n].until, -duration)) else None
  }

  // A send comes fourth, after a renewal, the reservation of this very attempt and a validated fence, with an
  // attempt number in bounds and the delivery not expired at the database time the renewal told.
  predicate SendOk(p: Policy, l: Lease, duration: int, trace: seq<Event>, i: nat)
    requires i < |trace|
  {
    trace[i].Sent? ==>
      && i == 3 && trace[3] == Sent(l.attempt) && l.attempt <= p.maxAttempts
      && trace[0].Renewed? && SaturatingAdd(trace[0].until, -duration) < l.expiresAt
      && trace[1] == Reserved(l.event, l.config, l.attempt) && trace[2] == Validated
  }

  // A retry leaves an attempt to make and lies within the policy's delays of the known time, before expiry.
  predicate RetryOk(p: Policy, l: Lease, duration: int, trace: seq<Event>, i: nat)
    requires i < |trace|
  {
    trace[i].RetryScheduled? ==>
      && l.attempt < p.maxAttempts
      && KnownTime(duration, trace[..i]).Some?
      && var now := KnownTime(duration, trace[..i]).value;
         now + Min(p.baseMillis, I64_MAX) <= trace[i].at <= now + p.maxMillis && 0 < trace[i].at < l.expiresAt
  }

  // The last word on a delivery is the last event.
  predicate Final(e: Event) { e.RetryScheduled? || e.DeclaredDead? || e.Committed? || e.Revoked? }

  predicate StepOk(p: Policy, l: Lease, duration: int, trace: seq<Event>, i: nat)
    requires i < |trace|
  {
    SendOk(p, l, duration, trace, i) && RetryOk(p, l, duration, trace, i) && (Final(trace[i]) ==> i == |trace| - 1)
  }

  predicate TraceOk(p: Policy, l: Lease, duration: int, trace: seq<Event>) {
    forall i | 0 <= i < |trace| :: StepOk(p, l, duration, trace, i)
  }

  // ----- What a claim comes to -----

  // A delay that the policy allows: what was asked for, or a random fraction of the growing bound, within limits.
  predicate Allowed(p: Policy, requested: Option<nat>, attempt: int, delay: int)
    requires ValidPolicy(p) && 1 <= attempt
  {
    && p.baseMillis <= delay <= p.maxMillis
    && match requested
       case Some(r) =>
         && (p.baseMillis <= r <= p.maxMillis ==> delay == r)
         && (r < p.baseMillis ==> delay == p.baseMillis) && (r > p.maxMillis ==> delay == p.maxMillis)
       case None => delay <= Ceiling(p, attempt) || delay == p.baseMillis
  }

  // Whether a delivery is tried again: only if an attempt is left and its time comes before the expiry. A time
  // that is not positive is refused, and the lease left to expire.
  ghost predicate Retries(p: Policy, l: Lease, requested: Option<nat>, now: int, tail: seq<Event>)
    requires ValidPolicy(p) && ValidLease(l)
  {
    if l.attempt >= p.maxAttempts then tail == [DeclaredDead]
    else exists delay :: Allowed(p, requested, l.attempt + 1, delay) && RetriesAfter(l, now, delay, tail)
  }

  predicate RetriesAfter(l: Lease, now: int, delay: int, tail: seq<Event>) {
    var at := SaturatingAdd(now, Min(delay, I64_MAX));
    tail == if at >= l.expiresAt then [DeclaredDead] else if at <= 0 then [] else [RetryScheduled(at)]
  }

  // What follows a cause. An answer to try again is followed by a look at the database time, if there is one.
  ghost predicate Follows(p: Policy, l: Lease, duration: int, body: seq<Event>, cause: Cause, tail: seq<Event>)
    requires ValidPolicy(p) && ValidLease(l)
  {
    match cause
    case NotEnrolled => tail == [Revoked]
    case AttemptsSpent => tail == [Revoked] && l.attempt > p.maxAttempts
    case EnrolmentGone => tail == [Revoked]
    case BadPayload => tail == [DeclaredDead]
    case TooLarge => tail == [DeclaredDead]
    case Rejected => tail == [DeclaredDead]
    case Accepted => tail == [Committed]
    case NotRenewed => tail == []
    case FenceLost => tail == []
    case Stopped => tail == []
    case QuotaExhausted(after) =>
      KnownTime(duration, body).Some? && Retries(p, l, Some(after), KnownTime(duration, body).value, tail)
    case QuotaUnavailable =>
      KnownTime(duration, body).Some? && Retries(p, l, None, KnownTime(duration, body).value, tail)
    case TryAgain(requested) =>
      tail == [] || (tail[0].TimeRead? && Retries(p, l, requested, tail[0].now, tail[1..]))
  }

  // The claim meets one cause, which decides the rest, or had expired when its lease was renewed.
  ghost predicate Explained(p: Policy, l: Lease, duration: int, trace: seq<Event>)
    requires ValidPolicy(p) && ValidLease(l)
  {
    || Expired(l, duration, trace)
    || exists i :: 0 <= i < |trace| && Decides(p, l, duration, trace, i)
  }

  predicate Expired(l: Lease, duration: int, trace: seq<Event>) {
    |trace| == 2 && trace[0].Renewed? && SaturatingAdd(trace[0].until, -duration) >= l.expiresAt &&
    trace[1] == DeclaredDead
  }

  ghost predicate Decides(p: Policy, l: Lease, duration: int, trace: seq<Event>, i: nat)
    requires ValidPolicy(p) && ValidLease(l) && i < |trace|
  {
    && trace[i].Met? && Follows(p, l, duration, trace[..i], trace[i].cause, trace[i + 1..])
    && (forall j | 0 <= j < i :: !trace[j].Met? && !Final(trace[j]))
  }

  lemma Conclusion(p: Policy, l: Lease, duration: int, body: seq<Event>, cause: Cause, tail: seq<Event>)
    requires ValidPolicy(p) && ValidLease(l) && Follows(p, l, duration, body, cause, tail)
    requires forall j | 0 <= j < |body| :: !body[j].Met? && !Final(body[j])
    ensures Explained(p, l, duration, body + [Met(cause)] + tail)
  {
    var trace, i := body + [Met(cause)] + tail, |body|;
    assert trace[..i] == body && trace[i + 1..] == tail;
    assert Decides(p, l, duration, trace, i);
  }

  // Nothing was met and nothing concluded so far.
  predicate Running(trace: seq<Event>) { forall j | 0 <= j < |trace| :: !trace[j].Met? && !Final(trace[j]) }

  predicate Open(trace: seq<Event>) { forall i | 0 <= i < |trace| :: !Final(trace[i]) }

  lemma Push(p: Policy, l: Lease, duration: int, trace: seq<Event>, e: Event)
    requires TraceOk(p, l, duration, trace) && Open(trace) && StepOk(p, l, duration, trace + [e], |trace|)
    ensures TraceOk(p, l, duration, trace + [e])
  {
    var more := trace + [e];
    forall i | 0 <= i < |more| ensures StepOk(p, l, duration, more, i) {
      if i < |trace| { assert StepOk(p, l, duration, trace, i) && more[..i] == trace[..i]; }
    }
  }

  // Met a cause, with the rest still to come.
  ghost predicate Facing(p: Policy, l: Lease, duration: int, body: seq<Event>, cause: Cause, trace: seq<Event>) {
    TraceOk(p, l, duration, trace) && Open(trace) && Running(body) && trace == body + [Met(cause)]
  }

  lemma Face(p: Policy, l: Lease, duration: int, body: seq<Event>, cause: Cause)
    requires TraceOk(p, l, duration, body) && Running(body)
    ensures Facing(p, l, duration, body, cause, body + [Met(cause)])
  {
    Push(p, l, duration, body, Met(cause));
  }

  lemma TimeStillKnown(duration: int, trace: seq<Event>, e: Event)
    requires KnownTime(duration, trace).Some? && !e.TimeRead?
    ensures KnownTime(duration, trace + [e]) == KnownTime(duration, trace)
  {
    assert (trace + [e])[..|trace|] == trace;
  }

  lemma DelayIsAllowed(p: Policy, requested: Option<nat>, attempt: int, sample: nat)
    requires ValidPolicy(p) && 1 <= attempt <= p.maxAttempts
    ensures ClampDelay(p, requested, attempt, sample).Some?
    ensures Allowed(p, requested, attempt, ClampDelay(p, requested, attempt, sample).value)
  {
    var m := Min(Ceiling(p, attempt) + 1, U64_MAX);
    assert 0 <= sample % m < m;
  }

  method RetryOrDeadAt(p: Policy, l: Lease, duration: int, trace: seq<Event>, requested: Option<nat>,
                       now: int) returns (tail: seq<Event>)
    requires ValidPolicy(p) && ValidLease(l) && I64_MIN <= now <= I64_MAX
    requires TraceOk(p, l, duration, trace) && Open(trace) && KnownTime(duration, trace) == Some(now)
    ensures TraceOk(p, l, duration, trace + tail) && Retries(p, l, requested, now, tail)
  {
    assert trace + [] == trace;
    var next := l.attempt + 1;
    if next > p.maxAttempts {
      Push(p, l, duration, trace, DeclaredDead);
      return [DeclaredDead];
    }
    var sample: nat := *;
    DelayIsAllowed(p, requested, next, sample);
    var delay := ClampDelay(p, requested, next, sample);
    if delay.None? {
      Push(p, l, duration, trace, DeclaredDead);
      return [DeclaredDead];
    }
    var at := SaturatingAdd(now, Min(delay.value, I64_MAX));
    if at >= l.expiresAt {
      tail := [DeclaredDead];
    } else if at <= 0 {
      tail := [];
    } else {
      tail := [RetryScheduled(at)];
      assert (trace + tail)[..|trace|] == trace;
    }
    assert RetriesAfter(l, now, delay.value, tail);
    if tail != [] { Push(p, l, duration, trace, tail[0]); }
  }

  method RetryOrDead(p: Policy, l: Lease, duration: int, trace: seq<Event>,
                     requested: Option<nat>) returns (tail: seq<Event>)
    requires ValidPolicy(p) && ValidLease(l) && TraceOk(p, l, duration, trace) && Open(trace)
    ensures TraceOk(p, l, duration, trace + tail)
    ensures tail == [] || (tail[0].TimeRead? && Retries(p, l, requested, tail[0].now, tail[1..]))
  {
    var now: int := *;
    if !(I64_MIN <= now <= I64_MAX) {
      assert trace + [] == trace;
      return [];
    }
    Push(p, l, duration, trace, TimeRead(now));
    var rest := RetryOrDeadAt(p, l, duration, trace + [TimeRead(now)], requested, now);
    tail := [TimeRead(now)] + rest;
    assert trace + tail == trace + [TimeRead(now)] + rest && tail[1..] == rest;
  }

  // The causes after which there is one thing to do, or nothing.
  function Remedy(cause: Cause): Option<Event> {
    match cause
    case NotEnrolled => Some(Revoked)
    case AttemptsSpent => Some(Revoked)
    case EnrolmentGone => Some(Revoked)
    case BadPayload => Some(DeclaredDead)
    case TooLarge => Some(DeclaredDead)
    case Rejected => Some(DeclaredDead)
    case Accepted => Some(Committed)
    case _ => None
  }

  predicate Plain(cause: Cause) { Remedy(cause).Some? || cause.NotRenewed? || cause.FenceLost? || cause.Stopped? }

  method Conclude(p: Policy, l: Lease, duration: int, body: seq<Event>, cause: Cause) returns (out: seq<Event>)
    requires ValidPolicy(p) && ValidLease(l) && TraceOk(p, l, duration, body) && Running(body) && Plain(cause)
    requires cause.AttemptsSpent? ==> l.attempt > p.maxAttempts
    ensures TraceOk(p, l, duration, out) && Explained(p, l, duration, out)
    ensures body <= out && (Remedy(cause).Some? ==> Remedy(cause).value in out)
  {
    Face(p, l, duration, body, cause);
    var tail := if Remedy(cause).Some? then [Remedy(cause).value] else [];
    if tail != [] { Push(p, l, duration, body + [Met(cause)], tail[0]); }
    Conclusion(p, l, duration, body, cause, tail);
    out := body + [Met(cause)] + tail;
    assert tail == [] ==> out == body + [Met(cause)];
  }

  // The lease is renewed over and over until the peer answers, the worker stops or a renewal fails.
  method AwaitPeer(p: Policy, l: Lease, duration: int, trace: seq<Event>, calm: bool)
    returns (answered: bool, out: seq<Event>)
    requires TraceOk(p, l, duration, trace) && Running(trace)
    ensures TraceOk(p, l, duration, out) && Running(out) && trace <= out && (calm ==> answered)
  {
    out := trace;
    var n: nat := *;
    while n > 0
      invariant TraceOk(p, l, duration, out) && Running(out) && trace <= out
    {
      var until: int := *;
      Push(p, l, duration, out, Renewed(until));
      out := out + [Renewed(until)];
      n := n - 1;
    }
    var stopped := Obstructed(calm);
    answered := !stopped;
  }

  method Settle(p: Policy, l: Lease, duration: int, body: seq<Event>, calm: bool) returns (out: seq<Event>)
    requires ValidPolicy(p) && ValidLease(l) && TraceOk(p, l, duration, body) && Running(body)
    ensures TraceOk(p, l, duration, out) && Explained(p, l, duration, out)
    ensures calm ==> body <= out && Committed in out
  {
    var refuses := Obstructed(calm);
    if !refuses {
      out := Conclude(p, l, duration, body, Accepted);
    } else if * {
      var requested: Option<nat> := *;
      Face(p, l, duration, body, TryAgain(requested));
      var tail := RetryOrDead(p, l, duration, body + [Met(TryAgain(requested))], requested);
      Conclusion(p, l, duration, body, TryAgain(requested), tail);
      out := body + [Met(TryAgain(requested))] + tail;
    } else {
      out := Conclude(p, l, duration, body, Rejected);
    }
  }

  // The quota says no, or nothing.
  method Postpone(p: Policy, l: Lease, duration: int, body: seq<Event>, after: Option<nat>, now: int)
    returns (out: seq<Event>)
    requires ValidPolicy(p) && ValidLease(l) && I64_MIN <= now <= I64_MAX
    requires TraceOk(p, l, duration, body) && Running(body) && KnownTime(duration, body) == Some(now)
    ensures TraceOk(p, l, duration, out) && Explained(p, l, duration, out)
  {
    var cause := if after.Some? then QuotaExhausted(after.value) else QuotaUnavailable;
    Face(p, l, duration, body, cause);
    TimeStillKnown(duration, body, Met(cause));
    var tail := RetryOrDeadAt(p, l, duration, body + [Met(cause)], after, now);
    Conclusion(p, l, duration, body, cause, tail);
    out := body + [Met(cause)] + tail;
  }

  // Whether somebody stands in the way here, which nobody does if all is calm.
  method Obstructed(calm: bool) returns (b: bool)
    ensures b ==> !calm
  {
    b := *;
    if calm { b := false; }
  }

  /** Every run of one claimed delivery: it is sent at most once, after a renewed lease, the reservation of its
      own attempt and a validated fence, with an attempt number that the policy allows and before it expires;
      a retry lies between database now and expiry; the last word on it is the last call; and what that is, or
      that there is none, is decided by the one cause that the claim met. If everybody else does their part, an
      allowed attempt that has not expired is sent and committed. */
  method Process(p: Policy, l: Lease, duration: int, calm: bool) returns (trace: seq<Event>)
    requires ValidPolicy(p) && ValidLease(l)
    ensures TraceOk(p, l, duration, trace) && Explained(p, l, duration, trace)
    ensures calm && l.attempt <= p.maxAttempts && !Expired(l, duration, trace) ==>
              Sent(l.attempt) in trace && Committed in trace
  {
    trace := [];
    var met := Obstructed(calm);
    if met {
      trace := Conclude(p, l, duration, trace, NotEnrolled);
      return;
    }
    if l.attempt > p.maxAttempts {
      trace := Conclude(p, l, duration, trace, AttemptsSpent);
      return;
    }
    met := Obstructed(calm);
    if met {
      trace := Conclude(p, l, duration, trace, BadPayload);
      return;
    }
    met := Obstructed(calm);
    if met {
      trace := Conclude(p, l, duration, trace, NotRenewed);
      return;
    }
    var until: int := *;
    var now := SaturatingAdd(until, -duration);
    trace := [Renewed(until)];
    assert KnownTime(duration, trace) == Some(now) by { assert trace[..0] == []; }
    if now >= l.expiresAt {
      Push(p, l, duration, trace, DeclaredDead);
      trace := trace + [DeclaredDead];
      return;
    }
    met := Obstructed(calm);
    if met {
      trace := Conclude(p, l, duration, trace, TooLarge);
      return;
    }
    met := Obstructed(calm);
    if met {
      var after: Option<nat> := *;
      trace := Postpone(p, l, duration, trace, after, now);
      return;
    }
    trace := trace + [Reserved(l.event, l.config, l.attempt)];
    met := Obstructed(calm);
    if met {
      trace := Conclude(p, l, duration, trace, EnrolmentGone);
      return;
    }
    met := Obstructed(calm);
    if met {
      trace := Conclude(p, l, duration, trace, FenceLost);
      return;
    }
    trace := trace + [Validated];
    trace := trace + [Sent(l.attempt)];
    var answered;
    answered, trace := AwaitPeer(p, l, duration, trace, calm);
    if answered {
      trace := Settle(p, l, duration, trace, calm);
      assert calm ==> trace[3] == Sent(l.attempt);
    } else {
      trace := Conclude(p, l, duration, trace, Stopped);
    }
  }

  // ----- Any number of workers and claims -----

  // What claim `claim` did is one of its events.
  datatype Entry = Entry(claim: nat, event: Event)

  function Of(log: seq<Entry>, claim: nat): seq<Event> {
    if log == [] then []
    else
      var n := |log| - 1;
      if log[n].claim == claim then Of(log[..n], claim) + [log[n].event] else Of(log[..n], claim)
  }

  // Every claim is worked on as `Process` works, the calls of different claims interleaved in any way and
  // broken off at any point; and a later claim of the same delivery has a larger attempt number.
  ghost predicate Run(p: Policy, duration: int, claims: seq<Lease>, log: seq<Entry>) {
    && (forall k | 0 <= k < |log| :: log[k].claim < |claims|)
    && (forall c | 0 <= c < |claims| :: ValidLease(claims[c]) && Partial(p, claims[c], duration, Of(log, c)))
    && (forall a, b | 0 <= a < b < |claims| && SameDelivery(claims[a], claims[b]) ::
        claims[a].attempt < claims[b].attempt)
  }

  ghost predicate Partial(p: Policy, l: Lease, duration: int, trace: seq<Event>) {
    exists rest :: TraceOk(p, l, duration, trace + rest)
  }

  predicate SameDelivery(a: Lease, b: Lease) { a.event == b.event && a.config == b.config }

  ghost function Sends(claims: seq<Lease>, log: seq<Entry>, d: Lease): set<nat>
    requires forall k | 0 <= k < |log| :: log[k].claim < |claims|
  {
    set k: nat | k < |log| && log[k].event.Sent? && SameDelivery(claims[log[k].claim], d)
  }

  lemma {:induction false} OfFinds(log: seq<Entry>, k: nat)
    requires k < |log|
    ensures |Of(log[..k], log[k].claim)| < |Of(log, log[k].claim)|
    ensures Of(log, log[k].claim)[|Of(log[..k], log[k].claim)|] == log[k].event
    decreases |log|
  {
    var n := |log| - 1;
    if k < n {
      OfFinds(log[..n], k);
      assert log[..n][..k] == log[..k];
    }
  }

  lemma {:induction false} OfStarts(log: seq<Entry>, k: nat, claim: nat)
    requires k <= |log|
    ensures Of(log[..k], claim) <= Of(log, claim)
    decreases |log|
  {
    var n := |log| - 1;
    if k <= n {
      OfStarts(log[..n], k, claim);
      assert log[..n][..k] == log[..k];
    } else {
      assert log[..k] == log;
    }
  }

  lemma SentIsFourth(p: Policy, l: Lease, duration: int, trace: seq<Event>, i: nat)
    requires Partial(p, l, duration, trace) && i < |trace| && trace[i].Sent?
    ensures i == 3 && trace[i] == Sent(l.attempt) && l.attempt <= p.maxAttempts
    ensures trace[0].Renewed? && trace[1] == Reserved(l.event, l.config, l.attempt) && trace[2] == Validated
  {
    var rest :| TraceOk(p, l, duration, trace + rest);
    assert StepOk(p, l, duration, trace + rest, i);
  }

  lemma SendsDiffer(p: Policy, duration: int, claims: seq<Lease>, log: seq<Entry>, d: Lease, j: nat, k: nat)
    requires Run(p, duration, claims, log) && j in Sends(claims, log, d) && k in Sends(claims, log, d) && j < k
    ensures claims[log[j].claim].attempt != claims[log[k].claim].attempt
  {
    var a, b := log[j].claim, log[k].claim;
    OfFinds(log, j);
    OfFinds(log, k);
    SentIsFourth(p, claims[a], duration, Of(log, a), |Of(log[..j], a)|);
    SentIsFourth(p, claims[b], duration, Of(log, b), |Of(log[..k], b)|);
    OfStarts(log[..k], j + 1, a);
    assert log[..k][..j + 1] == log[..j + 1] && log[..j + 1][..j] == log[..j] &&
           |Of(log[..j + 1], a)| == |Of(log[..j], a)| + 1;
    assert a != b;
  }

  lemma {:induction false} Pigeonhole(s: set<nat>, f: nat -> int, n: nat)
    requires forall x | x in s :: 1 <= f(x) <= n
    requires forall x, y | x in s && y in s && x != y :: f(x) != f(y)
    ensures |s| <= n
    decreases n
  {
    if n == 0 {
      assert s == {};
    } else if exists x :: x in s && f(x) == n {
      var x :| x in s && f(x) == n;
      Pigeonhole(s - {x}, f, n - 1);
    } else {
      Pigeonhole(s, f, n - 1);
    }
  }

  /** Whatever the interleaving, however many workers and however often a delivery is claimed again: it is sent
      at most `maxAttempts` times. */
  lemma SentAtMostMaxAttempts(p: Policy, duration: int, claims: seq<Lease>, log: seq<Entry>, d: Lease)
    requires ValidPolicy(p) && Run(p, duration, claims, log)
    ensures |Sends(claims, log, d)| <= p.maxAttempts
  {
    var s := Sends(claims, log, d);
    var f := (k: nat) => if k < |log| && log[k].claim < |claims| then claims[log[k].claim].attempt else 0;
    forall k | k in s ensures 1 <= f(k) <= p.maxAttempts {
      OfFinds(log, k);
      SentIsFourth(p, claims[log[k].claim], duration, Of(log, log[k].claim), |Of(log[..k], log[k].claim)|);
    }
    forall j, k | j in s && k in s && j != k ensures f(j) != f(k) {
      if j < k { SendsDiffer(p, duration, claims, log, d, j, k); }
      else { SendsDiffer(p, duration, claims, log, d, k, j); }
    }
    Pigeonhole(s, f, p.maxAttempts);
  }

  function QuotaId(l: Lease): string
    requires ValidLease(l)
  {
    QuotaPreimage(l.event, l.config, CallbackAudit.Decimal(l.attempt))
  }

  predicate IsSend(log: seq<Entry>, k: nat) { k < |log| && log[k].event.Sent? }

  /** Every send in a run comes after a renewal, a reservation and a validated fence of the same claim; and no two
      sends, of whichever deliveries, go under the same reservation id. */
  lemma SendsAreFencedAndPaidFor(p: Policy, duration: int, claims: seq<Lease>, log: seq<Entry>, j: nat, k: nat)
    requires Run(p, duration, claims, log) && IsSend(log, j) && IsSend(log, k)
    requires forall c | 0 <= c < |claims| :: NulFree(claims[c].event) && NulFree(claims[c].config)
    ensures var c := log[k].claim; var before := Of(log[..k], c);
            |before| == 3 && before[0].Renewed? &&
            before[1] == Reserved(claims[c].event, claims[c].config, claims[c].attempt) &&
            before[2] == Validated
    ensures j != k ==> QuotaId(claims[log[j].claim]) != QuotaId(claims[log[k].claim])
  {
    var a, b := claims[log[j].claim], claims[log[k].claim];
    OfFinds(log, k);
    OfStarts(log, k, log[k].claim);
    SentIsFourth(p, b, duration, Of(log, log[k].claim), |Of(log[..k], log[k].claim)|);
    if j != k && QuotaId(a) == QuotaId(b) {
      QuotaIdIsUnique(a.event, a.config, CallbackAudit.Decimal(a.attempt), b.event, b.config,
                      CallbackAudit.Decimal(b.attempt));
      CallbackAudit.DecimalIsInjective(a.attempt, b.attempt);
      SendsDiffer(p, duration, claims, log, b, if j < k then j else k, if j < k then k else j);
    }
  }
}
