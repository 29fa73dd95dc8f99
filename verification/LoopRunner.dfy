/** Loop runs (`internal/looprunner/runner.go`): pre phases, iterated loop phases and post
    phases, each with retries and nudges.

    What lies outside (attempts, nested runs, the context, files, event writes) is given by
    `World`: every question to it is asked at a moment of its own.  The runner's methods are
    proved against a successor function on phases: whatever the nested loops do, the phases
    that run are those a run may go on to, one after another. */
module LoopRunner {
  import opened Common
  import opened StopReasons

  // ---- values

  datatype Directive = NoDirective | Continue | Exit | Abort | Unknown(text: string)

  function Severity(d: Directive): nat {
    match d
    case Abort => 3
    case Exit => 2
    case Continue => 1
    case _ => 0
  }

  /** The outcome of an attempt or of a phase. */
  datatype Result = Result(exitCode: int, reason: Reason, session: string, retryAfter: nat, directive: Directive, tag: string)

  datatype Answer = Answer(result: Result, failed: bool)

  datatype Context = Running | ContextCancelled | DeadlineExceeded

  /** What the environment answers at each moment.  `enrich` is the broker's stop reason for a
      result that has none. */
  datatype World = World(
    attempt: nat -> Answer,
    nested: nat -> Answer,
    context: nat -> Context,
    missing: nat -> bool,
    mayRetry: nat -> bool,
    renders: nat -> bool,
    startWritten: nat -> bool,
    enrich: nat -> Reason
  )

  /** `nested` phases run a loop or team file of their own. */
  datatype Phase = Phase(name: string, nested: bool, resume: bool, maxNudges: int)

  datatype Config = Config(pre: seq<Phase>, loop: seq<Phase>, post: seq<Phase>, maxIterations: int, maxRetries: int, nestedRuns: bool)

  datatype Kind = PreKind | LoopKind | PostKind

  /** The place of a phase in a run. */
  datatype Slot = Slot(kind: Kind, iteration: nat, index: nat)

  datatype EndReason = EndedTurn | ByMarker | MaxIterations | ByAbort | PhaseFailure | ByTimeout | ByCancellation

  /** What a run does, in order; launches and nested runs name the moment of their answer. */
  datatype Event =
    | LoopStart
    | PhaseStart(slot: Slot)
    | RetryNotice(retry: nat)
    | Launch(number: nat, session: string, at: nat)
    | PhaseEnd(slot: Slot, stopReason: Reason, endSession: string, directive: Directive, tag: string)
    | NestedRun(nestedAt: nat)
    | LoopEnd(reason: EndReason, exitLabel: string, completed: nat)

  function PhaseReason(r: Result): Reason {
    if r.reason != NoReason then r.reason else ReasonFor(r.exitCode)
  }

  // ---- the attempts of one phase

  /** The directive of a series of attempts: an attempt that ends otherwise than by a generic
      failure decides, among generic failures the severest does. */
  function Directed(w: World, ats: seq<nat>): (Directive, string) {
    if ats == [] then (NoDirective, "")
    else
      var before := Directed(w, ats[..|ats| - 1]);
      var r := w.attempt(ats[|ats| - 1]).result;
      if r.exitCode != 1 || Severity(r.directive) > Severity(before.0) then (r.directive, r.tag) else before
  }

  /** The last attempt's result with that directive. */
  function Combined(w: World, ats: seq<nat>): Result
    requires ats != []
  {
    w.attempt(ats[|ats| - 1]).result.(directive := Directed(w, ats).0, tag := Directed(w, ats).1)
  }

  /** Attempts 0, 1, 2, … in the same session, each but the first announced as a retry. */
  function RetryTrace(ats: seq<nat>, session: string): seq<Event> {
    if ats == [] then []
    else
      var n := |ats| - 1;
      RetryTrace(ats[..n], session) + (if n == 0 then [] else [RetryNotice(n)]) + [Launch(n, session, ats[n])]
  }

  /** One attempt more. */
  lemma OneMore(w: World, ats: seq<nat>, at: nat, session: string)
    ensures RetryTrace(ats + [at], session) ==
      RetryTrace(ats, session) + (if ats == [] then [] else [RetryNotice(|ats|)]) + [Launch(|ats|, session, at)]
    ensures var r := w.attempt(at).result;
      Directed(w, ats + [at]) ==
        if r.exitCode != 1 || Severity(r.directive) > Severity(Directed(w, ats).0) then (r.directive, r.tag) else Directed(w, ats)
    ensures (ats + [at])[..|ats|] == ats
    ensures ats != [] && AllRetryable(w, ats[..|ats| - 1]) ==>
      (AllRetryable(w, ats) <==> AskedAgain(w, ats[|ats| - 1]))
  {
    assert (ats + [at])[..|ats|] == ats;
    if ats != [] {
      assert ats == ats[..|ats| - 1] + [ats[|ats| - 1]];
    }
  }

  function RetryLimit(maxRetries: int): nat {
    if maxRetries < 0 then 1 else 1 + maxRetries
  }

  /** The wait before another attempt was allowed, and over before the context was. */
  predicate CanRetry(w: World, at: nat) {
    w.mayRetry(at + 1) && w.context(at + 1) == Running
  }

  /** What a series of attempts comes to: each failure that calls for a retry is tried again,
      within the limit, unless the wait is not allowed or the context ends it. */
  ghost predicate Retried(w: World, maxRetries: int, ats: seq<nat>, result: Result, failed: bool) {
    && 1 <= |ats| <= RetryLimit(maxRetries)
    && AllRetryable(w, ats[..|ats| - 1])
    && var at := ats[|ats| - 1];
    && failed == w.attempt(at).failed
    && if failed then result == w.attempt(at).result
       else if |ats| < RetryLimit(maxRetries) && Retryable(w.attempt(at).result.exitCode, w.attempt(at).result.reason) then
         !CanRetry(w, at) && result == StoppedRetry(w, at, Combined(w, ats))
       else result == Combined(w, ats)
  }

  /** A deadline that passes while a retry waits is a timeout. */
  function StoppedRetry(w: World, at: nat, r: Result): Result {
    if w.mayRetry(at + 1) && w.context(at + 1) == DeadlineExceeded then r.(exitCode := 124, reason := TimedOut) else r
  }

  /** Attempts that each called for another and could be followed by it. */
  ghost predicate AllRetryable(w: World, ats: seq<nat>) {
    forall at <- ats :: AskedAgain(w, at)
  }

  predicate AskedAgain(w: World, at: nat) {
    !w.attempt(at).failed && Retryable(w.attempt(at).result.exitCode, w.attempt(at).result.reason) && CanRetry(w, at)
  }

  /** An attempt's result with the directive that counts after it. */
  function Weighed(directive: Directive, tag: string, r: Result): Result {
    if r.exitCode != 1 || Severity(r.directive) > Severity(directive) then r else r.(directive := directive, tag := tag)
  }

  /** A phase whose attempts go on: each so far but the last called for another. */
  ghost predicate Retrying(w: World, maxRetries: int, ats: seq<nat>, events: seq<Event>, session: string, result: Result) {
    && 1 <= |ats| <= RetryLimit(maxRetries) && AllRetryable(w, ats[..|ats| - 1]) && !w.attempt(ats[|ats| - 1]).failed
    && events == RetryTrace(ats, session) && result == Combined(w, ats)
  }

  lemma RetryStarts(w: World, maxRetries: int, at: nat, session: string)
    ensures [Launch(0, session, at)] == RetryTrace([at], session)
    ensures if w.attempt(at).failed then Retried(w, maxRetries, [at], w.attempt(at).result, true)
            else Retrying(w, maxRetries, [at], [Launch(0, session, at)], session, Weighed(NoDirective, "", w.attempt(at).result))
  {
    OneMore(w, [], at, session);
    assert [] + [at] == [at] && [at][..0] == [];
    assert RetryTrace([], session) == [] && Directed(w, []) == (NoDirective, "");
  }

  lemma RetryGoesOn(w: World, maxRetries: int, ats: seq<nat>, events: seq<Event>, session: string, result: Result, at: nat)
    requires Retrying(w, maxRetries, ats, events, session, result) && |ats| < RetryLimit(maxRetries)
    requires Retryable(result.exitCode, result.reason) && CanRetry(w, ats[|ats| - 1])
    ensures var longer, launched := ats + [at], events + [RetryNotice(|ats|)] + [Launch(|ats|, session, at)];
      && launched == RetryTrace(longer, session)
      && if w.attempt(at).failed then Retried(w, maxRetries, longer, w.attempt(at).result, true)
         else Retrying(w, maxRetries, longer, launched, session, Weighed(result.directive, result.tag, w.attempt(at).result))
  {
    hide RetryTrace, Directed, Severity, Retryable, AllRetryable, CanRetry;
    OneMore(w, ats, at, session);
  }

  lemma RetryStops(w: World, maxRetries: int, ats: seq<nat>, events: seq<Event>, session: string, result: Result)
    requires Retrying(w, maxRetries, ats, events, session, result)
    ensures events == RetryTrace(ats, session)
    ensures |ats| == RetryLimit(maxRetries) || !Retryable(result.exitCode, result.reason) ==> Retried(w, maxRetries, ats, result, false)
    ensures |ats| < RetryLimit(maxRetries) && Retryable(result.exitCode, result.reason) && !CanRetry(w, ats[|ats| - 1]) ==>
      Retried(w, maxRetries, ats, StoppedRetry(w, ats[|ats| - 1], result), false)
  {
    hide RetryTrace, Directed, Retryable, AllRetryable;
  }

  lemma RetryLimitIs(w: World, maxRetries: int)
    ensures RetryLimit(maxRetries) == if maxRetries < 0 then 1 else 1 + maxRetries
    ensures forall at: nat :: CanRetry(w, at) <==> w.mayRetry(at + 1) && w.context(at + 1) == Running
    ensures forall at: nat, r: Result ::
      StoppedRetry(w, at, r) == if w.mayRetry(at + 1) && w.context(at + 1) == DeadlineExceeded then r.(exitCode := ExitCode(TimedOut), reason := TimedOut) else r
  {
  }

  method RunPhaseWithRetry(w: World, now: nat, maxRetries: int, session: string)
    returns (events: seq<Event>, ats: seq<nat>, result: Result, failed: bool, after: nat)
    ensures events == RetryTrace(ats, session)
    ensures Retried(w, maxRetries, ats, result, failed)
    ensures after > now
  {
    hide *;
    RetryLimitIs(w, maxRetries);
    RetryStarts(w, maxRetries, now, session);
    ats := [now];
    events := [Launch(0, session, now)];
    var answer := w.attempt(now);
    after := now + 1;
    if answer.failed {
      return events, ats, answer.result, true, after;
    }
    result := Weighed(NoDirective, "", answer.result);
    var retry := 1;
    while retry <= maxRetries
      invariant 1 <= retry == |ats| <= RetryLimit(maxRetries) && after == ats[|ats| - 1] + 1 > now
      invariant Retrying(w, maxRetries, ats, events, session, result)
      decreases maxRetries - retry
    {
      RetryStops(w, maxRetries, ats, events, session, result);
      if !Retryable(result.exitCode, result.reason) {
        return events, ats, result, false, after;
      }
      if !w.mayRetry(after) {
        return events, ats, result, false, after + 1;
      }
      var context := w.context(after);
      if context != Running {
        if context == DeadlineExceeded {
          result := result.(exitCode := ExitCode(TimedOut), reason := TimedOut);
        }
        return events, ats, result, false, after + 1;
      }
      after := after + 1;
      RetryGoesOn(w, maxRetries, ats, events, session, result, after);
      events := events + [RetryNotice(retry)] + [Launch(retry, session, after)];
      ats := ats + [after];
      answer := w.attempt(after);
      after := after + 1;
      if answer.failed {
        return events, ats, answer.result, true, after;
      }
      result := Weighed(result.directive, result.tag, answer.result);
      retry := retry + 1;
    }
    RetryStops(w, maxRetries, ats, events, session, result);
    return events, ats, result, false, after;
  }

  // ---- nudges

  predicate Clean(r: Result) {
    r.exitCode == 0 && PhaseReason(r) == EndTurn
  }

  function NudgeLimit(maxNudges: int): nat {
    if maxNudges == 0 then 1 else if maxNudges < 0 then 0 else maxNudges
  }

  /** The session in which the next attempt goes on. */
  function SessionAfter(w: World, session: string, ats: seq<nat>): string {
    if ats == [] then session else w.attempt(ats[|ats| - 1]).result.session
  }

  /** Attempts numbered on from `first`, each in the session the one before it left. */
  function NudgeTrace(w: World, first: nat, session: string, ats: seq<nat>): seq<Event> {
    if ats == [] then []
    else
      var n := |ats| - 1;
      NudgeTrace(w, first, session, ats[..n]) + [Launch(first + n, SessionAfter(w, session, ats[..n]), ats[n])]
  }

  lemma OneNudgeMore(w: World, first: nat, session: string, ats: seq<nat>, at: nat)
    ensures NudgeTrace(w, first, session, ats + [at]) ==
      NudgeTrace(w, first, session, ats) + [Launch(first + |ats|, SessionAfter(w, session, ats), at)]
    ensures SessionAfter(w, session, ats + [at]) == w.attempt(at).result.session
    ensures AllIncomplete(w, ats + [at]) <==>
      AllIncomplete(w, ats) && LeftIncomplete(w, at) && w.context(at + 2) == Running
  {
    assert (ats + [at])[|ats|] == at && forall x <- ats :: x in ats + [at];
    assert (ats + [at])[..|ats|] == ats;
  }

  /** When the required files were last looked for. */
  function LastCheck(now: nat, ats: seq<nat>): nat {
    if ats == [] then now else ats[|ats| - 1] + 1
  }

  /** What nudging comes to.  A clean end with missing files is nudged, within the limit, as long
      as every attempt ends so and the context allows; a clean end is reported only if nothing
      was missing when last looked for. */
  ghost predicate Nudged(w: World, now: nat, maxNudges: int, before: Result, ats: seq<nat>, result: Result, failed: bool) {
    && |ats| <= NudgeLimit(maxNudges)
    && (ats != [] ==> Clean(before) && w.missing(now) && w.context(now + 1) == Running && AllIncomplete(w, ats[..|ats| - 1]))
    && failed == (ats != [] && w.attempt(ats[|ats| - 1]).failed)
    && var check := LastCheck(now, ats);
    && if failed || !Clean(Latest(w, before, ats)) || !w.missing(check) then result == Latest(w, before, ats)
       else if |ats| == NudgeLimit(maxNudges) then result == Incomplete(before, SessionAfter(w, before.session, ats))
       else w.context(check + 1) != Running && result == Interrupt(w.context(check + 1), before)
  }

  /** Attempts that ended clean and left files missing, while the context was running. */
  ghost predicate AllIncomplete(w: World, ats: seq<nat>) {
    forall at <- ats :: LeftIncomplete(w, at) && w.context(at + 2) == Running
  }

  predicate LeftIncomplete(w: World, at: nat) {
    !w.attempt(at).failed && Clean(w.attempt(at).result) && w.missing(at + 1)
  }

  function Latest(w: World, before: Result, ats: seq<nat>): Result {
    if ats == [] then before else w.attempt(ats[|ats| - 1]).result
  }

  /** The context ended the phase before it could be nudged. */
  function Interrupt(context: Context, before: Result): Result {
    if context == DeadlineExceeded then before.(exitCode := 124, reason := TimedOut) else before.(exitCode := 130, reason := Cancelled)
  }

  /** The directive is that of the first series of attempts. */
  function Incomplete(before: Result, session: string): Result {
    Result(1, IncompleteOutput, session, 0, before.directive, before.tag)
  }

  /** A phase that is being nudged: it ended clean, as did every nudge so far, and files were
      missing each time. */
  ghost predicate Nudging(w: World, now: nat, maxNudges: int, first: nat, before: Result, ats: seq<nat>, events: seq<Event>, session: string) {
    && |ats| <= NudgeLimit(maxNudges) && Clean(before) && w.missing(now)
    && (ats != [] ==> w.context(now + 1) == Running && AllIncomplete(w, ats[..|ats| - 1]) && LeftIncomplete(w, ats[|ats| - 1]))
    && session == SessionAfter(w, before.session, ats) && events == NudgeTrace(w, first, before.session, ats)
  }

  lemma NudgesStart(w: World, now: nat, maxNudges: int, first: nat, before: Result)
    ensures NudgeTrace(w, first, before.session, []) == []
    ensures if w.missing(now) && Clean(before) then Nudging(w, now, maxNudges, first, before, [], [], before.session)
            else Nudged(w, now, maxNudges, before, [], before, false)
  {
  }

  lemma NudgesGoOn(w: World, now: nat, maxNudges: int, first: nat, before: Result, ats: seq<nat>, events: seq<Event>, session: string, at: nat)
    requires Nudging(w, now, maxNudges, first, before, ats, events, session) && |ats| < NudgeLimit(maxNudges)
    requires w.context(LastCheck(now, ats) + 1) == Running
    ensures var longer, launched := ats + [at], events + [Launch(first + |ats|, session, at)];
      && launched == NudgeTrace(w, first, before.session, longer)
      && if w.attempt(at).failed || !Clean(w.attempt(at).result) || !w.missing(at + 1)
         then Nudged(w, now, maxNudges, before, longer, w.attempt(at).result, w.attempt(at).failed)
         else Nudging(w, now, maxNudges, first, before, longer, launched, w.attempt(at).result.session)
  {
    hide Clean, NudgeTrace, AllIncomplete, SessionAfter;
    assert (ats + [at])[..|ats|] == ats;
    OneNudgeMore(w, first, before.session, ats, at);
    if ats == [] {
      NoneIncomplete(w);
    } else {
      assert ats == ats[..|ats| - 1] + [ats[|ats| - 1]];
      OneNudgeMore(w, first, before.session, ats[..|ats| - 1], ats[|ats| - 1]);
    }
  }

  lemma NoneIncomplete(w: World)
    ensures AllIncomplete(w, [])
  {
  }

  lemma NudgesCut(w: World, now: nat, maxNudges: int, first: nat, before: Result, ats: seq<nat>, events: seq<Event>, session: string, reason: Reason)
    requires Nudging(w, now, maxNudges, first, before, ats, events, session) && |ats| < NudgeLimit(maxNudges)
    requires var context := w.context(LastCheck(now, ats) + 1);
      context != Running && reason == if context == DeadlineExceeded then TimedOut else Cancelled
    ensures Nudged(w, now, maxNudges, before, ats, before.(exitCode := ExitCode(reason), reason := reason), false)
    ensures events == NudgeTrace(w, first, before.session, ats)
  {
  }

  lemma NudgesUsedUp(w: World, now: nat, maxNudges: int, first: nat, before: Result, ats: seq<nat>, events: seq<Event>, session: string)
    requires Nudging(w, now, maxNudges, first, before, ats, events, session) && |ats| == NudgeLimit(maxNudges)
    ensures Nudged(w, now, maxNudges, before, ats,
                   Result(ExitCode(IncompleteOutput), IncompleteOutput, session, 0, before.directive, before.tag), false)
    ensures events == NudgeTrace(w, first, before.session, ats)
  {
  }

  lemma LastChecks(now: nat)
    ensures LastCheck(now, []) == now && forall ats: seq<nat>, at: nat :: LastCheck(now, ats + [at]) == at + 1
  {
  }

  lemma NudgeLimitIs(maxNudges: int)
    ensures NudgeLimit(maxNudges) == if maxNudges == 0 then 1 else if maxNudges < 0 then 0 else maxNudges
  {
  }

  method CompletePhaseRequirements(w: World, now: nat, phase: Phase, before: Result, first: nat)
    returns (events: seq<Event>, ats: seq<nat>, result: Result, failed: bool, after: nat)
    ensures events == NudgeTrace(w, first, before.session, ats)
    ensures Nudged(w, now, phase.maxNudges, before, ats, result, failed)
    ensures after > now
  {
    hide *;
    LastChecks(now);
    after := now + 1;
    events, ats := [], [];
    NudgesStart(w, now, phase.maxNudges, first, before);
    if !w.missing(now) || !Clean(before) {
      return events, ats, before, false, after;
    }
    var maxNudges := phase.maxNudges;
    if maxNudges == 0 {
      maxNudges := 1;
    }
    NudgeLimitIs(phase.maxNudges);
    var session := before.session;
    var i := 0;
    while i < maxNudges
      invariant 0 <= i == |ats| <= NudgeLimit(phase.maxNudges)
      invariant Nudging(w, now, phase.maxNudges, first, before, ats, events, session) && after == LastCheck(now, ats) + 1 > now
      decreases maxNudges - i
    {
      var context := w.context(after);
      if context != Running {
        var reason := if context == DeadlineExceeded then TimedOut else Cancelled;
        NudgesCut(w, now, phase.maxNudges, first, before, ats, events, session, reason);
        return events, ats, before.(exitCode := ExitCode(reason), reason := reason), false, after + 1;
      }
      after := after + 1;
      NudgesGoOn(w, now, phase.maxNudges, first, before, ats, events, session, after);
      events := events + [Launch(first + i, session, after)];
      ats := ats + [after];
      var answer := w.attempt(after);
      after := after + 1;
      if answer.failed {
        return events, ats, answer.result, true, after;
      }
      session := answer.result.session;
      if !w.missing(after) || !Clean(answer.result) {
        return events, ats, answer.result, false, after + 1;
      }
      after := after + 1;
      i := i + 1;
    }
    result := Result(ExitCode(IncompleteOutput), IncompleteOutput, session, 0, before.directive, before.tag);
    NudgesUsedUp(w, now, phase.maxNudges, first, before, ats, events, session);
    return events, ats, result, false, after;
  }

  // ---- one phase

  /** How a phase went: it did not start, it was a nested run, or it made attempts; `middle` is
      what the retried attempts came to and `checked` when files were first looked for. */
  datatype Course =
    | Refused
    | Nested(at: nat)
    | Ran(session: string, retries: seq<nat>, middle: Result, checked: nat, nudges: seq<nat>)

  /** A phase that was run, from its first moment to the one right after it; `seen` is its stop
      reason once the broker has been asked. */
  datatype PhaseRun = PhaseRun(slot: Slot, began: nat, course: Course, result: Result, failed: bool, seen: Reason, ended: nat)

  /** What a phase does, in order. */
  function Events(w: World, run: PhaseRun): seq<Event> {
    match run.course
    case Refused => []
    case Nested(at) => [NestedRun(at)]
    case Ran(session, retries, middle, _, nudges) =>
      [PhaseStart(run.slot)] + RetryTrace(retries, session) + NudgeTrace(w, |retries|, middle.session, nudges) +
      [PhaseEnd(run.slot, PhaseReason(run.result), run.result.session, run.result.directive, run.result.tag)]
  }

  function NestedResult(r: Result): Result {
    r.(directive := if r.reason == Blocked then Abort else NoDirective)
  }

  /** Its prompt can be rendered and its start is written. */
  predicate CanStart(w: World, at: nat) {
    w.renders(at) && w.startWritten(at)
  }

  ghost predicate PhaseOk(w: World, config: Config, phase: Phase, run: PhaseRun) {
    match run.course
    case Refused => run.failed && if phase.nested then !config.nestedRuns else !CanStart(w, run.began)
    case Nested(at) =>
      && phase.nested && config.nestedRuns && at == run.began && run.failed == w.nested(at).failed
      && (!run.failed ==> run.result == NestedResult(w.nested(at).result))
    case Ran(_, retries, middle, checked, nudges) =>
      && !phase.nested && CanStart(w, run.began)
      && if Retried(w, config.maxRetries, retries, middle, true) then nudges == [] && run.failed && run.result == middle
         else
           && Retried(w, config.maxRetries, retries, middle, false)
           && Nudged(w, checked, phase.maxNudges, middle, nudges, run.result, run.failed)
  }

  const NO_RESULT := Result(0, NoReason, "", 0, NoDirective, "")

  method ExecutePhase(w: World, now: nat, config: Config, phase: Phase, slot: Slot, session: string)
    returns (events: seq<Event>, run: PhaseRun, after: nat)
    ensures events == Events(w, run) && PhaseOk(w, config, phase, run)
    ensures run.slot == slot && run.seen == run.result.reason && run.began == now < after == run.ended
    ensures run.course.Ran? ==> run.course.session == session
  {
    after := now + 1;
    var refused := PhaseRun(slot, now, Refused, NO_RESULT, true, NoReason, after);
    if phase.nested {
      if !config.nestedRuns {
        return [], refused, after;
      }
      var answer := w.nested(now);
      var result := if answer.failed then NO_RESULT else NestedResult(answer.result);
      return [NestedRun(now)], PhaseRun(slot, now, Nested(now), result, answer.failed, result.reason, after), after;
    }
    if !w.renders(now) || !w.startWritten(now) {
      return [], refused, after;
    }
    hide Retried, Nudged, RetryTrace, NudgeTrace;
    var retryEvents, retries, middle, failed;
    retryEvents, retries, middle, failed, after := RunPhaseWithRetry(w, after, config.maxRetries, session);
    var result, nudgeEvents, nudges, checked := middle, [], [], after;
    assert nudgeEvents == NudgeTrace(w, |retries|, middle.session, nudges) by { NoNudges(w, |retries|, middle.session); }
    RetriedOnce(w, config.maxRetries, retries, middle);
    if !failed {
      nudgeEvents, nudges, result, failed, after := CompletePhaseRequirements(w, after, phase, middle, |retries|);
    }
    // The deferred event follows every return from here.
    events := [PhaseStart(slot)] + retryEvents + nudgeEvents +
              [PhaseEnd(slot, PhaseReason(result), result.session, result.directive, result.tag)];
    run := PhaseRun(slot, now, Ran(session, retries, middle, checked, nudges), result, failed, result.reason, after);
  }

  lemma NoNudges(w: World, first: nat, session: string)
    ensures NudgeTrace(w, first, session, []) == []
  {
  }

  lemma RetriedOnce(w: World, maxRetries: int, ats: seq<nat>, result: Result)
    ensures !(Retried(w, maxRetries, ats, result, true) && Retried(w, maxRetries, ats, result, false))
  {
  }

  // ---- which phase comes next

  function Phases(config: Config, kind: Kind): seq<Phase> {
    match kind
    case PreKind => config.pre
    case LoopKind => config.loop
    case PostKind => config.post
  }

  function PostFrom(config: Config, index: nat): Option<Slot> {
    if index < |config.post| then Some(Slot(PostKind, 0, index)) else None
  }

  /** The first phase of an iteration, or of what follows the last one. */
  function IterationFrom(config: Config, iteration: nat): Option<Slot> {
    if config.loop != [] && iteration <= config.maxIterations then Some(Slot(LoopKind, iteration, 0)) else PostFrom(config, 0)
  }

  function PreFrom(config: Config, index: nat): Option<Slot> {
    if index < |config.pre| then Some(Slot(PreKind, 0, index)) else IterationFrom(config, 1)
  }

  function LoopFrom(config: Config, iteration: nat, index: nat): Option<Slot> {
    if index < |config.loop| then Some(Slot(LoopKind, iteration, index)) else IterationFrom(config, iteration + 1)
  }

  function Successor(config: Config, slot: Slot): Option<Slot> {
    match slot.kind
    case PreKind => PreFrom(config, slot.index + 1)
    case LoopKind => LoopFrom(config, slot.iteration, slot.index + 1)
    case PostKind => PostFrom(config, slot.index + 1)
  }

  predicate Exits(run: PhaseRun) {
    !run.failed && run.slot.kind == LoopKind && run.result.directive == Exit
  }

  /** The run cannot go on after this phase. */
  predicate Stops(run: PhaseRun) {
    run.failed || run.result.directive == Abort || (!Exits(run) && run.result.exitCode != 0)
  }

  function Next(config: Config, run: PhaseRun): Option<Slot> {
    if Stops(run) then None else if Exits(run) then PostFrom(config, 0) else Successor(config, run.slot)
  }

  /** The phase that is due after those that ran. */
  function Due(config: Config, runs: seq<PhaseRun>): Option<Slot> {
    if runs == [] then PreFrom(config, 0) else Next(config, runs[|runs| - 1])
  }

  /** A phase that resumes goes on in the session of the phase before it. */
  predicate SessionOk(config: Config, phase: Phase, runs: seq<PhaseRun>, run: PhaseRun) {
    run.course.Ran? ==>
      run.course.session == if phase.resume && run.slot.index > 0 && runs != [] then runs[|runs| - 1].result.session else ""
  }

  ghost predicate Link(w: World, config: Config, runs: seq<PhaseRun>, run: PhaseRun) {
    && Due(config, runs) == Some(run.slot)
    && run.slot.index < |Phases(config, run.slot.kind)|
    && PhaseOk(w, config, Phases(config, run.slot.kind)[run.slot.index], run)
    && SessionOk(config, Phases(config, run.slot.kind)[run.slot.index], runs, run)
    && run.seen == (if run.result.reason == NoReason && !run.failed then w.enrich(run.ended) else run.result.reason)
    && Undisturbed(w, runs, run.slot) && run.began == Clock(runs, run.slot) < run.ended
  }

  /** The context is asked before each phase but the later ones of an iteration. */
  predicate AsksFirst(slot: Slot) {
    slot.kind != LoopKind || slot.index == 0
  }

  /** The moment after the phases that ran, and after the one that ran last. */
  function Clock(runs: seq<PhaseRun>, slot: Slot): nat {
    After(runs) + if AsksFirst(slot) then 1 else 0
  }

  function After(runs: seq<PhaseRun>): nat {
    if runs == [] then 0 else runs[|runs| - 1].ended + 1
  }

  /** The context was still running when last asked after a phase. */
  predicate Quiet(w: World, runs: seq<PhaseRun>) {
    runs != [] ==> w.context(runs[|runs| - 1].ended) == Running
  }

  /** The context lets the phase run. */
  predicate Undisturbed(w: World, runs: seq<PhaseRun>, slot: Slot) {
    Quiet(w, runs) && (AsksFirst(slot) ==> w.context(After(runs)) == Running)
  }

  /** Every phase that ran was due. */
  ghost predicate Chain(w: World, config: Config, runs: seq<PhaseRun>) {
    runs == [] ||
    (Chain(w, config, runs[..|runs| - 1]) && Link(w, config, runs[..|runs| - 1], runs[|runs| - 1]))
  }

  function Log(w: World, runs: seq<PhaseRun>): seq<Event> {
    if runs == [] then [] else Log(w, runs[..|runs| - 1]) + Events(w, runs[|runs| - 1])
  }

  /** The iterations of which every phase ran and let the run go on. */
  function Completed(config: Config, runs: seq<PhaseRun>): nat {
    if runs == [] then 0
    else
      var run := runs[|runs| - 1];
      Completed(config, runs[..|runs| - 1]) +
      if run.slot.kind == LoopKind && run.slot.index == |config.loop| - 1 && !Stops(run) && !Exits(run) then 1 else 0
  }

  /** The phase whose exit marker ended the iterations. */
  function ExitRun(runs: seq<PhaseRun>): Option<PhaseRun> {
    if runs == [] then None
    else if Exits(runs[|runs| - 1]) then Some(runs[|runs| - 1])
    else ExitRun(runs[..|runs| - 1])
  }

  lemma OneRunMore(w: World, config: Config, runs: seq<PhaseRun>, run: PhaseRun)
    ensures Chain(w, config, runs + [run]) <==> Chain(w, config, runs) && Link(w, config, runs, run)
    ensures Log(w, runs + [run]) == Log(w, runs) + Events(w, run)
    ensures Completed(config, runs + [run]) ==
      Completed(config, runs) +
      if run.slot.kind == LoopKind && run.slot.index == |config.loop| - 1 && !Stops(run) && !Exits(run) then 1 else 0
    ensures ExitRun(runs + [run]) == if Exits(run) then Some(run) else ExitRun(runs)
    ensures Due(config, runs + [run]) == Next(config, run)
  {
    assert (runs + [run])[..|runs|] == runs && (runs + [run])[|runs|] == run;
  }

  // ---- how a run ends

  datatype Outcome = Outcome(failed: bool, exitCode: int, reason: Reason, session: string, note: string, retryAfter: nat, marker: Option<string>)

  /** A run may be cut short by its context before a phase or right after one. */
  datatype Cut = NotCut | CutBefore(deadline: bool) | CutAfter(deadline: bool)

  function Interrupted(completed: nat, deadline: bool): (Event, Outcome) {
    if deadline then (LoopEnd(ByTimeout, "", completed), Outcome(false, 124, TimedOut, "", "", 0, None))
    else (LoopEnd(ByCancellation, "", completed), Outcome(false, 130, Cancelled, "", "", 0, None))
  }

  function StoppedBy(run: PhaseRun, completed: nat): (Event, Outcome) {
    if run.failed then (LoopEnd(PhaseFailure, "", completed), Outcome(true, 0, NoReason, "", "", 0, None))
    else if run.result.directive == Abort then
      (LoopEnd(ByAbort, run.result.tag, completed), Outcome(false, 5, Blocked, run.result.session, run.result.tag, 0, None))
    else
      var reason := if run.seen != NoReason then run.seen else ReasonFor(run.result.exitCode);
      (LoopEnd(if reason == TimedOut then ByTimeout else PhaseFailure, "", completed),
       Outcome(false, run.result.exitCode, reason, run.result.session, "", run.result.retryAfter, None))
  }

  function Finished(config: Config, exit: Option<PhaseRun>, completed: nat): (Event, Outcome) {
    if exit.Some? then
      (LoopEnd(ByMarker, exit.value.result.tag, completed),
       Outcome(false, 0, EndTurn, exit.value.result.session, "", 0, Some(exit.value.result.tag)))
    else
      (LoopEnd(if config.loop == [] then EndedTurn else MaxIterations, "", completed), Outcome(false, 0, EndTurn, "", "", 0, None))
  }

  /** The last event and the outcome of a run, from the phases that ran. */
  function Ending(config: Config, runs: seq<PhaseRun>, cut: Cut): (Event, Outcome) {
    match cut
    case CutBefore(deadline) => Interrupted(Completed(config, runs), deadline)
    case CutAfter(deadline) => Interrupted(if runs == [] then 0 else Completed(config, runs[..|runs| - 1]), deadline)
    case NotCut =>
      if runs != [] && Stops(runs[|runs| - 1]) then StoppedBy(runs[|runs| - 1], Completed(config, runs))
      else Finished(config, ExitRun(runs), Completed(config, runs))
  }

  /** A run ends of itself only when nothing is due, and is cut exactly when the context is found
      over: before a phase, or after one that did not fail. */
  predicate Ends(w: World, config: Config, runs: seq<PhaseRun>, cut: Cut) {
    match cut
    case NotCut => Due(config, runs).None? && (runs != [] && !runs[|runs| - 1].failed ==> Quiet(w, runs))
    case CutBefore(deadline) =>
      && Due(config, runs).Some? && AsksFirst(Due(config, runs).value)
      && Quiet(w, runs) && w.context(After(runs)) == Cutting(deadline)
    case CutAfter(deadline) =>
      runs != [] && !runs[|runs| - 1].failed && w.context(runs[|runs| - 1].ended) == Cutting(deadline)
  }

  function Cutting(deadline: bool): Context {
    if deadline then DeadlineExceeded else ContextCancelled
  }

  /** The run ended as the phases that ran require. */
  ghost predicate EndedAs(w: World, config: Config, log: seq<Event>, runs: seq<PhaseRun>, outcome: Outcome, cut: Cut) {
    && Chain(w, config, runs) && Ends(w, config, runs, cut)
    && log == [LoopStart] + Log(w, runs) + [Ending(config, runs, cut).0] && outcome == Ending(config, runs, cut).1
  }

  /** The run goes on: what has run, what is due, and the counts that go with it. */
  ghost predicate Going(w: World, config: Config, log: seq<Event>, runs: seq<PhaseRun>, now: nat, due: Option<Slot>, completed: int, exit: Option<PhaseRun>) {
    && Chain(w, config, runs) && Quiet(w, runs) && now == After(runs) && Due(config, runs) == due && (runs != [] ==> !Stops(runs[|runs| - 1]))
    && log == [LoopStart] + Log(w, runs) && Completed(config, runs) == completed && ExitRun(runs) == exit
  }

  // ---- the runner

  function From(config: Config, kind: Kind, index: nat): Option<Slot> {
    if kind == PreKind then PreFrom(config, index) else PostFrom(config, index)
  }

  /** Runs the phase that is due and asks the broker about its stop reason. */
  method RunPhase(w: World, now: nat, config: Config, slot: Slot, session: string, log0: seq<Event>, runs0: seq<PhaseRun>)
    returns (log: seq<Event>, runs: seq<PhaseRun>, run: PhaseRun, after: nat)
    requires Chain(w, config, runs0) && log0 == [LoopStart] + Log(w, runs0)
    requires Due(config, runs0) == Some(slot) && slot.index < |Phases(config, slot.kind)|
    requires session == if Phases(config, slot.kind)[slot.index].resume && slot.index > 0 && runs0 != []
                        then runs0[|runs0| - 1].result.session else ""
    requires Undisturbed(w, runs0, slot) && now == Clock(runs0, slot)
    ensures after == run.ended
    ensures runs == runs0 + [run] && run.slot == slot && runs[..|runs| - 1] == runs0
    ensures Chain(w, config, runs) && log == [LoopStart] + Log(w, runs) && Due(config, runs) == Next(config, run)
    ensures ExitRun(runs) == if Exits(run) then Some(run) else ExitRun(runs0)
    ensures Completed(config, runs) ==
      Completed(config, runs0) + if slot.kind == LoopKind && slot.index == |config.loop| - 1 && !Stops(run) && !Exits(run) then 1 else 0
  {
    hide *;
    var phase := Phases(config, slot.kind)[slot.index];
    var events;
    events, run, after := ExecutePhase(w, now, config, phase, slot, session);
    if !run.failed && run.seen == NoReason {
      ghost var asked := run;
      run := run.(seen := w.enrich(after));
      SeenOnly(w, config, runs0, asked, run);
    }
    Links(w, config, runs0, run, session);
    OneRunMore(w, config, runs0, run);
    log := log0 + events;
    runs := runs0 + [run];
  }

  lemma Links(w: World, config: Config, runs: seq<PhaseRun>, run: PhaseRun, session: string)
    requires Due(config, runs) == Some(run.slot) && run.slot.index < |Phases(config, run.slot.kind)|
    requires session == if Phases(config, run.slot.kind)[run.slot.index].resume && run.slot.index > 0 && runs != []
                        then runs[|runs| - 1].result.session else ""
    requires PhaseOk(w, config, Phases(config, run.slot.kind)[run.slot.index], run)
    requires run.course.Ran? ==> run.course.session == session
    requires run.seen == if run.result.reason == NoReason && !run.failed then w.enrich(run.ended) else run.result.reason
    requires Undisturbed(w, runs, run.slot) && run.began == Clock(runs, run.slot) < run.ended
    ensures Link(w, config, runs, run)
  {
    hide Due, PhaseOk;
  }

  method RunSequentialPhases(w: World, now: nat, config: Config, kind: Kind, completed: nat, log0: seq<Event>, runs0: seq<PhaseRun>)
    returns (log: seq<Event>, runs: seq<PhaseRun>, early: Option<Outcome>, cut: Cut, after: nat)
    requires kind != LoopKind && Going(w, config, log0, runs0, now, From(config, kind, 0), completed, ExitRun(runs0))
    ensures early.None? ==> Going(w, config, log, runs, after, From(config, kind, |Phases(config, kind)|), completed, ExitRun(runs0))
    ensures early.Some? ==> EndedAs(w, config, log, runs, early.value, cut)
  {
    hide Chain, Log, Completed, ExitRun, PhaseOk, Events;
    var phases := Phases(config, kind);
    log, runs, after, cut := log0, runs0, now, NotCut;
    var previous := "";
    for i := 0 to |phases|
      invariant Going(w, config, log, runs, after, From(config, kind, i), completed, ExitRun(runs0))
      invariant previous == if i == 0 then "" else runs[|runs| - 1].result.session
      invariant i > 0 ==> runs != []
      invariant cut == NotCut
    {
      var phase := phases[i];
      var context := w.context(after);
      after := after + 1;
      if context != Running {
        cut := CutBefore(context == DeadlineExceeded);
        var (end, outcome) := Interrupted(completed, context == DeadlineExceeded);
        return log + [end], runs, Some(outcome), cut, after;
      }
      var session := if phase.resume then previous else "";
      var run;
      log, runs, run, after := RunPhase(w, after, config, Slot(kind, 0, i), session, log, runs);
      if run.failed {
        var (end, outcome) := StoppedBy(run, completed);
        return log + [end], runs, Some(outcome), cut, after;
      }
      previous := run.result.session;
      context := w.context(after);
      after := after + 1;
      if context != Running {
        cut := CutAfter(context == DeadlineExceeded);
        var (end, outcome) := Interrupted(completed, context == DeadlineExceeded);
        return log + [end], runs, Some(outcome), cut, after;
      }
      if run.result.directive == Abort {
        var (end, outcome) := StoppedBy(run, completed);
        return log + [end], runs, Some(outcome), cut, after;
      }
      if ReasonFor(run.result.exitCode) != EndTurn {
        var (end, outcome) := StoppedBy(run, completed);
        return log + [end], runs, Some(outcome), cut, after;
      }
    }
    return log, runs, None, cut, after;
  }

  /** Asking the broker changes nothing but the stop reason that is seen. */
  lemma SeenOnly(w: World, config: Config, runs: seq<PhaseRun>, run: PhaseRun, asked: PhaseRun)
    requires asked == run.(seen := asked.seen)
    ensures Events(w, asked) == Events(w, run)
    ensures forall phase :: PhaseOk(w, config, phase, run) ==> PhaseOk(w, config, phase, asked)
  {
  }

  /** What one pass over the loop phases comes to. */
  datatype Pass = WentOn | Left | Early(outcome: Outcome, cut: Cut)

  /** A phase after which the run cannot go on ends it. */
  lemma StopEnds(w: World, config: Config, log: seq<Event>, runs: seq<PhaseRun>, completed: nat)
    requires Chain(w, config, runs) && log == [LoopStart] + Log(w, runs) && runs != [] && Stops(runs[|runs| - 1])
    requires Completed(config, runs) == completed && (!runs[|runs| - 1].failed ==> Quiet(w, runs))
    ensures var (end, outcome) := StoppedBy(runs[|runs| - 1], completed); EndedAs(w, config, log + [end], runs, outcome, NotCut)
  {
    hide Chain, Log, Completed, ExitRun;
    StopsDueNone(config, runs[|runs| - 1]);
  }

  /** So does a context that is over after a phase; what that phase completed does not count. */
  lemma CutEnds(w: World, config: Config, log: seq<Event>, runs: seq<PhaseRun>, completed: nat, deadline: bool)
    requires Chain(w, config, runs) && log == [LoopStart] + Log(w, runs) && runs != [] && !runs[|runs| - 1].failed
    requires Completed(config, runs[..|runs| - 1]) == completed && w.context(runs[|runs| - 1].ended) == Cutting(deadline)
    ensures var (end, outcome) := Interrupted(completed, deadline); EndedAs(w, config, log + [end], runs, outcome, CutAfter(deadline))
  {
    hide Chain, Log, Completed, ExitRun, Due;
  }

  method RunIteration(w: World, now: nat, config: Config, iteration: nat, completed: nat, log0: seq<Event>, runs0: seq<PhaseRun>)
    returns (log: seq<Event>, runs: seq<PhaseRun>, pass: Pass, after: nat)
    requires config.loop != [] && 1 <= iteration <= config.maxIterations && completed == iteration - 1
    requires now > 0 && Going(w, config, log0, runs0, now - 1, Some(Slot(LoopKind, iteration, 0)), completed, None)
    requires w.context(now - 1) == Running
    ensures pass == WentOn ==> Going(w, config, log, runs, after, IterationFrom(config, iteration + 1), iteration, None)
    ensures pass == Left ==> runs != [] && Going(w, config, log, runs, after, PostFrom(config, 0), completed, Some(runs[|runs| - 1]))
    ensures pass.Early? ==> EndedAs(w, config, log, runs, pass.outcome, pass.cut)
  {
    hide Chain, Log, Completed, ExitRun, PhaseOk, Events, Ending, Ends, EndedAs, StoppedBy, Interrupted;
    log, runs, after := log0, runs0, now;
    var sessions: map<int, string> := map[];
    for i := 0 to |config.loop|
      invariant after == Clock(runs, Slot(LoopKind, iteration, i)) && (i == 0 ==> w.context(After(runs)) == Running)
      invariant Going(w, config, log, runs, After(runs), LoopFrom(config, iteration, i), if i == |config.loop| then iteration else completed, None)
      invariant i > 0 ==> runs != [] && i - 1 in sessions && sessions[i - 1] == runs[|runs| - 1].result.session
    {
      var phase := config.loop[i];
      var session := if phase.resume && i > 0 then sessions[i - 1] else "";
      var run;
      log, runs, run, after := RunPhase(w, after, config, Slot(LoopKind, iteration, i), session, log, runs);
      if run.failed {
        StopEnds(w, config, log, runs, completed);
        var (end, outcome) := StoppedBy(run, completed);
        return log + [end], runs, Early(outcome, NotCut), after;
      }
      sessions := sessions[i := run.result.session];
      var context := w.context(after);
      after := after + 1;
      if context != Running {
        CutEnds(w, config, log, runs, completed, context == DeadlineExceeded);
        var (end, outcome) := Interrupted(completed, context == DeadlineExceeded);
        return log + [end], runs, Early(outcome, CutAfter(context == DeadlineExceeded)), after;
      }
      if run.result.directive == Abort {
        StopEnds(w, config, log, runs, completed);
        var (end, outcome) := StoppedBy(run, completed);
        return log + [end], runs, Early(outcome, NotCut), after;
      }
      if run.result.directive == Exit {
        return log, runs, Left, after;
      }
      if ReasonFor(run.result.exitCode) != EndTurn {
        StopEnds(w, config, log, runs, completed);
        var (end, outcome) := StoppedBy(run, completed);
        return log + [end], runs, Early(outcome, NotCut), after;
      }
    }
    return log, runs, WentOn, after;
  }

  /** The post phases and the loop.end after them. */
  method RunPost(w: World, now: nat, config: Config, completed: nat, exit: Option<PhaseRun>, log0: seq<Event>, runs0: seq<PhaseRun>)
    returns (log: seq<Event>, runs: seq<PhaseRun>, outcome: Outcome, cut: Cut)
    requires Going(w, config, log0, runs0, now, PostFrom(config, 0), completed, exit)
    ensures EndedAs(w, config, log, runs, outcome, cut)
  {
    hide Going, EndedAs, ExitRun, Finished;
    GoingExit(w, config, log0, runs0, now, PostFrom(config, 0), completed, exit);
    var early, after;
    log, runs, early, cut, after := RunSequentialPhases(w, now, config, PostKind, completed, log0, runs0);
    if early.Some? {
      return log, runs, early.value, cut;
    }
    GoingFinishes(w, config, log, runs, after, completed, exit);
    var (end, finished) := Finished(config, exit, completed);
    return log + [end], runs, finished, NotCut;
  }

  /** The iterations, up to the one that leaves or ends the run. */
  method RunIterations(w: World, now: nat, config: Config, log0: seq<Event>, runs0: seq<PhaseRun>)
    returns (log: seq<Event>, runs: seq<PhaseRun>, pass: Pass, completed: nat, after: nat)
    requires config.loop != [] && Going(w, config, log0, runs0, now, IterationFrom(config, 1), 0, None)
    ensures pass == WentOn ==> Going(w, config, log, runs, after, PostFrom(config, 0), completed, None)
    ensures pass == Left ==> runs != [] && Going(w, config, log, runs, after, PostFrom(config, 0), completed, Some(runs[|runs| - 1]))
    ensures pass.Early? ==> EndedAs(w, config, log, runs, pass.outcome, pass.cut)
  {
    hide *;
    log, runs, completed, after, pass := log0, runs0, 0, now, WentOn;
    var iteration: nat := 1;
    IterationDue(config, 1);
    while iteration <= config.maxIterations
      invariant completed == iteration - 1 && Going(w, config, log, runs, after, IterationFrom(config, iteration), completed, None)
      invariant iteration > config.maxIterations ==> IterationFrom(config, iteration) == PostFrom(config, 0)
      invariant pass == WentOn
      decreases config.maxIterations - iteration
    {
      IterationDue(config, iteration);
      IterationDue(config, iteration + 1);
      var context := w.context(after);
      after := after + 1;
      if context != Running {
        Asking(context == DeadlineExceeded, iteration, 0);
        GoingCut(w, config, log, runs, after - 1, Slot(LoopKind, iteration, 0), completed, context == DeadlineExceeded);
        var (end, outcome) := Interrupted(completed, context == DeadlineExceeded);
        return log + [end], runs, Early(outcome, CutBefore(context == DeadlineExceeded)), completed, after;
      }
      log, runs, pass, after := RunIteration(w, after, config, iteration, completed, log, runs);
      if pass != WentOn {
        return;
      }
      completed := iteration;
      iteration := iteration + 1;
    }
  }

  /** A whole run.  Past loop.start its events are those of the phases that were due, followed
      by the one loop.end that `Ending` gives for them. */
  method Run(w: World, config: Config, startWritten: bool)
    returns (log: seq<Event>, runs: seq<PhaseRun>, outcome: Outcome, cut: Cut)
    ensures !startWritten ==> log == [] && runs == [] && outcome.failed
    ensures startWritten ==> EndedAs(w, config, log, runs, outcome, cut)
  {
    hide *;
    log, runs, cut := [], [], NotCut;
    if !startWritten {
      return log, runs, Outcome(true, 0, NoReason, "", "", 0, None), cut;
    }
    NothingRan(w, config);
    FirstDue(config);
    log := [LoopStart];
    var early, after;
    log, runs, early, cut, after := RunSequentialPhases(w, 0, config, PreKind, 0, log, runs);
    if early.Some? {
      return log, runs, early.value, cut;
    }
    var completed, exit := 0, None;
    IterationDue(config, 1);
    if config.loop != [] {
      var pass;
      log, runs, pass, completed, after := RunIterations(w, after, config, log, runs);
      if pass.Early? {
        return log, runs, pass.outcome, pass.cut;
      }
      exit := if pass == Left then Some(runs[|runs| - 1]) else None;
    }
    log, runs, outcome, cut := RunPost(w, after, config, completed, exit, log, runs);
  }

  lemma GoingCut(w: World, config: Config, log: seq<Event>, runs: seq<PhaseRun>, now: nat, due: Slot, completed: nat, deadline: bool)
    requires Going(w, config, log, runs, now, Some(due), completed, None)
    requires AsksFirst(due) && w.context(now) == Cutting(deadline)
    ensures var (end, outcome) := Interrupted(completed, deadline);
      EndedAs(w, config, log + [end], runs, outcome, CutBefore(deadline))
  {
  }

  lemma GoingFinishes(w: World, config: Config, log: seq<Event>, runs: seq<PhaseRun>, now: nat, completed: nat, exit: Option<PhaseRun>)
    requires Going(w, config, log, runs, now, None, completed, exit)
    ensures var (end, outcome) := Finished(config, exit, completed); EndedAs(w, config, log + [end], runs, outcome, NotCut)
  {
  }

  lemma GoingExit(w: World, config: Config, log: seq<Event>, runs: seq<PhaseRun>, now: nat, due: Option<Slot>, completed: nat, exit: Option<PhaseRun>)
    requires Going(w, config, log, runs, now, due, completed, exit)
    ensures exit == ExitRun(runs)
  {
  }

  lemma FirstDue(config: Config)
    ensures From(config, PreKind, 0) == PreFrom(config, 0)
    ensures From(config, PreKind, |Phases(config, PreKind)|) == IterationFrom(config, 1)
  {
  }

  lemma IterationDue(config: Config, iteration: nat)
    ensures IterationFrom(config, iteration) ==
      if config.loop != [] && iteration <= config.maxIterations then Some(Slot(LoopKind, iteration, 0)) else PostFrom(config, 0)
  {
  }

  lemma Asking(deadline: bool, iteration: nat, index: nat)
    ensures Cutting(deadline) == if deadline then DeadlineExceeded else ContextCancelled
    ensures AsksFirst(Slot(LoopKind, iteration, index)) <==> index == 0
  {
  }

  lemma NothingRan(w: World, config: Config)
    ensures Going(w, config, [LoopStart], [], 0, PreFrom(config, 0), 0, None) && ExitRun([]).None?
  {
  }

  // ---- what the events of a run look like

  /** Reads events in order: inside a phase, attempts count up from 0, and a phase ends before
      another starts. */
  datatype Scanner = Outside | Inside(slot: Slot, launches: nat) | Broken

  function Read(st: Scanner, e: Event): Scanner {
    match e
    case PhaseStart(slot) => if st == Outside then Inside(slot, 0) else Broken
    case RetryNotice(n) => if st.Inside? && st.launches == n > 0 then st else Broken
    case Launch(number, _, _) => if st.Inside? && st.launches == number then Inside(st.slot, number + 1) else Broken
    case PhaseEnd(slot, _, _, _, _) => if st.Inside? && st.slot == slot && st.launches > 0 then Outside else Broken
    case NestedRun(_) => if st == Outside then st else Broken
    case _ => Broken
  }

  function Scan(st: Scanner, events: seq<Event>): Scanner {
    if events == [] then st else Read(Scan(st, events[..|events| - 1]), events[|events| - 1])
  }

  lemma {:induction false} ScanConcat(st: Scanner, a: seq<Event>, b: seq<Event>)
    ensures Scan(st, a + b) == Scan(Scan(st, a), b)
    decreases |b|
  {
    if b == [] {
      assert a + b == a;
    } else {
      assert (a + b)[..|a + b| - 1] == a + b[..|b| - 1];
      ScanConcat(st, a, b[..|b| - 1]);
    }
  }

  lemma ScanOne(st: Scanner, e: Event)
    ensures Scan(st, [e]) == Read(st, e)
  {
    assert [e][..0] == [];
  }

  lemma {:induction false} ScanRetries(slot: Slot, ats: seq<nat>, session: string)
    ensures Scan(Inside(slot, 0), RetryTrace(ats, session)) == Inside(slot, |ats|)
    decreases |ats|
  {
    hide Scan;
    if ats == [] {
      ScanNone(Inside(slot, 0));
    } else {
      var n := |ats| - 1;
      ScanRetries(slot, ats[..n], session);
      var notice: seq<Event> := if n == 0 then [] else [RetryNotice(n)];
      ScanConcat(Inside(slot, 0), RetryTrace(ats[..n], session), notice);
      ScanConcat(Inside(slot, 0), RetryTrace(ats[..n], session) + notice, [Launch(n, session, ats[n])]);
      ScanNone(Inside(slot, n));
      ScanOne(Inside(slot, n), RetryNotice(n));
      ScanOne(Inside(slot, n), Launch(n, session, ats[n]));
    }
  }

  lemma ScanNone(st: Scanner)
    ensures Scan(st, []) == st
  {
  }

  lemma {:induction false} ScanNudges(w: World, slot: Slot, first: nat, session: string, ats: seq<nat>)
    ensures Scan(Inside(slot, first), NudgeTrace(w, first, session, ats)) == Inside(slot, first + |ats|)
    decreases |ats|
  {
    hide Scan;
    if ats == [] {
      ScanNone(Inside(slot, first));
    } else {
      var n := |ats| - 1;
      ScanNudges(w, slot, first, session, ats[..n]);
      var e := Launch(first + n, SessionAfter(w, session, ats[..n]), ats[n]);
      ScanConcat(Inside(slot, first), NudgeTrace(w, first, session, ats[..n]), [e]);
      ScanOne(Inside(slot, first + n), e);
    }
  }

  /** A phase that starts makes at least one attempt and ends. */
  lemma ScanPhase(w: World, config: Config, phase: Phase, run: PhaseRun)
    requires PhaseOk(w, config, phase, run)
    ensures Scan(Outside, Events(w, run)) == Outside
  {
    hide Scan, Retried, Nudged, RetryTrace, NudgeTrace;
    match run.course
    case Refused => ScanNone(Outside);
    case Nested(at) => ScanOne(Outside, NestedRun(at));
    case Ran(session, retries, middle, _, nudges) =>
      RetriedSome(w, config.maxRetries, retries, middle);
      var a := [PhaseStart(run.slot)];
      var b := RetryTrace(retries, session);
      var c := NudgeTrace(w, |retries|, middle.session, nudges);
      var e := PhaseEnd(run.slot, PhaseReason(run.result), run.result.session, run.result.directive, run.result.tag);
      ScanOne(Outside, a[0]);
      ScanRetries(run.slot, retries, session);
      ScanNudges(w, run.slot, |retries|, middle.session, nudges);
      ScanOne(Inside(run.slot, |retries| + |nudges|), e);
      ScanConcat(Outside, a, b);
      ScanConcat(Outside, a + b, c);
      ScanConcat(Outside, a + b + c, [e]);
  }

  lemma RetriedSome(w: World, maxRetries: int, ats: seq<nat>, result: Result)
    ensures Retried(w, maxRetries, ats, result, true) || Retried(w, maxRetries, ats, result, false) ==>
      1 <= |ats| <= RetryLimit(maxRetries)
  {
  }

  lemma {:induction false} ScanLog(w: World, config: Config, runs: seq<PhaseRun>)
    requires Chain(w, config, runs)
    ensures Scan(Outside, Log(w, runs)) == Outside
    decreases |runs|
  {
    hide Scan, PhaseOk, Due, Events;
    if runs == [] {
      ScanNone(Outside);
    } else {
      var n := |runs| - 1;
      ScanLog(w, config, runs[..n]);
      ScanPhase(w, config, Phases(config, runs[n].slot.kind)[runs[n].slot.index], runs[n]);
      ScanConcat(Outside, Log(w, runs[..n]), Events(w, runs[n]));
    }
  }

  /** A scan that does not break has read no loop event. */
  lemma {:induction false} ScanReads(st: Scanner, events: seq<Event>)
    requires Scan(st, events) != Broken
    ensures forall e <- events :: !e.LoopStart? && !e.LoopEnd?
    decreases |events|
  {
    if events != [] {
      ScanReads(st, events[..|events| - 1]);
      assert events == events[..|events| - 1] + [events[|events| - 1]];
    }
  }

  /** Past loop.start a run emits exactly one loop.end, as its last event; between them each
      phase.start is followed by its own phase.end before another phase starts, and the
      attempts of a phase are numbered 0, 1, 2 and so on. */
  lemma EventsOfRun(w: World, config: Config, log: seq<Event>, runs: seq<PhaseRun>, outcome: Outcome, cut: Cut)
    requires EndedAs(w, config, log, runs, outcome, cut)
    ensures |log| >= 2 && log[0] == LoopStart && log[|log| - 1].LoopEnd?
    ensures forall i :: 0 < i < |log| - 1 ==> !log[i].LoopStart? && !log[i].LoopEnd?
    ensures Scan(Outside, log[1..|log| - 1]) == Outside
  {
    hide Scan, Chain, Log, Completed, ExitRun, Due;
    ScanLog(w, config, runs);
    ScanReads(Outside, Log(w, runs));
    var end := Ending(config, runs, cut).0;
    assert end.LoopEnd?;
    assert log[1..|log| - 1] == Log(w, runs);
  }

  function Launches(events: seq<Event>): nat {
    if events == [] then 0
    else Launches(events[..|events| - 1]) + if events[|events| - 1].Launch? then 1 else 0
  }

  lemma {:induction false} LaunchesConcat(a: seq<Event>, b: seq<Event>)
    ensures Launches(a + b) == Launches(a) + Launches(b)
    decreases |b|
  {
    if b == [] {
      assert a + b == a;
    } else {
      assert (a + b)[..|a + b| - 1] == a + b[..|b| - 1];
      LaunchesConcat(a, b[..|b| - 1]);
    }
  }

  lemma LaunchesOne(e: Event)
    ensures Launches([e]) == if e.Launch? then 1 else 0
  {
    assert [e][..0] == [];
  }

  lemma {:induction false} RetryLaunches(ats: seq<nat>, session: string)
    ensures Launches(RetryTrace(ats, session)) == |ats|
    decreases |ats|
  {
    if ats != [] {
      hide Launches;
      var n := |ats| - 1;
      RetryLaunches(ats[..n], session);
      var notice: seq<Event> := if n == 0 then [] else [RetryNotice(n)];
      LaunchesConcat(RetryTrace(ats[..n], session), notice);
      LaunchesConcat(RetryTrace(ats[..n], session) + notice, [Launch(n, session, ats[n])]);
      LaunchesNone();
      LaunchesOne(RetryNotice(n));
      LaunchesOne(Launch(n, session, ats[n]));
    }
  }

  lemma LaunchesNone()
    ensures Launches([]) == 0
  {
  }

  lemma {:induction false} NudgeLaunches(w: World, first: nat, session: string, ats: seq<nat>)
    ensures Launches(NudgeTrace(w, first, session, ats)) == |ats|
    decreases |ats|
  {
    if ats != [] {
      hide Launches;
      var n := |ats| - 1;
      NudgeLaunches(w, first, session, ats[..n]);
      var e := Launch(first + n, SessionAfter(w, session, ats[..n]), ats[n]);
      LaunchesConcat(NudgeTrace(w, first, session, ats[..n]), [e]);
      LaunchesOne(e);
    }
  }

  /** The attempts of a phase are bounded by one, its retries and its nudges. */
  lemma AttemptsBounded(w: World, config: Config, phase: Phase, run: PhaseRun)
    requires PhaseOk(w, config, phase, run)
    ensures Launches(Events(w, run)) <= RetryLimit(config.maxRetries) + NudgeLimit(phase.maxNudges)
  {
    hide Launches, RetryTrace, NudgeTrace, AllIncomplete, AllRetryable;
    match run.course
    case Refused => LaunchesNone();
    case Nested(at) => LaunchesOne(NestedRun(at));
    case Ran(session, retries, middle, _, nudges) =>
      var a := [PhaseStart(run.slot)];
      var b := RetryTrace(retries, session);
      var c := NudgeTrace(w, |retries|, middle.session, nudges);
      var e := PhaseEnd(run.slot, PhaseReason(run.result), run.result.session, run.result.directive, run.result.tag);
      RetryLaunches(retries, session);
      NudgeLaunches(w, |retries|, middle.session, nudges);
      LaunchesOne(a[0]);
      LaunchesOne(e);
      LaunchesConcat(a, b);
      LaunchesConcat(a + b, c);
      LaunchesConcat(a + b + c, [e]);
  }

  // ---- when post phases run

  /** How far the run has come when a phase is due. */
  ghost predicate ComeTo(config: Config, runs: seq<PhaseRun>, due: Option<Slot>) {
    && (due.Some? && due.value.kind == PreKind ==> Completed(config, runs) == 0 && ExitRun(runs).None?)
    && (due.Some? && due.value.kind == LoopKind ==>
          ExitRun(runs).None? && Completed(config, runs) == due.value.iteration - 1 && due.value.iteration <= config.maxIterations
          && due.value.index < |config.loop|)
    && (due.Some? && due.value.kind == PostKind ==> Through(config, runs))
  }

  /** The iterations are over: by an exit marker, because all were completed, or because there
      are no loop phases. */
  ghost predicate Through(config: Config, runs: seq<PhaseRun>) {
    ExitRun(runs).Some? || config.loop == [] ||
    Completed(config, runs) == (if config.maxIterations < 0 then 0 else config.maxIterations)
  }

  lemma SuccessorComesTo(config: Config, runs: seq<PhaseRun>, run: PhaseRun)
    requires ComeTo(config, runs, Some(run.slot)) && !Stops(run)
    ensures ComeTo(config, runs + [run], Next(config, run))
  {
    hide Completed, ExitRun;
    OneRunMoreCounts(config, runs, run);
  }

  lemma OneRunMoreCounts(config: Config, runs: seq<PhaseRun>, run: PhaseRun)
    ensures Completed(config, runs + [run]) ==
      Completed(config, runs) +
      if run.slot.kind == LoopKind && run.slot.index == |config.loop| - 1 && !Stops(run) && !Exits(run) then 1 else 0
    ensures ExitRun(runs + [run]) == if Exits(run) then Some(run) else ExitRun(runs)
  {
    assert (runs + [run])[..|runs|] == runs;
  }

  lemma {:induction false} ChainComesTo(w: World, config: Config, runs: seq<PhaseRun>)
    requires Chain(w, config, runs)
    ensures ComeTo(config, runs, Due(config, runs))
    ensures forall k :: 0 <= k < |runs| - 1 ==> !Stops(runs[k])
    decreases |runs|
  {
    hide PhaseOk, Stops, Next, ComeTo;
    if runs == [] {
      ComeToFirst(config);
    } else {
      var n := |runs| - 1;
      ChainComesTo(w, config, runs[..n]);
      assert runs == runs[..n] + [runs[n]];
      StopsDueNone(config, runs[n]);
      if !Stops(runs[n]) {
        SuccessorComesTo(config, runs[..n], runs[n]);
      } else {
        NothingDue(config, runs);
      }
      if n > 0 {
        assert Due(config, runs[..n]).Some?;
        StopsDueNone(config, runs[n - 1]);
        forall k | 0 <= k < n
          ensures !Stops(runs[k])
        {
          if k < n - 1 {
            assert runs[..n][k] == runs[k];
          }
        }
      }
    }
  }

  lemma StopsDueNone(config: Config, run: PhaseRun)
    ensures Stops(run) ==> Next(config, run).None?
  {
  }

  lemma NothingDue(config: Config, runs: seq<PhaseRun>)
    ensures ComeTo(config, runs, None)
  {
  }

  lemma ComeToFirst(config: Config)
    ensures ComeTo(config, [], PreFrom(config, 0))
  {
  }

  /** A post phase runs only once an exit marker, all iterations or an empty loop has ended the
      loop phases, and only if no phase before it failed, aborted, or ended badly without an
      exit marker. */
  lemma {:induction false} PostOnlyWhenThrough(w: World, config: Config, runs: seq<PhaseRun>, k: nat)
    requires Chain(w, config, runs) && k < |runs| && runs[k].slot.kind == PostKind
    ensures Through(config, runs[..k])
    ensures forall j :: 0 <= j < k ==> !runs[j].failed && runs[j].result.directive != Abort && (Exits(runs[j]) || runs[j].result.exitCode == 0)
  {
    hide Completed, ExitRun, PhaseOk, Due;
    ChainPrefix(w, config, runs, k);
    ChainComesTo(w, config, runs[..k]);
    ChainComesTo(w, config, runs);
  }

  lemma {:induction false} ChainPrefix(w: World, config: Config, runs: seq<PhaseRun>, k: nat)
    requires Chain(w, config, runs) && k < |runs|
    ensures Chain(w, config, runs[..k]) && Link(w, config, runs[..k], runs[k])
    decreases |runs|
  {
    hide Link;
    if k < |runs| - 1 {
      assert runs[..|runs| - 1][..k] == runs[..k];
      ChainPrefix(w, config, runs[..|runs| - 1], k);
    }
  }

  // ---- which phases ran

  /** The phase ended well: it did not fail or abort, and its code is 0 or a loop phase's exit
      marker makes up for it. */
  predicate Good(run: PhaseRun) {
    && !run.failed && run.result.directive != Abort
    && (run.result.exitCode == 0 || (run.slot.kind == LoopKind && run.result.directive == Exit))
  }

  /** A phase of the loop that ended well and did not leave it. */
  predicate Passed(run: PhaseRun) {
    Good(run) && run.slot.kind == LoopKind && run.result.directive != Exit
  }

  lemma StopsUnlessGood(run: PhaseRun)
    ensures Stops(run) <==> !Good(run)
    ensures !Stops(run) && !Exits(run) && run.slot.kind == LoopKind <==> Passed(run)
    ensures Exits(run) <==> !run.failed && run.slot.kind == LoopKind && run.result.directive == Exit
  {
  }

  /** The phase of a slot ran and ended well. */
  ghost predicate RanWell(runs: seq<PhaseRun>, slot: Slot) {
    exists r <- runs :: r.slot == slot && Good(r)
  }

  /** Every phase of the iteration ran, ended well and let the loop go on. */
  ghost predicate PassDone(config: Config, runs: seq<PhaseRun>, iteration: nat) {
    forall i | 0 <= i < |config.loop| :: PassedAt(runs, iteration, i)
  }

  ghost predicate PassedAt(runs: seq<PhaseRun>, iteration: nat, index: nat) {
    exists r <- runs :: r.slot == Slot(LoopKind, iteration, index) && Passed(r)
  }

  /** The first so many phases of a kind, outside the loop, ran well. */
  ghost predicate RanUpTo(runs: seq<PhaseRun>, kind: Kind, count: nat) {
    forall i | 0 <= i < count :: RanWell(runs, Slot(kind, 0, i))
  }

  /** What has run when a phase is due, or when none is. */
  ghost predicate RunSoFar(config: Config, runs: seq<PhaseRun>, due: Option<Slot>) {
    match due
    case None => RanUpTo(runs, PreKind, |config.pre|) && RanUpTo(runs, PostKind, |config.post|)
    case Some(slot) =>
      match slot.kind
      case PreKind => RanUpTo(runs, PreKind, slot.index)
      case LoopKind =>
        RanUpTo(runs, PreKind, |config.pre|) && slot.iteration >= 1 && forall i | 0 <= i < slot.index :: PassedAt(runs, slot.iteration, i)
      case PostKind => RanUpTo(runs, PreKind, |config.pre|) && RanUpTo(runs, PostKind, slot.index)
  }

  lemma RanWellMore(runs: seq<PhaseRun>, run: PhaseRun)
    ensures forall slot :: RanWell(runs + [run], slot) <==> RanWell(runs, slot) || (run.slot == slot && Good(run))
    ensures forall it, i :: PassedAt(runs + [run], it, i) <==> PassedAt(runs, it, i) || (run.slot == Slot(LoopKind, it, i) && Passed(run))
  {
    forall slot
      ensures RanWell(runs + [run], slot) <==> RanWell(runs, slot) || (run.slot == slot && Good(run))
    {
      assert (runs + [run])[|runs|] == run;
      if RanWell(runs, slot) {
        var r :| r in runs && r.slot == slot && Good(r);
        assert r in runs + [run];
      }
    }
    forall it, i
      ensures PassedAt(runs + [run], it, i) <==> PassedAt(runs, it, i) || (run.slot == Slot(LoopKind, it, i) && Passed(run))
    {
      assert (runs + [run])[|runs|] == run;
      if PassedAt(runs, it, i) {
        var r :| r in runs && r.slot == Slot(LoopKind, it, i) && Passed(r);
        assert r in runs + [run];
      }
    }
  }

  lemma NextRunSoFar(config: Config, runs: seq<PhaseRun>, run: PhaseRun)
    requires RunSoFar(config, runs, Some(run.slot)) && Good(run) && (run.slot.kind != LoopKind ==> run.slot.iteration == 0)
    requires run.slot.index < |Phases(config, run.slot.kind)|
    ensures RunSoFar(config, runs + [run], Next(config, run))
  {
    RanWellMore(runs, run);
    StopsUnlessGood(run);
    hide Good, RanWell, PassedAt, Passed, Stops, Exits;
  }

  /** Outside the loop a slot has no iteration. */
  lemma SlotPlain(config: Config, run: PhaseRun)
    requires Next(config, run).Some? && Next(config, run).value.kind != LoopKind
    ensures Next(config, run).value.iteration == 0
  {
  }

  /** The last phase that ran was due, and the one before it ended well. */
  lemma LastLink(w: World, config: Config, runs: seq<PhaseRun>)
    requires Chain(w, config, runs) && runs != []
    ensures var n := |runs| - 1;
      && Chain(w, config, runs[..n]) && Due(config, runs[..n]) == Some(runs[n].slot)
      && runs[n].slot.index < |Phases(config, runs[n].slot.kind)| && runs == runs[..n] + [runs[n]]
      && (n > 0 ==> Good(runs[n - 1]))
  {
    hide PhaseOk, SessionOk, Undisturbed, Clock, Good, Stops, Exits, Passed, Next, PreFrom;
    var n := |runs| - 1;
    if n > 0 {
      DueNext(config, runs[..n]);
      StopsDueNone(config, runs[n - 1]);
      StopsUnlessGood(runs[n - 1]);
    }
  }

  lemma {:induction false} ChainRunSoFar(w: World, config: Config, runs: seq<PhaseRun>)
    requires Chain(w, config, runs) && (runs != [] ==> Good(runs[|runs| - 1]))
    ensures RunSoFar(config, runs, Due(config, runs))
    decreases |runs|
  {
    hide *;
    if runs == [] {
      FirstRunSoFar(config);
      DueFirst(config);
    } else {
      var n := |runs| - 1;
      LastLink(w, config, runs);
      ChainRunSoFar(w, config, runs[..n]);
      if runs[n].slot.kind != LoopKind {
        DuePlain(config, runs[..n]);
      }
      NextRunSoFar(config, runs[..n], runs[n]);
      DueNext(config, runs);
    }
  }

  lemma DueFirst(config: Config)
    ensures Due(config, []) == PreFrom(config, 0)
  {
  }

  lemma DueNext(config: Config, runs: seq<PhaseRun>)
    requires runs != []
    ensures Due(config, runs) == Next(config, runs[|runs| - 1])
  {
  }

  lemma DuePlain(config: Config, runs: seq<PhaseRun>)
    requires Due(config, runs).Some? && Due(config, runs).value.kind != LoopKind
    ensures Due(config, runs).value.iteration == 0
  {
    if runs != [] {
      SlotPlain(config, runs[|runs| - 1]);
    }
  }

  lemma FirstRunSoFar(config: Config)
    ensures RunSoFar(config, [], PreFrom(config, 0))
  {
  }

  /** The last phase of an iteration passed exactly if the iteration was completed, and then so
      did the others. */
  ghost predicate PassKnown(config: Config, runs: seq<PhaseRun>, iteration: nat)
    requires config.loop != []
  {
    && (PassedAt(runs, iteration, |config.loop| - 1) <==> 1 <= iteration <= Completed(config, runs))
    && (PassedAt(runs, iteration, |config.loop| - 1) ==> PassDone(config, runs, iteration))
  }

  lemma PassKnownMore(config: Config, runs: seq<PhaseRun>, run: PhaseRun, iteration: nat)
    requires config.loop != [] && ComeTo(config, runs, Some(run.slot)) && RunSoFar(config, runs, Some(run.slot))
    requires PassKnown(config, runs, iteration)
    ensures PassKnown(config, runs + [run], iteration)
  {
    OneRunMoreCounts(config, runs, run);
    RanWellMore(runs, run);
    StopsUnlessGood(run);
    hide Completed, ExitRun, Good, Passed, PassedAt, RanWell, Stops, Exits, RanUpTo, Through;
  }

  lemma {:induction false} PassesKnown(w: World, config: Config, runs: seq<PhaseRun>, iteration: nat)
    requires Chain(w, config, runs) && config.loop != []
    ensures PassKnown(config, runs, iteration)
    decreases |runs|
  {
    if runs == [] {
      assert !PassedAt([], iteration, |config.loop| - 1);
    } else {
      hide *;
      var n := |runs| - 1;
      LastLink(w, config, runs);
      PassesKnown(w, config, runs[..n], iteration);
      ChainComesTo(w, config, runs[..n]);
      ChainRunSoFar(w, config, runs[..n]);
      PassKnownMore(config, runs[..n], runs[n], iteration);
    }
  }

  /** The completed iterations are the full passes. */
  lemma PassesCounted(w: World, config: Config, runs: seq<PhaseRun>, iteration: nat)
    requires Chain(w, config, runs) && config.loop != []
    ensures PassDone(config, runs, iteration) <==> 1 <= iteration <= Completed(config, runs)
  {
    PassesKnown(w, config, runs, iteration);
    hide PassedAt, Completed, Chain;
  }

  // ---- what a run reports

  /** The run reports success. */
  predicate Succeeded(outcome: Outcome) {
    !outcome.failed && outcome.exitCode == 0 && outcome.reason == EndTurn
  }

  /** The phases that count for loop.end: one right after which the run was cut does not. */
  function Counted(runs: seq<PhaseRun>, cut: Cut): seq<PhaseRun> {
    if cut.CutAfter? && runs != [] then runs[..|runs| - 1] else runs
  }

  lemma {:induction false} AllBeforeGood(w: World, config: Config, runs: seq<PhaseRun>)
    requires Chain(w, config, runs)
    ensures forall k :: 0 <= k < |runs| - 1 ==> Good(runs[k])
    decreases |runs|
  {
    hide *;
    if runs != [] {
      LastLink(w, config, runs);
      AllBeforeGood(w, config, runs[..|runs| - 1]);
    }
  }

  /** The run whose marker left the loop is the only one of its kind. */
  lemma {:induction false} ExitRunIs(w: World, config: Config, runs: seq<PhaseRun>)
    requires Chain(w, config, runs)
    ensures ExitRun(runs).Some? ==> ExitRun(runs).value in runs && Exits(ExitRun(runs).value)
    ensures forall r <- runs :: Exits(r) ==> ExitRun(runs) == Some(r)
    decreases |runs|
  {
    if runs != [] {
      hide Chain, Exits, Due, Completed;
      var n := |runs| - 1;
      LastLink(w, config, runs);
      ExitRunIs(w, config, runs[..n]);
      ChainComesTo(w, config, runs[..n]);
      OneRunMoreCounts(config, runs[..n], runs[n]);
      StopsUnlessGood(runs[n]);
    }
  }

  lemma {:induction false} NoLoopNoPass(w: World, config: Config, runs: seq<PhaseRun>)
    requires config.loop == []
    ensures Completed(config, runs) == 0
    decreases |runs|
  {
    if runs != [] {
      NoLoopNoPass(w, config, runs[..|runs| - 1]);
    }
  }

  /** The end of a run, case by case. */
  lemma Endings(w: World, config: Config, log: seq<Event>, runs: seq<PhaseRun>, outcome: Outcome, cut: Cut)
    requires EndedAs(w, config, log, runs, outcome, cut)
    ensures Chain(w, config, runs) && log != [] && log[|log| - 1] == Ending(config, runs, cut).0 && outcome == Ending(config, runs, cut).1
    ensures cut == NotCut ==> Due(config, runs).None?
    ensures cut.CutAfter? ==> runs != []
  {
    hide Chain, Log, Completed, ExitRun, Due, Ending;
  }

  /** A run succeeds exactly if its context did not cut it and every phase that ran neither
      failed nor aborted and ended with code 0 or, in the loop, with an exit marker. */
  lemma SuccessIff(w: World, config: Config, log: seq<Event>, runs: seq<PhaseRun>, outcome: Outcome, cut: Cut)
    requires EndedAs(w, config, log, runs, outcome, cut)
    ensures Succeeded(outcome) <==>
      cut == NotCut &&
      forall r <- runs ::
        !r.failed && r.result.directive != Abort && (r.result.exitCode == 0 || (r.slot.kind == LoopKind && r.result.directive == Exit))
  {
    hide Chain, Log, Completed, ExitRun, Due;
    Endings(w, config, log, runs, outcome, cut);
    AllBeforeGood(w, config, runs);
    if runs != [] {
      StopsUnlessGood(runs[|runs| - 1]);
      hide Stops, Exits;
      forall r <- runs
        ensures Good(runs[|runs| - 1]) ==> Good(r)
      {
        var k :| 0 <= k < |runs| && runs[k] == r;
      }
    }
  }

  /** A run that succeeds ran every pre and post phase well.  Its loop was left by the one exit
      marker, which loop.end and the outcome name, or had no phases, or completed every
      iteration. */
  lemma SuccessMeansAll(w: World, config: Config, log: seq<Event>, runs: seq<PhaseRun>, outcome: Outcome, cut: Cut)
    requires EndedAs(w, config, log, runs, outcome, cut) && Succeeded(outcome)
    ensures forall i | 0 <= i < |config.pre| :: RanWell(runs, Slot(PreKind, 0, i))
    ensures forall i | 0 <= i < |config.post| :: RanWell(runs, Slot(PostKind, 0, i))
    ensures forall r <- runs :: r.slot.kind == LoopKind && r.result.directive == Exit ==>
      && log[|log| - 1].LoopEnd? && log[|log| - 1].reason == ByMarker && log[|log| - 1].exitLabel == r.result.tag
      && outcome == Outcome(false, 0, EndTurn, r.result.session, "", 0, Some(r.result.tag))
    ensures (forall r <- runs :: !(r.slot.kind == LoopKind && r.result.directive == Exit)) ==>
      && log[|log| - 1].LoopEnd? && log[|log| - 1].reason == (if config.loop == [] then EndedTurn else MaxIterations)
      && log[|log| - 1].exitLabel == "" && outcome == Outcome(false, 0, EndTurn, "", "", 0, None)
      && (config.loop != [] ==> forall it: nat :: PassDone(config, runs, it) <==> 1 <= it <= config.maxIterations)
  {
    hide *;
    SuccessIff(w, config, log, runs, outcome, cut);
    Endings(w, config, log, runs, outcome, cut);
    SuccessRanAll(w, config, runs);
    ExitRunIs(w, config, runs);
    forall r <- runs
      ensures Exits(r) <==> r.slot.kind == LoopKind && r.result.directive == Exit
    {
      StopsUnlessGood(r);
    }
    EndsWell(config, runs);
    if config.loop != [] {
      forall it: nat
        ensures PassDone(config, runs, it) <==> 1 <= it <= Completed(config, runs)
      {
        PassesCounted(w, config, runs, it);
      }
    }
  }

  lemma EndsWell(config: Config, runs: seq<PhaseRun>)
    requires forall r <- runs ::
      !r.failed && r.result.directive != Abort && (r.result.exitCode == 0 || (r.slot.kind == LoopKind && r.result.directive == Exit))
    ensures Ending(config, runs, NotCut) == Finished(config, ExitRun(runs), Completed(config, runs))
    ensures ExitRun(runs).Some? ==> var e := ExitRun(runs).value.result;
      Finished(config, ExitRun(runs), Completed(config, runs)) ==
        (LoopEnd(ByMarker, e.tag, Completed(config, runs)), Outcome(false, 0, EndTurn, e.session, "", 0, Some(e.tag)))
    ensures ExitRun(runs).None? ==>
      Finished(config, ExitRun(runs), Completed(config, runs)) ==
        (LoopEnd(if config.loop == [] then EndedTurn else MaxIterations, "", Completed(config, runs)), Outcome(false, 0, EndTurn, "", "", 0, None))
  {
    hide Completed, ExitRun;
  }

  /** With nothing due after good phases, all pre and post phases ran and the loop is through. */
  lemma SuccessRanAll(w: World, config: Config, runs: seq<PhaseRun>)
    requires Chain(w, config, runs) && Due(config, runs).None?
    requires forall r <- runs ::
      !r.failed && r.result.directive != Abort && (r.result.exitCode == 0 || (r.slot.kind == LoopKind && r.result.directive == Exit))
    ensures forall i | 0 <= i < |config.pre| :: RanWell(runs, Slot(PreKind, 0, i))
    ensures forall i | 0 <= i < |config.post| :: RanWell(runs, Slot(PostKind, 0, i))
    ensures ExitRun(runs).None? && config.loop != [] ==>
      Completed(config, runs) == if config.maxIterations < 0 then 0 else config.maxIterations
  {
    hide Chain, Due, Completed, ExitRun, RanWell;
    ChainRunSoFar(w, config, runs);
    ChainThrough(w, config, runs);
  }

  lemma ChainThrough(w: World, config: Config, runs: seq<PhaseRun>)
    requires Chain(w, config, runs) && Due(config, runs).None? && (runs != [] ==> Good(runs[|runs| - 1]))
    ensures Through(config, runs)
  {
    hide PhaseOk, Completed, ExitRun, SessionOk, Undisturbed;
    if runs == [] {
      assert Completed(config, []) == 0 by { NothingCompleted(config); }
    } else {
      var n := |runs| - 1;
      LastLink(w, config, runs);
      ChainComesTo(w, config, runs[..n]);
      OneRunMoreCounts(config, runs[..n], runs[n]);
    }
  }

  lemma NothingCompleted(config: Config)
    ensures Completed(config, []) == 0
  {
  }

  /** A phase that fails, aborts or ends badly is the last one, and the run reports it: a failure
      as an error, an abort as blocked with its label, a bad end with the phase's own code,
      reason, session and wait. */
  lemma StoppedRunReports(w: World, config: Config, log: seq<Event>, runs: seq<PhaseRun>, outcome: Outcome, run: PhaseRun)
    requires EndedAs(w, config, log, runs, outcome, NotCut) && run in runs && !Good(run)
    ensures run == runs[|runs| - 1] && log[|log| - 1].LoopEnd?
    ensures run.failed ==> outcome.failed && log[|log| - 1].reason == PhaseFailure && log[|log| - 1].exitLabel == ""
    ensures !run.failed && run.result.directive == Abort ==>
      && log[|log| - 1].reason == ByAbort && log[|log| - 1].exitLabel == run.result.tag
      && outcome == Outcome(false, 5, Blocked, run.result.session, run.result.tag, 0, None)
    ensures !run.failed && run.result.directive != Abort ==>
      && log[|log| - 1].reason == (if outcome.reason == TimedOut then ByTimeout else PhaseFailure) && log[|log| - 1].exitLabel == ""
      && outcome == Outcome(false, run.result.exitCode, outcome.reason, run.result.session, "", run.result.retryAfter, None)
      && outcome.exitCode != 0 && outcome.reason == if run.seen != NoReason then run.seen else ReasonFor(run.result.exitCode)
  {
    hide Chain, Log, Completed, ExitRun, Due;
    Endings(w, config, log, runs, outcome, NotCut);
    AllBeforeGood(w, config, runs);
    StopsUnlessGood(runs[|runs| - 1]);
  }

  /** A run that its context cut reports a timeout if the deadline had passed and otherwise a
      cancellation, whatever its phases did; and it was over at that moment. */
  lemma CutRunReports(w: World, config: Config, log: seq<Event>, runs: seq<PhaseRun>, outcome: Outcome, cut: Cut)
    requires EndedAs(w, config, log, runs, outcome, cut) && cut != NotCut
    ensures log[|log| - 1].LoopEnd? && log[|log| - 1].exitLabel == ""
    ensures cut.deadline ==> log[|log| - 1].reason == ByTimeout && outcome == Outcome(false, 124, TimedOut, "", "", 0, None)
    ensures !cut.deadline ==> log[|log| - 1].reason == ByCancellation && outcome == Outcome(false, 130, Cancelled, "", "", 0, None)
    ensures w.context(if cut.CutBefore? then After(runs) else After(runs) - 1) == if cut.deadline then DeadlineExceeded else ContextCancelled
  {
    hide Chain, Log, Completed, ExitRun, Due;
    Endings(w, config, log, runs, outcome, cut);
  }

  /** The number in loop.end is that of the full passes: exactly the iterations up to it had
      every phase of the loop run, end well and go on. */
  lemma PassesReported(w: World, config: Config, log: seq<Event>, runs: seq<PhaseRun>, outcome: Outcome, cut: Cut, iteration: nat)
    requires EndedAs(w, config, log, runs, outcome, cut)
    ensures log != [] && log[|log| - 1].LoopEnd?
    ensures config.loop == [] ==> log[|log| - 1].completed == 0
    ensures config.loop != [] ==> (PassDone(config, Counted(runs, cut), iteration) <==> 1 <= iteration <= log[|log| - 1].completed)
  {
    hide *;
    Endings(w, config, log, runs, outcome, cut);
    EndingCounts(config, runs, cut);
    CountedChain(w, config, runs, cut);
    if config.loop == [] {
      NoLoopNoPass(w, config, Counted(runs, cut));
    } else {
      PassesCounted(w, config, Counted(runs, cut), iteration);
    }
  }

  lemma EndingCounts(config: Config, runs: seq<PhaseRun>, cut: Cut)
    requires cut.CutAfter? ==> runs != []
    ensures var end := Ending(config, runs, cut).0;
      end.LoopEnd? && end.completed == Completed(config, Counted(runs, cut))
  {
    hide Completed, ExitRun;
  }

  lemma CountedChain(w: World, config: Config, runs: seq<PhaseRun>, cut: Cut)
    requires Chain(w, config, runs)
    ensures Chain(w, config, Counted(runs, cut))
  {
    hide Link;
  }

  // ---- what a phase comes to

  /** Attempt `k` was not followed by one that ended otherwise than by a generic failure. */
  predicate NotOverruled(w: World, ats: seq<nat>, k: nat) {
    forall j | k < j < |ats| :: w.attempt(ats[j]).result.exitCode == 1
  }

  /** The directive of a series is that of one of its attempts, the first of the severest that
      were not overruled; or there is none, and none of those has one. */
  ghost predicate Decides(w: World, ats: seq<nat>, k: nat) {
    && k < |ats| && NotOverruled(w, ats, k)
    && forall j | 0 <= j < |ats| && NotOverruled(w, ats, j) ::
         var mine, other := Severity(w.attempt(ats[k]).result.directive), Severity(w.attempt(ats[j]).result.directive);
         other <= mine && (j < k && w.attempt(ats[k]).result.exitCode == 1 ==> other < mine)
  }

  lemma NotOverruledMore(w: World, ats: seq<nat>, at: nat)
    ensures NotOverruled(w, ats + [at], |ats|)
    ensures forall k | 0 <= k < |ats| :: NotOverruled(w, ats + [at], k) <==> NotOverruled(w, ats, k) && w.attempt(at).result.exitCode == 1
  {
    forall k | 0 <= k < |ats|
      ensures NotOverruled(w, ats + [at], k) <==> NotOverruled(w, ats, k) && w.attempt(at).result.exitCode == 1
    {
      assert (ats + [at])[|ats|] == at;
      assert forall j | k < j < |ats| :: (ats + [at])[j] == ats[j];
    }
  }

  lemma {:induction false} DirectiveOfAttempts(w: World, ats: seq<nat>)
    ensures
      || (exists k: nat :: Decides(w, ats, k) && Directed(w, ats) == (w.attempt(ats[k]).result.directive, w.attempt(ats[k]).result.tag))
      || (Directed(w, ats) == (NoDirective, "") &&
          forall j | 0 <= j < |ats| :: w.attempt(ats[j]).result.exitCode == 1 && Severity(w.attempt(ats[j]).result.directive) == 0)
    decreases |ats|
  {
    if ats != [] {
      var n := |ats| - 1;
      var before, at := ats[..n], ats[n];
      assert ats == before + [at];
      DirectiveOfAttempts(w, before);
      NotOverruledMore(w, before, at);
      hide NotOverruled, Severity;
      var r := w.attempt(at).result;
      if r.exitCode != 1 || Severity(r.directive) > Severity(Directed(w, before).0) {
        assert Decides(w, ats, n);
      } else if k: nat :| Decides(w, before, k) && Directed(w, before) == (w.attempt(before[k]).result.directive, w.attempt(before[k]).result.tag) {
        assert Decides(w, ats, k);
      }
    }
  }

  /** A phase's attempts: another one is made exactly if the limit is not reached and the one
      before it gave an answer that calls for another (a generic failure or a rate limit, and
      neither a conflict nor a missing inbox), the wait is allowed and the context running.  The
      last one's result counts, but for a deadline that passes while another is called for. */
  lemma RetriedWhenCalledFor(w: World, maxRetries: int, ats: seq<nat>, result: Result, failed: bool, k: nat)
    requires Retried(w, maxRetries, ats, result, failed) && k < |ats|
    ensures |ats| <= 1 + (if maxRetries < 0 then 0 else maxRetries)
    ensures k + 1 < |ats| <==>
      && k < maxRetries && !w.attempt(ats[k]).failed
      && var r := w.attempt(ats[k]).result;
      && (r.exitCode == 1 || r.reason == RateLimited) && r.reason != SessionIdConflict && r.reason != MessagingUnavailable
      && w.mayRetry(ats[k] + 1) && w.context(ats[k] + 1) == Running
    ensures k + 1 == |ats| ==> failed == w.attempt(ats[k]).failed && result.session == w.attempt(ats[k]).result.session
    ensures k + 1 == |ats| && !failed ==>
      var r := w.attempt(ats[k]).result;
      var late := k < maxRetries && Retryable(r.exitCode, r.reason) && w.mayRetry(ats[k] + 1) && w.context(ats[k] + 1) == DeadlineExceeded;
      result.exitCode == (if late then 124 else r.exitCode) && result.reason == if late then TimedOut else r.reason
  {
    if k < |ats| - 1 {
      assert ats[..|ats| - 1][k] == ats[k] && AskedAgain(w, ats[k]);
    }
  }

  /** The result that nudge `k` would follow, and whether there is one. */
  function Preceding(w: World, before: Result, ats: seq<nat>, k: nat): Answer
    requires k <= |ats|
  {
    if k == 0 then Answer(before, false) else w.attempt(ats[k - 1])
  }

  /** The nudges of a phase: another one is made exactly if the limit is not reached, the answer
      before it ended the turn with code 0, files were missing when then looked for, and the
      context was running.  When that limit is used up the phase is incomplete, in its latest
      session; when the context is over it is timed out or cancelled; otherwise the latest
      answer counts as it is. */
  lemma NudgedWhenIncomplete(w: World, now: nat, maxNudges: int, before: Result, ats: seq<nat>, result: Result, failed: bool, k: nat)
    requires Nudged(w, now, maxNudges, before, ats, result, failed) && k <= |ats|
    ensures var last, check := Preceding(w, before, ats, k), if k == 0 then now else ats[k - 1] + 1;
      var limit := if maxNudges == 0 then 1 else maxNudges;
      var incomplete := !last.failed && last.result.exitCode == 0 && last.result.reason in {EndTurn, NoReason} && w.missing(check);
      && (k < |ats| <==> k < limit && incomplete && w.context(check + 1) == Running)
      && (k == |ats| ==>
            && failed == last.failed
            && (!incomplete ==> result == last.result)
            && (incomplete && k >= limit ==> result == Result(1, IncompleteOutput, last.result.session, 0, before.directive, before.tag))
            && (incomplete && k < limit && w.context(check + 1) == DeadlineExceeded ==> result == before.(exitCode := 124, reason := TimedOut))
            && (incomplete && k < limit && w.context(check + 1) == ContextCancelled ==> result == before.(exitCode := 130, reason := Cancelled)))
  {
    if 0 < k < |ats| {
      assert ats[..|ats| - 1][k - 1] == ats[k - 1] && LeftIncomplete(w, ats[k - 1]);
    }
  }

  /** A phase that resumes is launched in the session of the phase right before it in its pass or
      sequence; any other, and the first, in none. */
  lemma {:induction false} ResumesPrevious(w: World, config: Config, runs: seq<PhaseRun>, k: nat)
    requires Chain(w, config, runs) && k < |runs| && runs[k].course.Ran?
    ensures runs[k].slot.index < |Phases(config, runs[k].slot.kind)| && |Events(w, runs[k])| > 1
    ensures runs[k].slot.index > 0 ==> k > 0 && runs[k - 1].slot == runs[k].slot.(index := runs[k].slot.index - 1)
    ensures Events(w, runs[k])[1].Launch? && Events(w, runs[k])[1].number == 0
    ensures Events(w, runs[k])[1].session ==
      if runs[k].slot.index > 0 && Phases(config, runs[k].slot.kind)[runs[k].slot.index].resume then runs[k - 1].result.session else ""
  {
    hide Chain, PhaseOk, Due, Undisturbed, Events, Next, PreFrom;
    ChainPrefix(w, config, runs, k);
    var run := runs[k];
    PhaseLaunches(w, config, Phases(config, run.slot.kind)[run.slot.index], run);
    if k > 0 {
      DueNext(config, runs[..k]);
      assert runs[..k][k - 1] == runs[k - 1];
      ChainPrefix(w, config, runs, k - 1);
      if runs[k - 1].slot.kind != LoopKind {
        DuePlain(config, runs[..k - 1]);
      }
      NextFollows(config, runs[k - 1], run.slot);
    } else {
      assert runs[..0] == [];
      DueFirst(config);
      FirstIndex(config);
    }
  }

  lemma FirstIndex(config: Config)
    ensures PreFrom(config, 0).Some? ==> PreFrom(config, 0).value.index == 0
  {
  }

  lemma NextFollows(config: Config, run: PhaseRun, slot: Slot)
    requires Next(config, run) == Some(slot) && (run.slot.kind != LoopKind ==> run.slot.iteration == 0)
    ensures slot.index > 0 ==> run.slot == slot.(index := slot.index - 1)
  {
  }

  lemma PhaseLaunches(w: World, config: Config, phase: Phase, run: PhaseRun)
    requires PhaseOk(w, config, phase, run) && run.course.Ran?
    ensures |Events(w, run)| > 1 && Events(w, run)[1] == Launch(0, run.course.session, run.course.retries[0])
  {
    hide Retried, Nudged, NudgeTrace, RetryTrace;
    RetriedSome(w, config.maxRetries, run.course.retries, run.course.middle);
    FirstLaunch(run.course.retries, run.course.session);
  }

  lemma {:induction false} FirstLaunch(ats: seq<nat>, session: string)
    ensures ats != [] ==> RetryTrace(ats, session) != [] && RetryTrace(ats, session)[0] == Launch(0, session, ats[0])
    decreases |ats|
  {
    if |ats| > 1 {
      FirstLaunch(ats[..|ats| - 1], session);
    } else if |ats| == 1 {
      assert RetryTrace(ats[..0], session) == [];
    }
  }

  /** A phase that made attempts and ends clean has all its required files: none was missing
      when they were last looked for. */
  lemma CleanMeansComplete(w: World, config: Config, phase: Phase, run: PhaseRun)
    requires PhaseOk(w, config, phase, run) && run.course.Ran? && !run.failed
    requires run.result.exitCode == 0 && (run.result.reason == EndTurn || run.result.reason == NoReason)
    ensures !w.missing(LastCheck(run.course.checked, run.course.nudges))
  {
    hide Retried, AllIncomplete;
  }

  /** A blocked nested run aborts the run with its own label; any other nested result counts by
      its exit code alone. */
  lemma NestedRunReports(w: World, config: Config, log: seq<Event>, runs: seq<PhaseRun>, outcome: Outcome, run: PhaseRun)
    requires EndedAs(w, config, log, runs, outcome, NotCut) && run in runs && run.course.Nested? && !w.nested(run.course.at).failed
    ensures var r := w.nested(run.course.at).result;
      && (r.reason == Blocked ==> outcome == Outcome(false, 5, Blocked, r.session, r.tag, 0, None))
      && (r.reason != Blocked && r.exitCode == 0 ==> Good(run) && !Exits(run))
      && (r.reason != Blocked && r.exitCode != 0 ==> outcome.exitCode == r.exitCode && outcome.session == r.session && outcome.retryAfter == r.retryAfter)
  {
    var k :| 0 <= k < |runs| && runs[k] == run;
    assert Chain(w, config, runs) by { hide Chain, Log, Ending; }
    ChainPrefix(w, config, runs, k);
    assert PhaseOk(w, config, Phases(config, run.slot.kind)[run.slot.index], run) by { hide Chain, Due, PhaseOk, SessionOk; }
    if !Good(run) {
      hide EndedAs, Chain, Link, Good;
      StoppedRunReports(w, config, log, runs, outcome, run);
    }
  }

  // ---- an exit marker outweighs a bad end

  const BAD_EXIT := Result(1, NoReason, "", 0, Exit, "done")
  const CLEAN_END := Result(0, EndTurn, "", 0, NoDirective, "")

  /** The first attempt ends badly with an exit marker, the others end clean. */
  function ExitingWorld(): World {
    World(at => Answer(if at == 0 then BAD_EXIT else CLEAN_END, false), at => Answer(CLEAN_END, false), at => Running, at => false,
          at => false, at => true, at => true, at => NoReason)
  }

  const ONE_PHASE := [Phase("p", false, false, 0)]
  const EXITING := Config([], ONE_PHASE, ONE_PHASE, 3, 0, false)

  const EXITING_RUNS := [
    PhaseRun(Slot(LoopKind, 1, 0), 1, Ran("", [0], BAD_EXIT, 1, []), BAD_EXIT, false, NoReason, 4),
    PhaseRun(Slot(PostKind, 0, 0), 6, Ran("", [2], CLEAN_END, 3, []), CLEAN_END, false, EndTurn, 9)
  ]

  lemma OneAttempt(w: World, at: nat, maxRetries: int)
    requires maxRetries <= 0
    requires !w.attempt(at).failed && (w.attempt(at).result.exitCode != 1 || Severity(w.attempt(at).result.directive) > 0)
    ensures Retried(w, maxRetries, [at], w.attempt(at).result, false) && !Retried(w, maxRetries, [at], w.attempt(at).result, true)
  {
    assert [at][..0] == [];
    assert Directed(w, []) == (NoDirective, "");
  }

  lemma PhaseRuns(w: World, config: Config, phase: Phase, run: PhaseRun, at: nat, checked: nat)
    requires config.maxRetries <= 0
    requires !phase.nested && !run.failed && run.result == w.attempt(at).result && run.course == Ran("", [at], run.result, checked, [])
    requires !w.attempt(at).failed && (run.result.exitCode != 1 || Severity(run.result.directive) > 0) && !w.missing(checked)
    requires CanStart(w, run.began)
    ensures PhaseOk(w, config, phase, run)
  {
    OneAttempt(w, at, config.maxRetries);
  }

  /** A run in which a loop phase that ended badly, but with an exit marker, is followed by the
      post phase and the run ends well. */
  lemma BadEndWithMarkerGoesOn()
    ensures EndedAs(ExitingWorld(), EXITING, [LoopStart] + Log(ExitingWorld(), EXITING_RUNS) + [LoopEnd(ByMarker, "done", 0)], EXITING_RUNS,
                    Outcome(false, 0, EndTurn, "", "", 0, Some("done")), NotCut)
    ensures EXITING_RUNS[0].result.exitCode != 0 && EXITING_RUNS[1].slot.kind == PostKind
  {
    var w := ExitingWorld();
    var a, b := EXITING_RUNS[0], EXITING_RUNS[1];
    PhaseRuns(w, EXITING, ONE_PHASE[0], a, 0, 1);
    PhaseRuns(w, EXITING, ONE_PHASE[0], b, 2, 3);
    NothingRan(w, EXITING);
    assert Link(w, EXITING, [], a);
    OneRunMore(w, EXITING, [], a);
    assert [] + [a] == [a];
    assert Link(w, EXITING, [a], b);
    OneRunMore(w, EXITING, [a], b);
    assert [a] + [b] == EXITING_RUNS;
    hide Chain, Log, Completed, ExitRun, PhaseOk;
  }
}
