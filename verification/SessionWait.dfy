/** The wait loop of one session (`WaitForSession` in `internal/cli/cli.go`): a select over
    events, the prompt's return, the permission resolver, timers and cancellation, which
    settles one outcome.

    What the select receives is given as a sequence of inputs, of which any may come at any
    time.  Each input also says which of the writes made while handling it succeed. */
module SessionWait {
  import opened Common
  import opened StopReasons

  /** What provider text says about a limit; how text is read is left open. */
  datatype Limit = NoLimit | RateLimit | Quota

  /** `limitIn` and `retryAfterIn` read provider text; `recovers` says that the backend
      declares that it recovers from denials. */
  datatype Config = Config(limitIn: (Reason, string) -> Limit, retryAfterIn: string -> nat, recovers: bool)

  /** The limit class of a failure without a code of its own, and the hinted wait. */
  function ClassifyLimit(cfg: Config, reason: Reason, message: string): (Reason, nat) {
    if reason == SessionIdConflict || reason == ToolDenied || reason == DegenerateStream then (NoReason, 0)
    else if ExitCode(reason) != 1 then (NoReason, 0)
    else match cfg.limitIn(reason, message)
         case NoLimit => (NoReason, 0)
         case RateLimit => (RateLimited, cfg.retryAfterIn(message))
         case Quota => (QuotaExhausted, cfg.retryAfterIn(message))
  }

  // ---- inputs, records, results

  datatype ResolverError = NoError | WasCancelled | Failed

  datatype Resolved = Resolved(cancelled: bool, error: ResolverError, requestID: string, kind: Decision)

  /** A session.end event of the backend; `text` is the failure text it carries, and a
      `retryAfter` of 0 or no `classifiedFrom` is a field it does not have. */
  datatype Terminal = Terminal(reason: Reason, text: string, finalOutput: Option<string>, retryAfter: nat, classifiedFrom: Reason)

  datatype Event =
    | SessionStart(conflict: bool)
    | MessageChunk(text: string)
    | ToolCall
    | ToolUpdate(interrupted: bool)
    | PermissionRequest(requestID: string, ready: Option<Resolved>, claimed: bool, cancelled: bool)
    | SessionEnd(terminal: Terminal)
    | OtherEvent

  datatype PromptResult = PromptOk | PromptCancelled | PromptFailed(text: string)

  datatype Received =
    | Got(event: Event)
    | EventsClosed
    | PromptReturned(result: PromptResult)
    | PermissionDone(resolved: Resolved)
    | Interrupted
    | ContextDone(deadlineExceeded: bool)
    | ProgressTimeout
    | DeadlinePassed
    | SettlementOver

  datatype Input = Input(received: Received, statusOk: bool, writeOk: bool, endOk: bool)

  /** A session.end record as it is written. */
  datatype End = End(reason: Reason, exitCode: int, retryAfter: nat, classifiedFrom: Reason, finalOutput: string)

  datatype Result = Result(exitCode: int, reason: Reason, retryAfter: nat, finalOutput: string, finalReply: string)

  const FAILURE := Result(1, NoReason, 0, "", "")

  /** The agent's message text: all of it, and that since the last tool call. */
  datatype Reply = Reply(full: string, last: string)

  /** The loop's variables.  `cancels` counts the requests to cancel the provider and
      `ends` lists the session.end records written; other records are left out. */
  datatype Wait = Wait(
    reason: Reason,
    promptText: string,
    terminal: Option<Terminal>,
    ended: bool,
    prompted: bool,
    permission: bool,
    eventsOpen: bool,
    interruptedTool: bool,
    denied: bool,
    settling: bool,
    clean: bool,
    stopped: bool,
    cancels: nat,
    reply: Reply,
    ends: seq<End>
  )

  function Start(): Wait {
    Wait(NoReason, "", None, false, false, false, true, false, false, false, false, false, 0, Reply("", ""), [])
  }

  datatype Outcome = Waiting(w: Wait) | Returned(w: Wait, result: Result)

  // ---- settling

  /** Cancels the provider and joins the resolver, once. */
  function Stop(w: Wait): Wait {
    if w.stopped then w else w.(stopped := true, cancels := w.cancels + 1, permission := false)
  }

  predicate Denial(cfg: Config, w: Wait) {
    (w.interruptedTool || w.denied) && !cfg.recovers
  }

  /** A clean end after a denial is reported as the denial. */
  function Settle(reason: Reason, denial: bool): Reason {
    if reason == EndTurn && denial then ToolDenied else reason
  }

  /** What settling a turn comes to: the records it writes, the result, and whether it got
      as far as completing. */
  datatype Settlement = Settlement(ends: seq<End>, result: Result, complete: bool)

  function Complete(reason: Reason, retryAfter: nat, denial: bool, reply: Reply, ends: seq<End>, finalOutput: string): Settlement {
    var settled := Settle(reason, denial);
    Settlement(ends, Result(ExitCode(settled), settled, retryAfter, finalOutput, reply.last), true)
  }

  function EndSession(reason: Reason, retryAfter: nat, reply: Reply, endOk: bool): Settlement {
    if !endOk then Settlement([], FAILURE, false)
    else Settlement([End(reason, ExitCode(reason), retryAfter, NoReason, reply.full)],
                    Result(ExitCode(reason), reason, retryAfter, reply.full, reply.last), false)
  }

  /** The failure text of the backend and of the prompt, together. */
  function FailureText(t: Terminal, promptText: string): string {
    if promptText == "" then t.text else if t.text == "" then promptText else t.text + " " + promptText
  }

  /** The stop reason and the wait adopted for a terminal event. */
  function Verdict(cfg: Config, settled: Reason, text: string): (Reason, nat) {
    var (reason, hint) := ClassifyLimit(cfg, settled, text);
    if reason == NoReason then (settled, 0) else (reason, hint)
  }

  /** The held terminal event as it is written: the backend's own reason is kept beside another
      one, and its own wait stays unless the verdict has one. */
  function Record(t: Terminal, adopted: Reason, hint: nat, finalOutput: string): End {
    End(adopted, ExitCode(adopted), if hint > 0 then hint else t.retryAfter,
        if adopted != t.reason && t.reason != NoReason then t.reason else t.classifiedFrom, finalOutput)
  }

  /** Writes the held terminal event with the verdict; the result has the verdict's wait. */
  function WriteTerminal(cfg: Config, reason: Reason, t: Terminal, promptText: string, denial: bool, reply: Reply, endOk: bool): Settlement {
    var (adopted, retryAfter) := Verdict(cfg, Settle(reason, denial), FailureText(t, promptText));
    var finalOutput := if t.finalOutput.Some? then t.finalOutput.value else reply.full;
    if !endOk then Settlement([], FAILURE, false)
    else Complete(adopted, retryAfter, denial, reply, [Record(t, adopted, retryAfter, finalOutput)], finalOutput)
  }

  /** Settles a turn for which no terminal event came: the prompt's error is all the provider
      text there is. */
  function WithoutTerminal(cfg: Config, reason: Reason, promptText: string, denial: bool, reply: Reply, endOk: bool): Settlement {
    var (limit, retryAfter) := ClassifyLimit(cfg, Errored, promptText);
    if limit != NoReason then EndSession(limit, retryAfter, reply, endOk)
    else Complete(reason, 0, denial, reply, [], reply.full)
  }

  function Conclude(w: Wait, s: Settlement): Outcome {
    Returned(w.(ends := w.ends + s.ends, clean := s.complete && w.ended && w.prompted && !w.permission), s.result)
  }

  /** Settles the turn and writes its session.end. */
  function Flush(cfg: Config, w: Wait, endOk: bool): Outcome {
    Conclude(w,
             if w.terminal.None? then WithoutTerminal(cfg, w.reason, w.promptText, Denial(cfg, w), w.reply, endOk)
             else WriteTerminal(cfg, w.reason, w.terminal.value, w.promptText, Denial(cfg, w), w.reply, endOk))
  }

  /** A branch that stops the run; a terminal event already received keeps the outcome. */
  function Terminate(cfg: Config, w: Wait, reason: Reason, endOk: bool): Outcome {
    if w.ended then Flush(cfg, Stop(w), endOk) else Conclude(Stop(w), EndSession(reason, 0, w.reply, endOk))
  }

  // ---- one turn of the loop

  function PermissionResult(cfg: Config, w: Wait, r: Resolved, i: Input): Outcome {
    if r.cancelled || r.error == WasCancelled then Terminate(cfg, w, Cancelled, i.endOk)
    else if r.error == Failed then
      if w.ended then Flush(cfg, Stop(w), i.endOk) else Returned(w, FAILURE)
    else if r.requestID != "" && !i.statusOk then Returned(w, FAILURE)
    else
      PermissionAnswered(cfg, if r.kind == Reject then w.(denied := true) else w, i.endOk)
  }

  /** Settles a turn that only waited for its permission. */
  function PermissionAnswered(cfg: Config, w: Wait, endOk: bool): Outcome {
    if w.reason != NoReason && w.prompted then Flush(cfg, w, endOk)
    else if !w.eventsOpen && w.reason == NoReason then Flush(cfg, w, endOk)
    else Waiting(w)
  }

  /** A request for permission, once no resolver is under way. */
  function StartResolver(cfg: Config, w: Wait, e: Event, i: Input): Outcome
    requires e.PermissionRequest?
  {
    if !e.claimed && e.cancelled then Terminate(cfg, w, Cancelled, i.endOk)
    else if !e.claimed || !i.writeOk then Returned(w, FAILURE)
    else Waiting(w.(permission := e.requestID != ""))
  }

  function RequestPermission(cfg: Config, w: Wait, e: Event, i: Input): Outcome
    requires e.PermissionRequest?
  {
    if !w.permission then StartResolver(cfg, w, e, i)
    else if e.ready.None? then Returned(w, FAILURE)
    else
      match PermissionResult(cfg, w.(permission := false), e.ready.value, i)
      case Returned(t, result) => Returned(t, result)
      case Waiting(t) => StartResolver(cfg, t, e, i)
  }

  /** What any event does to the variables before it is written. */
  function Observe(w: Wait, e: Event): Wait {
    match e
    case MessageChunk(text) => w.(reply := Reply(w.reply.full + text, w.reply.last + text))
    case ToolCall => w.(reply := w.reply.(last := ""))
    case ToolUpdate(interrupted) => w.(interruptedTool := w.interruptedTool || interrupted)
    case _ => w
  }

  function HandleEvent(cfg: Config, w0: Wait, e: Event, i: Input): Outcome {
    if e.SessionStart? && e.conflict then
      Returned(w0, Result(1, SessionIdConflict, 0, "", ""))
    else if !i.statusOk then Returned(Observe(w0, e), FAILURE)
    else
      var w := Observe(w0, e);
      match e
      case PermissionRequest(_, _, _, _) => RequestPermission(cfg, w, e, i)
      case SessionEnd(t) =>
        var u := w.(reason := t.reason, terminal := Some(t), ended := true);
        if u.prompted && !u.permission then Flush(cfg, u, i.endOk) else Waiting(u)
      case _ => if i.writeOk then Waiting(w) else Returned(w, FAILURE)
  }

  function HandlePrompt(cfg: Config, w0: Wait, r: PromptResult, i: Input): Outcome {
    var w := w0.(prompted := true);
    match r
    case PromptCancelled => Terminate(cfg, w, Cancelled, i.endOk)
    case PromptOk => if w.reason != NoReason && !w.permission then Flush(cfg, w, i.endOk) else Waiting(w)
    case PromptFailed(text) =>
      var t := w.(promptText := text);
      if t.ended then Flush(cfg, Stop(t), i.endOk)
      else if t.eventsOpen && !t.settling then Waiting(t.(settling := true))
      else Flush(cfg, t, i.endOk)
  }

  function Handle(cfg: Config, w: Wait, i: Input): Outcome {
    match i.received
    case Got(e) => HandleEvent(cfg, w, e, i)
    case EventsClosed =>
      var t := w.(eventsOpen := false);
      if t.permission then Waiting(t) else Flush(cfg, t, i.endOk)
    case PromptReturned(r) => HandlePrompt(cfg, w, r, i)
    case PermissionDone(r) => PermissionResult(cfg, w.(permission := false), r, i)
    case Interrupted => Terminate(cfg, w, Cancelled, i.endOk)
    case ContextDone(deadlineExceeded) => Terminate(cfg, w, if deadlineExceeded then TimedOut else Cancelled, i.endOk)
    case ProgressTimeout => Terminate(cfg, w, ProgressTimedOut, i.endOk)
    case DeadlinePassed => Terminate(cfg, w, TimedOut, i.endOk)
    case SettlementOver => Flush(cfg, w, i.endOk)
  }

  /** The deferred stop: every return but a clean one cancels the provider. */
  function Deferred(o: Outcome): Outcome {
    if o.Returned? && !o.w.clean then o.(w := Stop(o.w)) else o
  }

  /** A whole run: the loop handles inputs until it returns or they run out. */
  function Run(cfg: Config, w: Wait, inputs: seq<Input>): Outcome
    decreases |inputs|
  {
    if inputs == [] then Waiting(w)
    else
      var o := Handle(cfg, w, inputs[0]);
      if o.Returned? then Deferred(o) else Run(cfg, o.w, inputs[1..])
  }

  /** The loop itself. */
  method WaitForSession(cfg: Config, inputs: seq<Input>) returns (o: Outcome)
    ensures o == Run(cfg, Start(), inputs)
  {
    var w := Start();
    var n := 0;
    while n < |inputs|
      invariant 0 <= n <= |inputs|
      invariant Run(cfg, Start(), inputs) == Run(cfg, w, inputs[n..])
    {
      var step := Handle(cfg, w, inputs[n]);
      assert inputs[n..][0] == inputs[n] && inputs[n..][1..] == inputs[n + 1..];
      match step {
        case Returned(last, result) =>
          // The deferred function runs on every return.
          if !last.clean {
            last := Stop(last);
          }
          return Returned(last, result);
        case Waiting(next) =>
          w := next;
      }
      n := n + 1;
    }
    return Waiting(w);
  }

  // ---- what the loop keeps

  ghost predicate Looping(w: Wait) {
    && Open(w)
    && !w.stopped && w.ends == []
  }

  /** A state in which the turn may be settled. */
  ghost predicate Open(w: Wait) {
    && !w.clean && w.ends == []
    && w.cancels == (if w.stopped then 1 else 0)
    && (w.ended <==> w.terminal.Some?)
    && w.reason == (if w.ended then w.terminal.value.reason else NoReason)
  }

  /** At most one session.end is written, and the result says the same. */
  ghost predicate EndAgrees(ends: seq<End>, result: Result) {
    |ends| <= 1 &&
    forall e <- ends ::
      e.exitCode == ExitCode(e.reason) && result.exitCode == e.exitCode && result.reason == e.reason &&
      result.finalOutput == e.finalOutput
  }

  /** The failure is reclassified, with a wait: its reason has no exit code of its own and is not
      one of the verdicts that stand, and its text names a limit and a hint. */
  predicate Hinted(cfg: Config, settled: Reason, text: string) {
    && settled != SessionIdConflict && settled != ToolDenied && settled != DegenerateStream && ExitCode(settled) == 1
    && cfg.limitIn(settled, text) != NoLimit && cfg.retryAfterIn(text) > 0
  }

  /** The backend's own wait that the record keeps and the result does not repeat. */
  function LostWait(cfg: Config, reason: Reason, terminal: Option<Terminal>, promptText: string, denial: bool): nat {
    if terminal.None? || Hinted(cfg, Settle(reason, denial), FailureText(terminal.value, promptText)) then 0
    else terminal.value.retryAfter
  }

  /** The result repeats the record's wait, unless one is lost. */
  ghost predicate WaitsAgree(ends: seq<End>, result: Result, lost: nat) {
    forall e <- ends :: if lost == 0 then result.retryAfter == e.retryAfter else result.retryAfter == 0 && e.retryAfter == lost
  }

  ghost predicate Settled(cfg: Config, w: Wait, result: Result) {
    && EndAgrees(w.ends, result) && WaitsAgree(w.ends, result, LostWait(cfg, w.reason, w.terminal, w.promptText, Denial(cfg, w)))
    && (w.terminal.Some? ==> w.reason == w.terminal.value.reason)
    && w.cancels == (if w.stopped then 1 else 0)
    && (w.clean ==> w.ended && w.prompted && !w.permission)
    && (result.reason == EndTurn ==> !Denial(cfg, w))
    && (result.exitCode == 0 ==> result.reason == EndTurn)
  }

  ghost predicate OutcomeOk(cfg: Config, o: Outcome) {
    match o
    case Waiting(w) => Looping(w)
    case Returned(w, result) => Settled(cfg, w, result)
  }

  /** What every settlement promises. */
  ghost predicate SettlementOk(s: Settlement, denial: bool, lost: nat) {
    && EndAgrees(s.ends, s.result) && WaitsAgree(s.ends, s.result, lost)
    && (s.result.reason == EndTurn ==> !denial)
    && (s.result.exitCode == 0 ==> s.result.reason == EndTurn)
  }

  lemma CompleteOk(reason: Reason, retryAfter: nat, denial: bool, reply: Reply, ends: seq<End>, finalOutput: string, lost: nat)
    requires forall e <- ends :: e == End(reason, ExitCode(reason), retryAfter + lost, e.classifiedFrom, finalOutput)
    requires lost == 0 || retryAfter == 0
    requires ends != [] ==> reason != EndTurn || !denial
    requires |ends| <= 1
    ensures SettlementOk(Complete(reason, retryAfter, denial, reply, ends, finalOutput), denial, lost)
  {
  }

  lemma EndSessionOk(reason: Reason, retryAfter: nat, reply: Reply, denial: bool, endOk: bool)
    requires ExitCode(reason) != 0
    ensures SettlementOk(EndSession(reason, retryAfter, reply, endOk), denial, 0)
  {
  }

  /** A settled reason stays settled: a verdict is a clean end only if its reason was. */
  lemma VerdictStaysSettled(cfg: Config, settled: Reason, text: string)
    ensures Verdict(cfg, settled, text).0 == EndTurn <==> settled == EndTurn
    ensures ClassifyLimit(cfg, settled, text).0 in {NoReason, RateLimited, QuotaExhausted}
    ensures Verdict(cfg, settled, text).1 > 0 <==> Hinted(cfg, settled, text)
  {
  }

  lemma WriteTerminalOk(cfg: Config, reason: Reason, t: Terminal, promptText: string, denial: bool, reply: Reply, endOk: bool)
    ensures SettlementOk(WriteTerminal(cfg, reason, t, promptText, denial, reply, endOk), denial,
                         LostWait(cfg, reason, Some(t), promptText, denial))
    ensures endOk ==> |WriteTerminal(cfg, reason, t, promptText, denial, reply, endOk).ends| == 1
  {
    var text := FailureText(t, promptText);
    VerdictStaysSettled(cfg, Settle(reason, denial), text);
    var (adopted, retryAfter) := Verdict(cfg, Settle(reason, denial), text);
    var finalOutput := if t.finalOutput.Some? then t.finalOutput.value else reply.full;
    hide Verdict, Hinted, FailureText;
    CompleteOk(adopted, retryAfter, denial, reply, [Record(t, adopted, retryAfter, finalOutput)], finalOutput,
               LostWait(cfg, reason, Some(t), promptText, denial));
  }

  lemma WithoutTerminalOk(cfg: Config, reason: Reason, promptText: string, denial: bool, reply: Reply, endOk: bool)
    ensures SettlementOk(WithoutTerminal(cfg, reason, promptText, denial, reply, endOk), denial, 0)
  {
    VerdictStaysSettled(cfg, Errored, promptText);
    var (limit, retryAfter) := ClassifyLimit(cfg, Errored, promptText);
    if limit != NoReason {
      EndSessionOk(limit, retryAfter, reply, denial, endOk);
    } else {
      CompleteOk(reason, 0, denial, reply, [], reply.full, 0);
    }
  }

  lemma ConcludeOk(cfg: Config, w: Wait, s: Settlement)
    requires Open(w) && SettlementOk(s, Denial(cfg, w), LostWait(cfg, w.reason, w.terminal, w.promptText, Denial(cfg, w)))
    ensures OutcomeOk(cfg, Conclude(w, s))
  {
    assert w.ends + s.ends == s.ends;
  }

  lemma FlushOk(cfg: Config, w: Wait, endOk: bool)
    requires Open(w)
    ensures Flush(cfg, w, endOk).Returned? && OutcomeOk(cfg, Flush(cfg, w, endOk))
  {
    if w.terminal.None? {
      WithoutTerminalOk(cfg, w.reason, w.promptText, Denial(cfg, w), w.reply, endOk);
      ConcludeOk(cfg, w, WithoutTerminal(cfg, w.reason, w.promptText, Denial(cfg, w), w.reply, endOk));
    } else {
      WriteTerminalOk(cfg, w.reason, w.terminal.value, w.promptText, Denial(cfg, w), w.reply, endOk);
      ConcludeOk(cfg, w, WriteTerminal(cfg, w.reason, w.terminal.value, w.promptText, Denial(cfg, w), w.reply, endOk));
    }
  }

  lemma TerminateOk(cfg: Config, w: Wait, reason: Reason, endOk: bool)
    requires Looping(w) && reason in {Cancelled, TimedOut, ProgressTimedOut}
    ensures Terminate(cfg, w, reason, endOk).Returned? && OutcomeOk(cfg, Terminate(cfg, w, reason, endOk))
  {
    if w.ended {
      FlushOk(cfg, Stop(w), endOk);
    } else {
      EndSessionOk(reason, 0, w.reply, Denial(cfg, Stop(w)), endOk);
      ConcludeOk(cfg, Stop(w), EndSession(reason, 0, w.reply, endOk));
    }
  }

  lemma PermissionResultOk(cfg: Config, w: Wait, r: Resolved, i: Input)
    requires Looping(w)
    ensures OutcomeOk(cfg, PermissionResult(cfg, w, r, i))
  {
    hide Flush, Terminate, PermissionAnswered;
    if r.cancelled || r.error == WasCancelled {
      TerminateOk(cfg, w, Cancelled, i.endOk);
    } else if r.error == Failed {
      FlushOk(cfg, Stop(w), i.endOk);
    } else {
      PermissionAnsweredOk(cfg, if r.kind == Reject then w.(denied := true) else w, i.endOk);
    }
  }

  lemma PermissionAnsweredOk(cfg: Config, w: Wait, endOk: bool)
    requires Looping(w)
    ensures OutcomeOk(cfg, PermissionAnswered(cfg, w, endOk))
  {
    FlushOk(cfg, w, endOk);
  }

  lemma StartResolverOk(cfg: Config, w: Wait, e: Event, i: Input)
    requires Looping(w) && e.PermissionRequest?
    ensures OutcomeOk(cfg, StartResolver(cfg, w, e, i))
  {
    TerminateOk(cfg, w, Cancelled, i.endOk);
  }

  lemma RequestPermissionOk(cfg: Config, w: Wait, e: Event, i: Input)
    requires Looping(w) && e.PermissionRequest?
    ensures OutcomeOk(cfg, RequestPermission(cfg, w, e, i))
  {
    if !w.permission {
      StartResolverOk(cfg, w, e, i);
    } else if e.ready.Some? {
      PermissionResultOk(cfg, w.(permission := false), e.ready.value, i);
      var o := PermissionResult(cfg, w.(permission := false), e.ready.value, i);
      if o.Waiting? {
        StartResolverOk(cfg, o.w, e, i);
      }
    }
  }

  lemma HandleEventOk(cfg: Config, w: Wait, e: Event, i: Input)
    requires Looping(w)
    ensures OutcomeOk(cfg, HandleEvent(cfg, w, e, i))
  {
    hide Flush, RequestPermission;
    if e.PermissionRequest? {
      RequestPermissionOk(cfg, w, e, i);
    } else if e.SessionEnd? {
      FlushOk(cfg, w.(reason := e.terminal.reason, terminal := Some(e.terminal), ended := true), i.endOk);
    }
  }

  lemma HandlePromptOk(cfg: Config, w: Wait, r: PromptResult, i: Input)
    requires Looping(w)
    ensures OutcomeOk(cfg, HandlePrompt(cfg, w, r, i))
  {
    hide Flush, Terminate;
    var t := w.(prompted := true);
    match r
    case PromptCancelled => TerminateOk(cfg, t, Cancelled, i.endOk);
    case PromptOk => FlushOk(cfg, t, i.endOk);
    case PromptFailed(text) =>
      FlushOk(cfg, Stop(t.(promptText := text)), i.endOk);
      FlushOk(cfg, t.(promptText := text), i.endOk);
  }

  lemma HandleOk(cfg: Config, w: Wait, i: Input)
    requires Looping(w)
    ensures OutcomeOk(cfg, Handle(cfg, w, i))
  {
    hide Flush, Terminate, HandleEvent, HandlePrompt, PermissionResult;
    match i.received
    case Got(e) => HandleEventOk(cfg, w, e, i);
    case EventsClosed => FlushOk(cfg, w.(eventsOpen := false), i.endOk);
    case PromptReturned(r) => HandlePromptOk(cfg, w, r, i);
    case PermissionDone(r) => PermissionResultOk(cfg, w.(permission := false), r, i);
    case Interrupted => TerminateOk(cfg, w, Cancelled, i.endOk);
    case ContextDone(d) => TerminateOk(cfg, w, if d then TimedOut else Cancelled, i.endOk);
    case ProgressTimeout => TerminateOk(cfg, w, ProgressTimedOut, i.endOk);
    case DeadlinePassed => TerminateOk(cfg, w, TimedOut, i.endOk);
    case SettlementOver => FlushOk(cfg, w, i.endOk);
  }

  lemma {:induction false} RunOk(cfg: Config, w: Wait, inputs: seq<Input>)
    requires Looping(w)
    ensures OutcomeOk(cfg, Run(cfg, w, inputs))
    ensures var o := Run(cfg, w, inputs); o.Returned? ==> o.w.clean || o.w.stopped
    decreases |inputs|
  {
    if inputs != [] {
      HandleOk(cfg, w, inputs[0]);
      var o := Handle(cfg, w, inputs[0]);
      if o.Waiting? {
        RunOk(cfg, o.w, inputs[1..]);
      }
    }
  }

  // ---- theorems

  /** Every run writes at most one session.end, and its result agrees with that record. */
  lemma OneSessionEnd(cfg: Config, inputs: seq<Input>)
    ensures var o := Run(cfg, Start(), inputs);
      if o.Waiting? then o.w.ends == [] else EndAgrees(o.w.ends, o.result)
  {
    RunOk(cfg, Start(), inputs);
  }

  /** The result repeats the wait of the record that was written, if and only if the backend gave
      no wait of its own or its failure was reclassified with one.  Otherwise the record says
      the backend's wait and the result none. */
  lemma WaitRepeated(cfg: Config, inputs: seq<Input>, e: End)
    requires Run(cfg, Start(), inputs).Returned? && e in Run(cfg, Start(), inputs).w.ends
    ensures var o := Run(cfg, Start(), inputs);
      var kept := o.w.terminal.Some? ==>
        var t := o.w.terminal.value;
        t.retryAfter == 0 || Hinted(cfg, Settle(t.reason, Denial(cfg, o.w)), FailureText(t, o.w.promptText));
      && (o.result.retryAfter == e.retryAfter <==> kept)
      && (!kept ==> o.result.retryAfter == 0 && e.retryAfter == o.w.terminal.value.retryAfter)
  {
    RunOk(cfg, Start(), inputs);
    hide Run, Hinted, FailureText, Settle;
  }

  /** A run that writes a wait of 12 and reports none: a backend that says rate_limited itself. */
  lemma WaitLost(cfg: Config)
    ensures var t := Terminal(RateLimited, "", None, 12, NoReason);
      var o := Both(cfg, Start(), PromptReturned(PromptOk), Got(SessionEnd(t)));
      && o.Returned? && o.w.ends == [End(RateLimited, 7, 12, NoReason, "")]
      && o.result.reason == RateLimited && o.result.retryAfter == 0
  {
    var t := Terminal(RateLimited, "", None, 12, NoReason);
    TwoSteps(cfg, Start(), PromptReturned(PromptOk), Got(SessionEnd(t)));
    var w := Start().(prompted := true);
    assert Handle(cfg, Start(), Input(PromptReturned(PromptOk), true, true, true)) == Waiting(w);
    var u := w.(reason := RateLimited, terminal := Some(t), ended := true);
    assert Handle(cfg, w, Input(Got(SessionEnd(t)), true, true, true)) == Flush(cfg, u, true);
    assert ClassifyLimit(cfg, RateLimited, "") == (NoReason, 0);
    assert FailureText(t, "") == "";
    assert [] + [End(RateLimited, 7, 12, NoReason, "")] == [End(RateLimited, 7, 12, NoReason, "")];
  }

  predicate IsEnd(i: Input) {
    i.received.Got? && i.received.event.SessionEnd?
  }

  predicate Marked(w: Wait) {
    w.interruptedTool || w.denied
  }

  /** The flags for session.end and the prompt's return are set by nothing else, and a mark of
      denial stays. */
  ghost predicate Observes(w: Wait, o: Outcome, ends: bool, prompts: bool) {
    && (o.w.ended ==> w.ended || ends)
    && (o.w.prompted ==> w.prompted || prompts)
    && (Marked(w) ==> Marked(o.w))
  }

  lemma FlushObserves(cfg: Config, w: Wait, endOk: bool)
    ensures Observes(w, Flush(cfg, w, endOk), false, false)
  {
  }

  lemma TerminateObserves(cfg: Config, w: Wait, reason: Reason, endOk: bool)
    ensures Observes(w, Terminate(cfg, w, reason, endOk), false, false)
  {
    hide Flush;
    FlushObserves(cfg, Stop(w), endOk);
  }

  lemma PermissionResultObserves(cfg: Config, w: Wait, r: Resolved, i: Input)
    ensures Observes(w, PermissionResult(cfg, w, r, i), false, false)
  {
    hide Flush, Terminate;
    TerminateObserves(cfg, w, Cancelled, i.endOk);
    var u := if r.kind == Reject then w.(denied := true) else w;
    FlushObserves(cfg, u, i.endOk);
    FlushObserves(cfg, Stop(w), i.endOk);
  }

  lemma RequestPermissionObserves(cfg: Config, w: Wait, e: Event, i: Input)
    requires e.PermissionRequest?
    ensures Observes(w, RequestPermission(cfg, w, e, i), false, false)
  {
    hide Terminate, PermissionResult;
    TerminateObserves(cfg, w, Cancelled, i.endOk);
    if w.permission && e.ready.Some? {
      PermissionResultObserves(cfg, w.(permission := false), e.ready.value, i);
      var o := PermissionResult(cfg, w.(permission := false), e.ready.value, i);
      TerminateObserves(cfg, o.w, Cancelled, i.endOk);
    }
  }

  lemma ObserveObserves(w: Wait, e: Event)
    ensures Observes(w, Waiting(Observe(w, e)), false, false)
  {
  }

  lemma HandleEventObserves(cfg: Config, w: Wait, e: Event, i: Input)
    ensures Observes(w, HandleEvent(cfg, w, e, i), e.SessionEnd?, false)
  {
    hide Flush, RequestPermission, Observe;
    ObserveObserves(w, e);
    var t := Observe(w, e);
    if e.PermissionRequest? {
      RequestPermissionObserves(cfg, t, e, i);
    } else if e.SessionEnd? {
      FlushObserves(cfg, t.(reason := e.terminal.reason, terminal := Some(e.terminal), ended := true), i.endOk);
    }
  }

  lemma HandlePromptObserves(cfg: Config, w: Wait, r: PromptResult, i: Input)
    ensures Observes(w, HandlePrompt(cfg, w, r, i), false, true)
  {
    hide Flush, Terminate;
    var u := w.(prompted := true);
    match r
    case PromptCancelled => TerminateObserves(cfg, u, Cancelled, i.endOk);
    case PromptOk => FlushObserves(cfg, u, i.endOk);
    case PromptFailed(text) =>
      var t := u.(promptText := text);
      FlushObserves(cfg, t, i.endOk);
      FlushObserves(cfg, Stop(t), i.endOk);
  }

  /** The flags are all that is looked at. */
  lemma ObservesFrom(w: Wait, u: Wait)
    requires u == w.(eventsOpen := u.eventsOpen, permission := u.permission)
    ensures Marked(w) == Marked(u)
  {
  }

  lemma HandleObserves(cfg: Config, w: Wait, i: Input)
    ensures Observes(w, Handle(cfg, w, i), IsEnd(i), i.received.PromptReturned?)
  {
    hide Flush, Terminate, HandleEvent, HandlePrompt, PermissionResult;
    hide Marked;
    ObservesFrom(w, w.(eventsOpen := false));
    ObservesFrom(w, w.(permission := false));
    match i.received
    case Got(e) => HandleEventObserves(cfg, w, e, i);
    case EventsClosed => FlushObserves(cfg, w.(eventsOpen := false), i.endOk);
    case PromptReturned(r) => HandlePromptObserves(cfg, w, r, i);
    case PermissionDone(r) => PermissionResultObserves(cfg, w.(permission := false), r, i);
    case Interrupted => TerminateObserves(cfg, w, Cancelled, i.endOk);
    case ContextDone(d) => TerminateObserves(cfg, w, if d then TimedOut else Cancelled, i.endOk);
    case ProgressTimeout => TerminateObserves(cfg, w, ProgressTimedOut, i.endOk);
    case DeadlinePassed => TerminateObserves(cfg, w, TimedOut, i.endOk);
    case SettlementOver => FlushObserves(cfg, w, i.endOk);
  }

  lemma {:induction false} RunObserves(cfg: Config, w: Wait, inputs: seq<Input>)
    ensures Run(cfg, w, inputs).w.ended ==> w.ended || exists i <- inputs :: IsEnd(i)
    ensures Run(cfg, w, inputs).w.prompted ==> w.prompted || exists i <- inputs :: i.received.PromptReturned?
    decreases |inputs|
  {
    if inputs != [] {
      HandleObserves(cfg, w, inputs[0]);
      var o := Handle(cfg, w, inputs[0]);
      if o.Waiting? {
        RunObserves(cfg, o.w, inputs[1..]);
      }
    }
  }

  /** The provider is cancelled exactly once, unless session.end and the prompt's return
      were both received and no resolver is left; while the loop waits, it is not. */
  lemma CancelledOnceUnlessSettled(cfg: Config, inputs: seq<Input>)
    ensures var o := Run(cfg, Start(), inputs);
      if o.Waiting? then o.w.cancels == 0
      else
        o.w.cancels == 1 ||
        (o.w.cancels == 0 && !o.w.permission && (exists i <- inputs :: IsEnd(i)) &&
         exists i <- inputs :: i.received.PromptReturned?)
  {
    RunOk(cfg, Start(), inputs);
    RunObserves(cfg, Start(), inputs);
  }

  /** An input that reports an aborted tool call or a rejected approval. */
  predicate ReportsDenial(w: Wait, i: Input) {
    match i.received
    case Got(ToolUpdate(interrupted)) => interrupted
    case Got(PermissionRequest(_, Some(r), _, _)) => w.permission && Rejection(r)
    case PermissionDone(r) => Rejection(r)
    case _ => false
  }

  predicate Rejection(r: Resolved) {
    r.kind == Reject && !r.cancelled && r.error == NoError
  }

  lemma RejectionMarks(cfg: Config, w: Wait, r: Resolved, i: Input)
    requires Rejection(r)
    ensures var o := PermissionResult(cfg, w, r, i); Marked(o.w) || (o.Returned? && o.result == FAILURE)
  {
    hide Flush;
    FlushObserves(cfg, w.(denied := true), i.endOk);
  }

  /** A reported denial is recorded, or handling it fails. */
  lemma DenialMarks(cfg: Config, w: Wait, i: Input)
    requires ReportsDenial(w, i)
    ensures var o := Handle(cfg, w, i); Marked(o.w) || (o.Returned? && o.result == FAILURE)
  {
    hide Flush, Terminate, PermissionResult;
    match i.received
    case Got(PermissionRequest(_, Some(r), _, _)) =>
      RejectionMarks(cfg, w.(permission := false), r, i);
      TerminateObserves(cfg, PermissionResult(cfg, w.(permission := false), r, i).w, Cancelled, i.endOk);
    case PermissionDone(r) => RejectionMarks(cfg, w.(permission := false), r, i);
    case _ =>
  }

  lemma {:induction false} RunKeepsMark(cfg: Config, w: Wait, inputs: seq<Input>)
    requires Marked(w)
    ensures Marked(Run(cfg, w, inputs).w)
    decreases |inputs|
  {
    if inputs != [] {
      HandleObserves(cfg, w, inputs[0]);
      var o := Handle(cfg, w, inputs[0]);
      if o.Waiting? {
        RunKeepsMark(cfg, o.w, inputs[1..]);
      }
    }
  }

  /** A run that still waits goes on from where it is. */
  lemma {:induction false} RunGoesOn(cfg: Config, w: Wait, inputs: seq<Input>, n: nat)
    requires n <= |inputs| && Run(cfg, w, inputs[..n]).Waiting?
    ensures Run(cfg, w, inputs) == Run(cfg, Run(cfg, w, inputs[..n]).w, inputs[n..])
    decreases n
  {
    if n == 0 {
      assert inputs[n..] == inputs;
    } else {
      assert inputs[..n][1..] == inputs[1..][..n - 1];
      assert inputs[1..][n - 1..] == inputs[n..];
      RunGoesOn(cfg, Handle(cfg, w, inputs[0]).w, inputs[1..], n - 1);
    }
  }

  /** A run that received an aborted tool call or a rejected approval while it was waiting
      never reports a clean end, unless the backend declares that it recovers from denials. */
  lemma DenialIsNotCompletion(cfg: Config, inputs: seq<Input>, n: nat)
    requires n < |inputs| && Run(cfg, Start(), inputs[..n]).Waiting?
    requires ReportsDenial(Run(cfg, Start(), inputs[..n]).w, inputs[n]) && !cfg.recovers
    ensures var o := Run(cfg, Start(), inputs); o.Returned? ==> o.result.reason != EndTurn && o.result.exitCode != 0
  {
    RunOk(cfg, Start(), inputs);
    RunGoesOn(cfg, Start(), inputs, n);
    var w := Run(cfg, Start(), inputs[..n]).w;
    DenialMarks(cfg, w, inputs[n]);
    var o := Handle(cfg, w, inputs[n]);
    if o.Waiting? {
      RunKeepsMark(cfg, o.w, inputs[n..][1..]);
    }
  }

  // ---- a terminal event is not superseded

  /** The record keeps the backend's verdict, or shows it beside the denial or the limit that was
      found instead. */
  ghost predicate Upholds(e: End, t: Terminal) {
    && e.reason in {t.reason, ToolDenied, RateLimited, QuotaExhausted}
    && e.classifiedFrom == (if e.reason != t.reason && t.reason != NoReason then t.reason else t.classifiedFrom)
  }

  ghost predicate Upheld(o: Outcome, t: Terminal) {
    match o
    case Waiting(w) => Looping(w) && w.terminal == Some(t)
    case Returned(w, _) => forall e <- w.ends :: w.terminal == Some(t) && Upholds(e, t)
  }

  lemma FlushUpholds(cfg: Config, w: Wait, t: Terminal, endOk: bool)
    requires Open(w) && w.terminal == Some(t)
    ensures Flush(cfg, w, endOk).Returned? && Upheld(Flush(cfg, w, endOk), t)
  {
    hide ClassifyLimit, FailureText;
    VerdictStaysSettled(cfg, Settle(w.reason, Denial(cfg, w)), FailureText(t, w.promptText));
    var s := WriteTerminal(cfg, w.reason, t, w.promptText, Denial(cfg, w), w.reply, endOk);
    assert w.ends + s.ends == s.ends;
  }

  lemma TerminateUpholds(cfg: Config, w: Wait, t: Terminal, reason: Reason, endOk: bool)
    requires Looping(w) && w.terminal == Some(t)
    ensures Terminate(cfg, w, reason, endOk).Returned? && Upheld(Terminate(cfg, w, reason, endOk), t)
  {
    hide Flush, Upheld;
    FlushUpholds(cfg, Stop(w), t, endOk);
  }

  lemma PermissionResultUpholds(cfg: Config, w: Wait, t: Terminal, r: Resolved, i: Input)
    requires Looping(w) && w.terminal == Some(t)
    ensures Upheld(PermissionResult(cfg, w, r, i), t)
  {
    hide Flush, Terminate;
    TerminateUpholds(cfg, w, t, Cancelled, i.endOk);
    FlushUpholds(cfg, Stop(w), t, i.endOk);
    FlushUpholds(cfg, if r.kind == Reject then w.(denied := true) else w, t, i.endOk);
  }

  lemma RequestPermissionUpholds(cfg: Config, w: Wait, t: Terminal, e: Event, i: Input)
    requires Looping(w) && w.terminal == Some(t) && e.PermissionRequest?
    ensures Upheld(RequestPermission(cfg, w, e, i), t)
  {
    hide Terminate, PermissionResult;
    TerminateUpholds(cfg, w, t, Cancelled, i.endOk);
    if w.permission && e.ready.Some? {
      PermissionResultUpholds(cfg, w.(permission := false), t, e.ready.value, i);
      var o := PermissionResult(cfg, w.(permission := false), e.ready.value, i);
      if o.Waiting? {
        TerminateUpholds(cfg, o.w, t, Cancelled, i.endOk);
      }
    }
  }

  lemma ObserveKeepsTerminal(w: Wait, e: Event)
    requires Looping(w)
    ensures Looping(Observe(w, e)) && Observe(w, e).terminal == w.terminal
  {
  }

  lemma HandleEventUpholds(cfg: Config, w: Wait, t: Terminal, e: Event, i: Input)
    requires Looping(w) && w.terminal == Some(t) && !e.SessionEnd?
    ensures Upheld(HandleEvent(cfg, w, e, i), t)
  {
    hide Observe, RequestPermission;
    ObserveKeepsTerminal(w, e);
    if e.PermissionRequest? {
      RequestPermissionUpholds(cfg, Observe(w, e), t, e, i);
    }
  }

  lemma HandlePromptUpholds(cfg: Config, w: Wait, t: Terminal, r: PromptResult, i: Input)
    requires Looping(w) && w.terminal == Some(t)
    ensures Upheld(HandlePrompt(cfg, w, r, i), t)
  {
    hide Flush, Terminate;
    var u := w.(prompted := true);
    match r
    case PromptCancelled => TerminateUpholds(cfg, u, t, Cancelled, i.endOk);
    case PromptOk => FlushUpholds(cfg, u, t, i.endOk);
    case PromptFailed(text) => FlushUpholds(cfg, Stop(u.(promptText := text)), t, i.endOk);
  }

  lemma HandleUpholds(cfg: Config, w: Wait, t: Terminal, i: Input)
    requires Looping(w) && w.terminal == Some(t) && !IsEnd(i)
    ensures Upheld(Handle(cfg, w, i), t)
  {
    hide Flush, Terminate, HandleEvent, HandlePrompt, PermissionResult;
    match i.received
    case Got(e) => HandleEventUpholds(cfg, w, t, e, i);
    case EventsClosed => FlushUpholds(cfg, w.(eventsOpen := false), t, i.endOk);
    case PromptReturned(r) => HandlePromptUpholds(cfg, w, t, r, i);
    case PermissionDone(r) => PermissionResultUpholds(cfg, w.(permission := false), t, r, i);
    case Interrupted => TerminateUpholds(cfg, w, t, Cancelled, i.endOk);
    case ContextDone(d) => TerminateUpholds(cfg, w, t, if d then TimedOut else Cancelled, i.endOk);
    case ProgressTimeout => TerminateUpholds(cfg, w, t, ProgressTimedOut, i.endOk);
    case DeadlinePassed => TerminateUpholds(cfg, w, t, TimedOut, i.endOk);
    case SettlementOver => FlushUpholds(cfg, w, t, i.endOk);
  }

  lemma {:induction false} RunUpholds(cfg: Config, w: Wait, t: Terminal, inputs: seq<Input>)
    requires Looping(w) && w.terminal == Some(t) && forall i <- inputs :: !IsEnd(i)
    ensures Upheld(Run(cfg, w, inputs), t)
    decreases |inputs|
  {
    if inputs != [] {
      hide Handle, Looping;
      HandleUpholds(cfg, w, t, inputs[0]);
      var o := Handle(cfg, w, inputs[0]);
      if o.Waiting? {
        RunUpholds(cfg, o.w, t, inputs[1..]);
      }
    }
  }

  /** What a session.end event does on arrival. */
  lemma EndArrives(cfg: Config, w: Wait, t: Terminal, i: Input)
    requires Looping(w) && i.received == Got(SessionEnd(t))
    ensures Upheld(Handle(cfg, w, i), t)
  {
    hide Flush;
    FlushUpholds(cfg, w.(reason := t.reason, terminal := Some(t), ended := true), t, i.endOk);
  }

  /** Once the provider's last terminal event was received, no interrupt, timer, cancellation,
      permission or prompt result supersedes it: the record that is written upholds it. */
  lemma {:induction false} TerminalNotSuperseded(cfg: Config, inputs: seq<Input>, n: nat, t: Terminal)
    requires n < |inputs| && Run(cfg, Start(), inputs[..n]).Waiting? && inputs[n].received == Got(SessionEnd(t))
    requires forall i <- inputs[n + 1..] :: !IsEnd(i)
    ensures var o := Run(cfg, Start(), inputs); o.Returned? ==> forall e <- o.w.ends :: o.w.terminal == Some(t) && Upholds(e, t)
  {
    hide Handle, Looping;
    StartLoops();
    RunOk(cfg, Start(), inputs[..n]);
    RunGoesOn(cfg, Start(), inputs, n);
    var w := Run(cfg, Start(), inputs[..n]).w;
    EndArrives(cfg, w, t, inputs[n]);
    assert inputs[n..][1..] == inputs[n + 1..];
    var o := Handle(cfg, w, inputs[n]);
    if o.Waiting? {
      RunUpholds(cfg, o.w, t, inputs[n + 1..]);
    }
  }

  /** In particular, whatever else is received, the wait of a backend that names a reason with an
      exit code of its own is on the record and not in the result. */
  lemma {:induction false} OwnWaitNotRepeated(cfg: Config, inputs: seq<Input>, n: nat, t: Terminal, e: End)
    requires n < |inputs| && Run(cfg, Start(), inputs[..n]).Waiting? && inputs[n].received == Got(SessionEnd(t))
    requires forall i <- inputs[n + 1..] :: !IsEnd(i)
    requires ExitCode(t.reason) != 1 && t.retryAfter > 0
    requires Run(cfg, Start(), inputs).Returned? && e in Run(cfg, Start(), inputs).w.ends
    ensures e.retryAfter == t.retryAfter && Run(cfg, Start(), inputs).result.retryAfter == 0
  {
    TerminalNotSuperseded(cfg, inputs, n, t);
    WaitRepeated(cfg, inputs, e);
    hide Run;
  }

  lemma StartLoops()
    ensures Looping(Start())
  {
  }

  // ---- arrival order

  /** Nothing has settled yet, and nothing else is under way. */
  ghost predicate Undecided(w: Wait) {
    Looping(w) && !w.ended && !w.prompted && !w.permission && w.eventsOpen && !w.settling
  }

  /** Both runs return with the same result, having written the same terminal record. */
  ghost predicate SameEnd(a: Outcome, b: Outcome) {
    a.Returned? && b.Returned? && a.result == b.result && |a.w.ends| == 1 && a.w.ends == b.w.ends
  }

  function Both(cfg: Config, w: Wait, first: Received, second: Received): Outcome {
    Run(cfg, w, [Input(first, true, true, true), Input(second, true, true, true)])
  }

  lemma TwoSteps(cfg: Config, w: Wait, first: Received, second: Received)
    ensures var o := Handle(cfg, w, Input(first, true, true, true));
      Both(cfg, w, first, second) ==
        if o.Returned? then Deferred(o)
        else
          var p := Handle(cfg, o.w, Input(second, true, true, true));
          if p.Returned? then Deferred(p) else p
  {
    var inputs := [Input(first, true, true, true), Input(second, true, true, true)];
    assert inputs[1..] == [inputs[1]];
    var o := Handle(cfg, w, inputs[0]);
    if o.Waiting? {
      assert Run(cfg, o.w, [inputs[1]]) ==
        var p := Handle(cfg, o.w, inputs[1]); if p.Returned? then Deferred(p) else Run(cfg, p.w, [inputs[1]][1..]);
    }
  }

  lemma ConcludeSame(a: Wait, b: Wait, s: Settlement)
    requires a.ends == b.ends == [] && |s.ends| == 1
    ensures SameEnd(Deferred(Conclude(a, s)), Deferred(Conclude(b, s)))
  {
    assert a.ends + s.ends == s.ends == b.ends + s.ends;
  }

  /** What settling two states comes to is the same when they agree on what it looks at. */
  lemma FlushSame(cfg: Config, a: Wait, b: Wait)
    requires Open(a) && Open(b) && a.terminal.Some? && a.terminal == b.terminal && a.promptText == b.promptText
    requires a.reply == b.reply && Denial(cfg, a) == Denial(cfg, b)
    ensures SameEnd(Deferred(Flush(cfg, a, true)), Deferred(Flush(cfg, b, true)))
  {
    WriteTerminalOk(cfg, a.reason, a.terminal.value, a.promptText, Denial(cfg, a), a.reply, true);
    ConcludeSame(a, b, WriteTerminal(cfg, a.reason, a.terminal.value, a.promptText, Denial(cfg, a), a.reply, true));
  }

  /** Whichever of a session.end and the prompt's return comes first, the terminal record and
      the result are the same, if and only if the record names a stop reason or the prompt
      failed. */
  lemma OrderIndependent(cfg: Config, w: Wait, t: Terminal, r: PromptResult)
    requires Undecided(w) && !r.PromptCancelled?
    ensures SameEnd(Both(cfg, w, Got(SessionEnd(t)), PromptReturned(r)), Both(cfg, w, PromptReturned(r), Got(SessionEnd(t))))
            <==> t.reason != NoReason || r.PromptFailed?
  {
    hide Flush;
    TwoSteps(cfg, w, Got(SessionEnd(t)), PromptReturned(r));
    TwoSteps(cfg, w, PromptReturned(r), Got(SessionEnd(t)));
    var ended := w.(reason := t.reason, terminal := Some(t), ended := true, prompted := true);
    if r.PromptFailed? {
      FlushSame(cfg, Stop(ended.(promptText := r.text)), ended.(promptText := r.text, settling := true));
    } else {
      FlushSame(cfg, ended, ended);
    }
  }
}
