/** What a session's wait loop reports, read off what it received: the inputs alone decide the
    session.end record, whatever the loop keeps in its variables. */
module SessionRecord {
  import opened Common
  import opened StopReasons
  import opened SessionWait

  // ---- reading the inputs

  /** The text of all message chunks. */
  function Texts(h: seq<Input>): string {
    if h == [] then ""
    else Texts(h[..|h| - 1]) + match h[|h| - 1].received case Got(MessageChunk(text)) => text case _ => ""
  }

  /** The text of the chunks since the last tool call. */
  function LastTexts(h: seq<Input>): string {
    if h == [] then ""
    else
      match h[|h| - 1].received
      case Got(MessageChunk(text)) => LastTexts(h[..|h| - 1]) + text
      case Got(ToolCall) => ""
      case _ => LastTexts(h[..|h| - 1])
  }

  /** The last session.end event. */
  function LastEnd(h: seq<Input>): Option<Terminal> {
    if h == [] then None
    else
      match h[|h| - 1].received
      case Got(SessionEnd(t)) => Some(t)
      case _ => LastEnd(h[..|h| - 1])
  }

  /** The text of the last failure of the prompt. */
  function PromptError(h: seq<Input>): string {
    if h == [] then ""
    else
      match h[|h| - 1].received
      case PromptReturned(PromptFailed(text)) => text
      case _ => PromptError(h[..|h| - 1])
  }

  /** A request for permission is pending: it came with an ID and no result followed. */
  function Pending(h: seq<Input>): bool {
    if h == [] then false
    else
      match h[|h| - 1].received
      case Got(PermissionRequest(requestID, _, _, _)) => requestID != ""
      case PermissionDone(_) => false
      case _ => Pending(h[..|h| - 1])
  }

  /** A pending approval was rejected, or a result that rejects one came. */
  function Rejected(h: seq<Input>): bool {
    if h == [] then false
    else
      Rejected(h[..|h| - 1]) ||
      match h[|h| - 1].received
      case Got(PermissionRequest(_, Some(r), _, _)) => Pending(h[..|h| - 1]) && Rejection(r)
      case PermissionDone(r) => Rejection(r)
      case _ => false
  }

  predicate Aborts(i: Input) {
    i.received == Got(ToolUpdate(true))
  }

  ghost predicate Prompted(h: seq<Input>) {
    exists i <- h :: i.received.PromptReturned?
  }

  ghost predicate PromptBroke(h: seq<Input>) {
    exists i <- h :: i.received.PromptReturned? && i.received.result.PromptFailed?
  }

  ghost predicate EventsOver(h: seq<Input>) {
    exists i <- h :: i.received.EventsClosed?
  }

  ghost predicate ToolAborted(h: seq<Input>) {
    exists i <- h :: Aborts(i)
  }

  // ---- what the loop knows

  /** The variables that settling looks at are those the inputs give. */
  ghost predicate Knows(w: Wait, h: seq<Input>) {
    && w.reply == Reply(Texts(h), LastTexts(h))
    && w.terminal == LastEnd(h) && w.promptText == PromptError(h)
    && (w.interruptedTool <==> ToolAborted(h)) && (w.denied <==> Rejected(h))
  }

  /** So are those that the loop goes by, and it never waits for nothing: of a stop reason, the
      prompt's return and the answer to a request, one is missing. */
  ghost predicate Follows(w: Wait, h: seq<Input>) {
    && (w.prompted <==> Prompted(h)) && (w.permission <==> Pending(h))
    && (w.eventsOpen <==> !EventsOver(h)) && (w.settling <==> PromptBroke(h))
    && !(w.reason != NoReason && w.prompted && !w.permission)
  }

  /** One input more. */
  lemma OneInput(h: seq<Input>, i: Input)
    ensures (h + [i])[..|h|] == h && (h + [i])[|h|] == i
    ensures Prompted(h + [i]) <==> Prompted(h) || i.received.PromptReturned?
    ensures PromptBroke(h + [i]) <==> PromptBroke(h) || (i.received.PromptReturned? && i.received.result.PromptFailed?)
    ensures EventsOver(h + [i]) <==> EventsOver(h) || i.received.EventsClosed?
    ensures ToolAborted(h + [i]) <==> ToolAborted(h) || Aborts(i)
  {
    assert (h + [i])[|h|] == i && forall j <- h :: j in h + [i];
  }

  /** An input that changes none of the variables that settling looks at. */
  predicate Plain(i: Input) {
    match i.received
    case Got(e) => e.SessionStart? || e.OtherEvent? || (e.PermissionRequest? && e.ready.None?)
    case PromptReturned(r) => !r.PromptFailed?
    case PermissionDone(r) => !Rejection(r)
    case _ => true
  }

  lemma PlainKnows(w: Wait, h: seq<Input>, i: Input)
    requires Knows(w, h) && Plain(i)
    ensures Knows(w, h + [i])
  {
    OneInput(h, i);
  }

  lemma ChunkKnows(w: Wait, h: seq<Input>, i: Input)
    requires Knows(w, h) && i.received.Got? && (i.received.event.MessageChunk? || i.received.event.ToolCall? || i.received.event.ToolUpdate?)
    ensures Knows(Observe(w, i.received.event), h + [i])
  {
    OneInput(h, i);
  }

  lemma EndKnows(w: Wait, h: seq<Input>, i: Input)
    requires Knows(w, h) && i.received.Got? && i.received.event.SessionEnd?
    ensures Knows(w.(terminal := Some(i.received.event.terminal)), h + [i])
  {
    OneInput(h, i);
  }

  lemma FailureKnows(w: Wait, h: seq<Input>, i: Input)
    requires Knows(w, h) && i.received.PromptReturned? && i.received.result.PromptFailed?
    ensures Knows(w.(promptText := i.received.result.text), h + [i])
  {
    OneInput(h, i);
  }

  /** A result that came with an input: a rejection marks the turn as denied. */
  lemma AnswerKnows(w: Wait, h: seq<Input>, i: Input, r: Resolved)
    requires Knows(w, h)
    requires i.received == PermissionDone(r) ||
             (i.received.Got? && i.received.event.PermissionRequest? && i.received.event.ready == Some(r) && Pending(h))
    ensures Knows(if Rejection(r) then w.(denied := true) else w, h + [i])
  {
    OneInput(h, i);
  }

  /** A result that came with no request pending is not looked at. */
  lemma UnaskedKnows(w: Wait, h: seq<Input>, i: Input)
    requires Knows(w, h) && i.received.Got? && i.received.event.PermissionRequest? && !Pending(h)
    ensures Knows(w, h + [i])
  {
    OneInput(h, i);
  }

  /** The variables that settling looks at are the same. */
  predicate Alike(a: Wait, b: Wait) {
    && a.reply == b.reply && a.terminal == b.terminal && a.promptText == b.promptText
    && a.interruptedTool == b.interruptedTool && a.denied == b.denied
  }

  lemma AlikeKnows(a: Wait, b: Wait, h: seq<Input>)
    requires Knows(a, h) && Alike(a, b)
    ensures Knows(b, h)
  {
  }

  /** Settling and stopping leave them alone. */
  lemma FlushAlike(cfg: Config, w: Wait, endOk: bool)
    ensures Alike(w, Flush(cfg, w, endOk).w) && Alike(w, Flush(cfg, Stop(w), endOk).w)
  {
  }

  lemma TerminateAlike(cfg: Config, w: Wait, reason: Reason, endOk: bool)
    ensures Alike(w, Terminate(cfg, w, reason, endOk).w)
  {
    hide Flush, EndSession;
    FlushAlike(cfg, w, endOk);
  }

  /** The outcome counts: the loop waits on or has written a record. */
  predicate Counts(o: Outcome) {
    o.Waiting? || o.w.ends != []
  }

  lemma PermissionResultKnows(cfg: Config, w: Wait, r: Resolved, i: Input)
    requires Looping(w)
    ensures var o := PermissionResult(cfg, w, r, i);
      Counts(o) ==> Alike(if Rejection(r) then w.(denied := true) else w, o.w)
  {
    hide Flush, Terminate;
    TerminateAlike(cfg, w, Cancelled, i.endOk);
    FlushAlike(cfg, w, i.endOk);
    FlushAlike(cfg, if r.kind == Reject then w.(denied := true) else w, i.endOk);
  }

  lemma StartResolverAlike(cfg: Config, w: Wait, e: Event, i: Input)
    requires e.PermissionRequest?
    ensures Alike(w, StartResolver(cfg, w, e, i).w)
  {
    hide Terminate;
    TerminateAlike(cfg, w, Cancelled, i.endOk);
  }

  lemma RequestKnows(cfg: Config, w: Wait, e: Event, i: Input)
    requires Looping(w) && e.PermissionRequest?
    ensures var o := RequestPermission(cfg, w, e, i);
      Counts(o) ==> Alike(if w.permission && e.ready.Some? && Rejection(e.ready.value) then w.(denied := true) else w, o.w)
  {
    hide StartResolver, PermissionResult, Rejection;
    StartResolverAlike(cfg, w, e, i);
    if w.permission && e.ready.Some? {
      var u := w.(permission := false);
      PermissionResultKnows(cfg, u, e.ready.value, i);
      StartResolverAlike(cfg, PermissionResult(cfg, u, e.ready.value, i).w, e, i);
    }
  }

  /** What an event does to the variables that settling looks at. */
  function EventData(w: Wait, e: Event): Wait {
    match e
    case SessionEnd(t) => w.(terminal := Some(t))
    case PermissionRequest(_, Some(r), _, _) => if w.permission && Rejection(r) then w.(denied := true) else w
    case _ => Observe(w, e)
  }

  lemma PlainEventAlike(cfg: Config, w: Wait, e: Event, i: Input)
    requires w.ends == [] && !e.PermissionRequest? && !e.SessionEnd?
    ensures var o := HandleEvent(cfg, w, e, i); Counts(o) ==> Alike(EventData(w, e), o.w)
  {
    hide Flush, RequestPermission, Observe, Alike;
    PlainEventData(w, e);
  }

  lemma PlainEventData(w: Wait, e: Event)
    requires w.ends == [] && !e.PermissionRequest? && !e.SessionEnd?
    ensures EventData(w, e) == Observe(w, e) && Observe(w, e).ends == [] && Alike(Observe(w, e), Observe(w, e))
  {
  }

  lemma EndAlike(cfg: Config, w: Wait, t: Terminal, i: Input)
    requires w.ends == []
    ensures var o := HandleEvent(cfg, w, SessionEnd(t), i); Counts(o) ==> Alike(EventData(w, SessionEnd(t)), o.w)
  {
    hide Flush, RequestPermission, Observe;
    var u := w.(reason := t.reason, terminal := Some(t), ended := true);
    EndUnobserved(w, t);
    FlushAlike(cfg, u, i.endOk);
    assert Alike(EventData(w, SessionEnd(t)), u);
  }

  lemma EndUnobserved(w: Wait, t: Terminal)
    ensures Observe(w, SessionEnd(t)) == w
  {
  }

  lemma RequestAlike(cfg: Config, w: Wait, e: Event, i: Input)
    requires Looping(w) && e.PermissionRequest?
    ensures var o := HandleEvent(cfg, w, e, i); Counts(o) ==> Alike(EventData(w, e), o.w)
  {
    hide Flush, RequestPermission, Rejection;
    RequestKnows(cfg, w, e, i);
  }

  lemma EventAlike(cfg: Config, w: Wait, e: Event, i: Input)
    requires Looping(w)
    ensures var o := HandleEvent(cfg, w, e, i); Counts(o) ==> Alike(EventData(w, e), o.w)
  {
    hide HandleEvent, EventData, Alike;
    if e.PermissionRequest? {
      RequestAlike(cfg, w, e, i);
    } else if e.SessionEnd? {
      EndAlike(cfg, w, e.terminal, i);
    } else {
      PlainEventAlike(cfg, w, e, i);
    }
  }

  lemma EventDataKnows(w: Wait, h: seq<Input>, i: Input)
    requires Knows(w, h) && (w.permission <==> Pending(h)) && i.received.Got?
    ensures Knows(EventData(w, i.received.event), h + [i])
  {
    hide Rejection, Knows;
    match i.received.event
    case PermissionRequest(_, ready, _, _) =>
      if ready.None? {
        PlainKnows(w, h, i);
      } else if w.permission {
        AnswerKnows(w, h, i, ready.value);
      } else {
        UnaskedKnows(w, h, i);
      }
    case SessionEnd(t) => EndKnows(w, h, i);
    case MessageChunk(_) => ChunkKnows(w, h, i);
    case ToolCall => ChunkKnows(w, h, i);
    case ToolUpdate(_) => ChunkKnows(w, h, i);
    case _ => PlainKnows(w, h, i);
  }

  lemma EventKnows(cfg: Config, w: Wait, h: seq<Input>, i: Input)
    requires Looping(w) && Knows(w, h) && (w.permission <==> Pending(h)) && i.received.Got?
    ensures var o := Handle(cfg, w, i); Counts(o) ==> Knows(o.w, h + [i])
  {
    hide HandleEvent, Knows, Alike, EventData;
    var o := HandleEvent(cfg, w, i.received.event, i);
    EventAlike(cfg, w, i.received.event, i);
    EventDataKnows(w, h, i);
    if Counts(o) {
      AlikeKnows(EventData(w, i.received.event), o.w, h + [i]);
    }
  }

  lemma PromptAlike(cfg: Config, w: Wait, r: PromptResult, i: Input)
    ensures Alike(if r.PromptFailed? then w.(promptText := r.text) else w, HandlePrompt(cfg, w, r, i).w)
  {
    hide Flush, Terminate;
    var u := w.(prompted := true);
    match r
    case PromptFailed(text) => FlushAlike(cfg, u.(promptText := text), i.endOk);
    case PromptOk => FlushAlike(cfg, u, i.endOk);
    case PromptCancelled => TerminateAlike(cfg, u, Cancelled, i.endOk);
  }

  lemma PromptKnows(cfg: Config, w: Wait, h: seq<Input>, i: Input)
    requires Knows(w, h) && i.received.PromptReturned?
    ensures Knows(Handle(cfg, w, i).w, h + [i])
  {
    hide HandlePrompt, Knows, Alike;
    var r := i.received.result;
    PromptAlike(cfg, w, r, i);
    if r.PromptFailed? {
      FailureKnows(w, h, i);
      AlikeKnows(w.(promptText := r.text), HandlePrompt(cfg, w, r, i).w, h + [i]);
    } else {
      PlainKnows(w, h, i);
      AlikeKnows(w, HandlePrompt(cfg, w, r, i).w, h + [i]);
    }
  }

  lemma SignalKnows(cfg: Config, w: Wait, h: seq<Input>, i: Input)
    requires Knows(w, h) && !i.received.Got? && !i.received.PromptReturned? && !i.received.PermissionDone?
    ensures Knows(Handle(cfg, w, i).w, h + [i])
  {
    hide Flush, Terminate, Knows;
    var o := Handle(cfg, w, i);
    PlainKnows(w, h, i);
    FlushAlike(cfg, w, i.endOk);
    FlushAlike(cfg, w.(eventsOpen := false), i.endOk);
    TerminateAlike(cfg, w, Cancelled, i.endOk);
    TerminateAlike(cfg, w, TimedOut, i.endOk);
    TerminateAlike(cfg, w, ProgressTimedOut, i.endOk);
    AlikeKnows(w, o.w, h + [i]);
  }

  lemma HandleKnows(cfg: Config, w: Wait, h: seq<Input>, i: Input)
    requires Looping(w) && Knows(w, h) && (w.permission <==> Pending(h))
    ensures var o := Handle(cfg, w, i); Counts(o) ==> Knows(o.w, h + [i])
  {
    if i.received.PermissionDone? {
      hide Knows, PermissionResult, Rejection;
      var u := w.(permission := false);
      PermissionResultKnows(cfg, u, i.received.resolved, i);
      AnswerKnows(w, h, i, i.received.resolved);
      var o := Handle(cfg, w, i);
      if Counts(o) {
        AlikeKnows(if Rejection(i.received.resolved) then w.(denied := true) else w, o.w, h + [i]);
      }
    } else {
      hide Knows, Handle, Looping;
      if i.received.Got? {
        EventKnows(cfg, w, h, i);
      } else if i.received.PromptReturned? {
        PromptKnows(cfg, w, h, i);
      } else {
        SignalKnows(cfg, w, h, i);
      }
    }
  }

  // ---- what the loop goes by

  lemma SettlesAtOnce(cfg: Config, w: Wait, reason: Reason, endOk: bool)
    ensures Flush(cfg, w, endOk).Returned? && Terminate(cfg, w, reason, endOk).Returned?
  {
  }

  /** The variables that the loop goes by are the same. */
  predicate SameFlow(a: Wait, b: Wait) {
    a.prompted == b.prompted && a.eventsOpen == b.eventsOpen && a.settling == b.settling && a.reason == b.reason
  }

  lemma PermissionResultFlow(cfg: Config, w: Wait, r: Resolved, i: Input)
    ensures var o := PermissionResult(cfg, w, r, i);
      o.Waiting? ==> SameFlow(w, o.w) && o.w.permission == w.permission && !(w.reason != NoReason && w.prompted)
  {
    hide Flush, Terminate;
    SettlesAtOnce(cfg, w, Cancelled, i.endOk);
    SettlesAtOnce(cfg, Stop(w), Cancelled, i.endOk);
    SettlesAtOnce(cfg, if r.kind == Reject then w.(denied := true) else w, Cancelled, i.endOk);
  }

  lemma RequestFlow(cfg: Config, w: Wait, e: Event, i: Input)
    requires e.PermissionRequest?
    ensures var o := RequestPermission(cfg, w, e, i);
      o.Waiting? ==> SameFlow(w, o.w) && o.w.permission == (e.requestID != "") && (w.permission ==> !(w.reason != NoReason && w.prompted))
  {
    hide Terminate, PermissionResult;
    SettlesAtOnce(cfg, w, Cancelled, i.endOk);
    if w.permission && e.ready.Some? {
      var u := w.(permission := false);
      PermissionResultFlow(cfg, u, e.ready.value, i);
      SettlesAtOnce(cfg, PermissionResult(cfg, u, e.ready.value, i).w, Cancelled, i.endOk);
    }
  }

  lemma EventFlow(cfg: Config, w: Wait, e: Event, i: Input)
    ensures var o := HandleEvent(cfg, w, e, i);
      o.Waiting? ==>
        if e.SessionEnd? then
          SameFlow(w.(reason := e.terminal.reason), o.w) && o.w.permission == w.permission && (w.permission || !w.prompted)
        else if e.PermissionRequest? then
          SameFlow(w, o.w) && o.w.permission == (e.requestID != "") && (w.permission ==> !(w.reason != NoReason && w.prompted))
        else SameFlow(w, o.w) && o.w.permission == w.permission
  {
    hide Flush, RequestPermission;
    if e.PermissionRequest? {
      RequestFlow(cfg, w, e, i);
    } else if e.SessionEnd? {
      EndFlow(cfg, w, e.terminal, i);
    } else {
      PlainEventFlow(cfg, w, e, i);
    }
    hide HandleEvent;
  }

  lemma EndFlow(cfg: Config, w: Wait, t: Terminal, i: Input)
    ensures var o := HandleEvent(cfg, w, SessionEnd(t), i);
      o.Waiting? ==> SameFlow(w.(reason := t.reason), o.w) && o.w.permission == w.permission && (w.permission || !w.prompted)
  {
    hide Flush, RequestPermission;
    SettlesAtOnce(cfg, w.(reason := t.reason, terminal := Some(t), ended := true), Cancelled, i.endOk);
  }

  lemma PlainEventFlow(cfg: Config, w: Wait, e: Event, i: Input)
    requires !e.PermissionRequest? && !e.SessionEnd?
    ensures var o := HandleEvent(cfg, w, e, i); o.Waiting? ==> SameFlow(w, o.w) && o.w.permission == w.permission
  {
    hide Flush, RequestPermission;
  }

  lemma PromptFlow(cfg: Config, w: Wait, r: PromptResult, i: Input)
    ensures var o := HandlePrompt(cfg, w, r, i);
      o.Waiting? ==>
        && SameFlow(w.(prompted := true, settling := w.settling || r.PromptFailed?), o.w) && o.w.permission == w.permission
        && !r.PromptCancelled? && (r.PromptOk? ==> w.reason == NoReason || w.permission) && (r.PromptFailed? ==> !w.ended)
  {
    hide Flush, Terminate;
    var u := w.(prompted := true);
    SettlesAtOnce(cfg, u, Cancelled, i.endOk);
    if r.PromptFailed? {
      SettlesAtOnce(cfg, u.(promptText := r.text), Cancelled, i.endOk);
      SettlesAtOnce(cfg, Stop(u.(promptText := r.text)), Cancelled, i.endOk);
    }
  }

  lemma SignalFlow(cfg: Config, w: Wait, i: Input)
    requires !i.received.Got? && !i.received.PromptReturned? && !i.received.PermissionDone?
    ensures var o := Handle(cfg, w, i);
      o.Waiting? ==> i.received.EventsClosed? && w.permission && o.w == w.(eventsOpen := false)
  {
    hide Flush, Terminate;
    SettlesAtOnce(cfg, w, Cancelled, i.endOk);
    SettlesAtOnce(cfg, w, TimedOut, i.endOk);
    SettlesAtOnce(cfg, w, ProgressTimedOut, i.endOk);
    SettlesAtOnce(cfg, w.(eventsOpen := false), Cancelled, i.endOk);
  }

  lemma EventFollows(cfg: Config, w: Wait, h: seq<Input>, i: Input)
    requires Follows(w, h) && i.received.Got?
    ensures var o := Handle(cfg, w, i); o.Waiting? ==> Follows(o.w, h + [i])
  {
    hide HandleEvent, Prompted, PromptBroke, EventsOver, ToolAborted, Pending;
    var e := i.received.event;
    OneInput(h, i);
    PendingMore(h, i);
    if e.SessionEnd? {
      EndFlow(cfg, w, e.terminal, i);
    } else if e.PermissionRequest? {
      EventFlow(cfg, w, e, i);
    } else {
      PlainEventFlow(cfg, w, e, i);
    }
  }

  lemma PendingMore(h: seq<Input>, i: Input)
    ensures Pending(h + [i]) ==
      if i.received.Got? && i.received.event.PermissionRequest? then i.received.event.requestID != ""
      else if i.received.PermissionDone? then false else Pending(h)
  {
    OneInput(h, i);
  }

  lemma PromptFollows(cfg: Config, w: Wait, h: seq<Input>, i: Input)
    requires Looping(w) && Follows(w, h) && i.received.PromptReturned?
    ensures var o := Handle(cfg, w, i); o.Waiting? ==> Follows(o.w, h + [i])
  {
    hide HandlePrompt, Prompted, PromptBroke, EventsOver, ToolAborted;
    OneInput(h, i);
    PromptFlow(cfg, w, i.received.result, i);
  }

  lemma HandleFollows(cfg: Config, w: Wait, h: seq<Input>, i: Input)
    requires Looping(w) && Follows(w, h)
    ensures var o := Handle(cfg, w, i); o.Waiting? ==> Follows(o.w, h + [i])
  {
    hide HandleEvent, HandlePrompt, PermissionResult, Flush, Terminate, Prompted, PromptBroke, EventsOver, ToolAborted;
    if i.received.Got? {
      EventFollows(cfg, w, h, i);
    } else if i.received.PromptReturned? {
      PromptFollows(cfg, w, h, i);
    } else {
      OneInput(h, i);
      if i.received.PermissionDone? {
        PermissionResultFlow(cfg, w.(permission := false), i.received.resolved, i);
      } else {
        SignalFlow(cfg, w, i);
      }
    }
  }

  ghost predicate Tracks(w: Wait, h: seq<Input>) {
    Looping(w) && Knows(w, h) && Follows(w, h)
  }

  lemma StartTracks()
    ensures Tracks(Start(), [])
  {
  }

  lemma HandleTracks(cfg: Config, w: Wait, h: seq<Input>, i: Input)
    requires Tracks(w, h)
    ensures var o := Handle(cfg, w, i);
      && (o.Waiting? ==> Tracks(o.w, h + [i]))
      && (o.w.ends != [] ==> Knows(o.w, h + [i]))
  {
    hide Handle, Knows, Looping;
    HandleOk(cfg, w, i);
    HandleKnows(cfg, w, h, i);
    HandleFollows(cfg, w, h, i);
  }

  lemma {:induction false} RunTracks(cfg: Config, w: Wait, h: seq<Input>, inputs: seq<Input>)
    requires Tracks(w, h) && Run(cfg, w, inputs).Waiting?
    ensures Tracks(Run(cfg, w, inputs).w, h + inputs)
    decreases |inputs|
  {
    hide Tracks, Handle;
    if inputs == [] {
      assert h + inputs == h;
    } else {
      HandleTracks(cfg, w, h, inputs[0]);
      assert h + inputs == h + [inputs[0]] + inputs[1..];
      RunTracks(cfg, Handle(cfg, w, inputs[0]).w, h + [inputs[0]], inputs[1..]);
    }
  }

  // ---- what a run reports

  /** The run waited for all of its inputs but the last, which ended it. */
  ghost predicate ReturnsLast(cfg: Config, inputs: seq<Input>) {
    inputs != [] && Run(cfg, Start(), inputs[..|inputs| - 1]).Waiting? && Run(cfg, Start(), inputs).Returned?
  }

  /** What the last input found and what became of it. */
  lemma LastInput(cfg: Config, inputs: seq<Input>) returns (w: Wait)
    requires inputs != [] && Run(cfg, Start(), inputs[..|inputs| - 1]).Waiting?
    ensures Tracks(w, inputs[..|inputs| - 1]) && w == Run(cfg, Start(), inputs[..|inputs| - 1]).w
    ensures Run(cfg, Start(), inputs) == Deferred(Handle(cfg, w, inputs[|inputs| - 1]))
    ensures inputs == inputs[..|inputs| - 1] + [inputs[|inputs| - 1]]
  {
    hide Tracks, Handle;
    var n := |inputs| - 1;
    StartTracks();
    RunTracks(cfg, Start(), [], inputs[..n]);
    assert [] + inputs[..n] == inputs[..n];
    w := Run(cfg, Start(), inputs[..n]).w;
    RunGoesOn(cfg, Start(), inputs, n);
    assert inputs[n..] == [inputs[n]] && [inputs[n]][1..] == [];
  }

  /** The run returns after some input, and the inputs after it change nothing. */
  lemma {:induction false} ReturnsAt(cfg: Config, inputs: seq<Input>) returns (n: nat)
    requires Run(cfg, Start(), inputs).Returned?
    ensures n <= |inputs| && ReturnsLast(cfg, inputs[..n]) && Run(cfg, Start(), inputs) == Run(cfg, Start(), inputs[..n])
    decreases |inputs|
  {
    var m := |inputs| - 1;
    var before := Run(cfg, Start(), inputs[..m]);
    if before.Waiting? {
      n := |inputs|;
      assert inputs[..n] == inputs;
    } else {
      n := ReturnsAt(cfg, inputs[..m]);
      assert inputs[..m][..n] == inputs[..n];
      ReturnedStays(cfg, Start(), inputs, m);
    }
  }

  lemma {:induction false} ReturnedStays(cfg: Config, w: Wait, inputs: seq<Input>, n: nat)
    requires n <= |inputs| && Run(cfg, w, inputs[..n]).Returned?
    ensures Run(cfg, w, inputs) == Run(cfg, w, inputs[..n])
    decreases n
  {
    hide Handle, Deferred;
    if n > 0 && Handle(cfg, w, inputs[0]).Waiting? {
      assert inputs[..n][1..] == inputs[1..][..n - 1];
      ReturnedStays(cfg, Handle(cfg, w, inputs[0]).w, inputs[1..], n - 1);
    }
  }

  /** The loop never waits for nothing: if it still waits after a session.end with a stop reason
      and the prompt's return, a request for permission is pending. */
  lemma NeverWaitsForNothing(cfg: Config, inputs: seq<Input>)
    requires Run(cfg, Start(), inputs).Waiting?
    requires LastEnd(inputs).Some? && LastEnd(inputs).value.reason != NoReason && Prompted(inputs)
    ensures Pending(inputs)
  {
    StartTracks();
    RunTracks(cfg, Start(), [], inputs);
    assert [] + inputs == inputs;
    hide Run;
  }

  // ---- stopped runs

  /** A result of the permission resolver that says it was cancelled. */
  predicate CancelledResult(r: Resolved) {
    r.cancelled || r.error == WasCancelled
  }

  /** The reason for which an input stops the run, if no session.end came before it: an interrupt
      and a cancelled context, prompt or permission cancel it, a deadline and a context whose
      deadline passed time it out, and so does the progress timer.  A request is cancelled by
      itself or by the result of the one it follows. */
  function StopReason(i: Input, pending: bool, open: bool): Option<Reason> {
    match i.received
    case Interrupted => Some(Cancelled)
    case ContextDone(deadlineExceeded) => if deadlineExceeded then Some(TimedOut) else Some(Cancelled)
    case PromptReturned(PromptCancelled) => Some(Cancelled)
    case PermissionDone(r) => if CancelledResult(r) then Some(Cancelled) else None
    case Got(PermissionRequest(_, ready, claimed, cancelled)) =>
      if !i.statusOk then None
      else if pending && (ready.None? || (!CancelledResult(ready.value) && (ready.value.error == Failed || !open))) then None
      else if pending && CancelledResult(ready.value) then Some(Cancelled)
      else if !claimed && cancelled then Some(Cancelled)
      else None
    case DeadlinePassed => Some(TimedOut)
    case ProgressTimeout => Some(ProgressTimedOut)
    case _ => None
  }

  /** The one record, and the result that says the same. */
  ghost predicate StopsFor(o: Outcome, reason: Reason, reply: Reply) {
    && o.Returned? && o.w.ends == [End(reason, ExitCode(reason), 0, NoReason, reply.full)] && o.w.stopped && o.w.cancels == 1
    && o.result == Result(ExitCode(reason), reason, 0, reply.full, reply.last)
  }

  lemma TerminateStops(cfg: Config, w: Wait, reason: Reason)
    requires Looping(w) && !w.ended
    ensures StopsFor(Terminate(cfg, w, reason, true), reason, w.reply)
  {
    var e := End(reason, ExitCode(reason), 0, NoReason, w.reply.full);
    assert [] + [e] == [e];
  }

  lemma RequestStops(cfg: Config, w: Wait, e: Event, i: Input)
    requires Looping(w) && !w.ended && i.endOk && i.statusOk && i.received == Got(e) && e.PermissionRequest?
    requires StopReason(i, w.permission, w.eventsOpen).Some?
    ensures StopsFor(RequestPermission(cfg, w, e, i), Cancelled, w.reply)
  {
    hide Flush, Terminate, StopsFor;
    TerminateStops(cfg, w, Cancelled);
    TerminateStops(cfg, w.(permission := false), Cancelled);
    TerminateStops(cfg, w.(permission := false, denied := true), Cancelled);
  }

  lemma StopHandled(cfg: Config, w: Wait, i: Input)
    requires Looping(w) && !w.ended && i.endOk && StopReason(i, w.permission, w.eventsOpen).Some?
    ensures StopsFor(Handle(cfg, w, i), StopReason(i, w.permission, w.eventsOpen).value, w.reply)
  {
    hide Flush, Terminate, RequestPermission, StopsFor;
    var reason := StopReason(i, w.permission, w.eventsOpen).value;
    if i.received.Got? {
      RequestStops(cfg, w, i.received.event, i);
    } else {
      TerminateStops(cfg, w, reason);
      TerminateStops(cfg, w.(permission := false), reason);
      TerminateStops(cfg, w.(prompted := true), reason);
    }
  }

  /** A run that waits, has received no session.end and then receives a stopping input, with
      its write succeeding, returns at once.  It writes exactly one session.end with that
      input's reason and code and the text of all chunks received, and the result says the
      same; it waits for nothing and cancels the provider once. */
  lemma StoppedRun(cfg: Config, inputs: seq<Input>, n: nat)
    requires n < |inputs| && Run(cfg, Start(), inputs[..n]).Waiting? && (forall i <- inputs[..n] :: !IsEnd(i))
    requires inputs[n].endOk && StopReason(inputs[n], Pending(inputs[..n]), !EventsOver(inputs[..n])).Some?
    ensures var o, reason := Run(cfg, Start(), inputs), StopReason(inputs[n], Pending(inputs[..n]), !EventsOver(inputs[..n])).value;
      && var code := if reason == Cancelled then 130 else 124;
      && o.Returned? && o.w.ends == [End(reason, code, 0, NoReason, Texts(inputs[..n]))]
      && o.result == Result(code, reason, 0, Texts(inputs[..n]), LastTexts(inputs[..n])) && o.w.cancels == 1
  {
    hide Handle, Run;
    var upTo := inputs[..n + 1];
    assert upTo[..n] == inputs[..n];
    NoEnd(inputs[..n]);
    var w := LastInput(cfg, upTo);
    StopHandled(cfg, w, inputs[n]);
    ReturnedStays(cfg, Start(), inputs, n + 1);
  }

  lemma {:induction false} NoEnd(h: seq<Input>)
    ensures LastEnd(h).None? <==> forall i <- h :: !IsEnd(i)
    decreases |h|
  {
    if h != [] {
      NoEnd(h[..|h| - 1]);
      assert h == h[..|h| - 1] + [h[|h| - 1]] && h[|h| - 1] in h;
      assert forall i <- h :: i in h[..|h| - 1] || i == h[|h| - 1];
    }
  }

  // ---- the record of a run

  /** The failure text of the backend and of the prompt, with a space between them. */
  function Joined(own: string, prompt: string): string {
    if own != "" && prompt != "" then own + " " + prompt else own + prompt
  }

  /** The limit that provider text names, for a failure that has no exit code of its own. */
  function NamedLimit(cfg: Config, reason: Reason, text: string): Limit {
    if ExitCode(reason) == 1 && reason != SessionIdConflict && reason != DegenerateStream then cfg.limitIn(reason, text) else NoLimit
  }

  /** The record for the last session.end received: a clean end after a denial is a denial, and a
      failure whose text names a limit is that limit, with the hinted wait. */
  function EndedRecord(cfg: Config, t: Terminal, prompt: string, denial: bool, texts: string): End {
    var own := if t.reason == EndTurn && denial then ToolDenied else t.reason;
    var limit := NamedLimit(cfg, own, Joined(t.text, prompt));
    var reason := match limit case NoLimit => own case RateLimit => RateLimited case Quota => QuotaExhausted;
    var hint := if limit == NoLimit then 0 else cfg.retryAfterIn(Joined(t.text, prompt));
    End(reason, ExitCode(reason), if hint > 0 then hint else t.retryAfter,
        if t.reason != NoReason && reason != t.reason then t.reason else t.classifiedFrom,
        if t.finalOutput.Some? then t.finalOutput.value else texts)
  }

  /** The record where none was received: a stop, or a prompt whose error names a limit. */
  ghost predicate UnendedRecord(cfg: Config, stop: Option<Reason>, prompt: string, texts: string, e: End) {
    if stop.Some? then e == End(stop.value, ExitCode(stop.value), 0, NoReason, texts)
    else
      match cfg.limitIn(Errored, prompt)
      case NoLimit => false
      case RateLimit => e == End(RateLimited, 7, cfg.retryAfterIn(prompt), NoReason, texts)
      case Quota => e == End(QuotaExhausted, 6, cfg.retryAfterIn(prompt), NoReason, texts)
  }

  lemma JoinedText(t: Terminal, prompt: string)
    ensures FailureText(t, prompt) == Joined(t.text, prompt)
  {
  }

  lemma WrittenRecord(cfg: Config, t: Terminal, prompt: string, denial: bool, reply: Reply)
    ensures WriteTerminal(cfg, t.reason, t, prompt, denial, reply, true).ends == [EndedRecord(cfg, t, prompt, denial, reply.full)]
    ensures WriteTerminal(cfg, t.reason, t, prompt, denial, reply, true).result.finalReply == reply.last
    ensures WriteTerminal(cfg, t.reason, t, prompt, denial, reply, false).ends == []
  {
    JoinedText(t, prompt);
    hide FailureText, Joined;
  }

  lemma FlushRecord(cfg: Config, w: Wait, endOk: bool, e: End)
    requires Open(w) && e in Flush(cfg, w, endOk).w.ends
    ensures if w.terminal.Some? then e == EndedRecord(cfg, w.terminal.value, w.promptText, Denial(cfg, w), w.reply.full)
            else UnendedRecord(cfg, None, w.promptText, w.reply.full, e)
    ensures Flush(cfg, w, endOk).Returned? && Flush(cfg, w, endOk).result.finalReply == w.reply.last
  {
    hide EndedRecord, WriteTerminal, Denial;
    if w.terminal.Some? {
      WrittenRecord(cfg, w.terminal.value, w.promptText, Denial(cfg, w), w.reply);
      assert forall x: seq<End> :: [] + x == x;
    }
  }

  /** The record that a state settles with. */
  ghost predicate Fits(cfg: Config, w: Wait, stop: Option<Reason>, e: End) {
    if w.terminal.Some? then e == EndedRecord(cfg, w.terminal.value, w.promptText, Denial(cfg, w), w.reply.full)
    else UnendedRecord(cfg, stop, w.promptText, w.reply.full, e)
  }

  /** Every record fits, and a return without one is a failure. */
  ghost predicate AllFit(cfg: Config, o: Outcome, stop: Option<Reason>) {
    && (forall e <- o.w.ends :: Fits(cfg, o.w, stop, e) && o.Returned? && o.result.finalReply == o.w.reply.last)
    && (o.Returned? && o.w.ends == [] ==> o.result.exitCode == 1)
  }

  lemma UnrecordedFails(cfg: Config, w: Wait, endOk: bool)
    requires Open(w)
    ensures var o := Flush(cfg, w, endOk); o.Returned? && (o.w.ends == [] ==> o.result.exitCode == 1)
    ensures w.terminal.Some? && endOk ==> |Flush(cfg, w, endOk).w.ends| == 1
  {
    hide ClassifyLimit, EndedRecord, FailureText, Denial;
    if w.terminal.Some? {
      hide WriteTerminal;
      WrittenRecord(cfg, w.terminal.value, w.promptText, Denial(cfg, w), w.reply);
      WriteRefused(cfg, w.terminal.value, w.promptText, Denial(cfg, w), w.reply);
    }
  }

  lemma WriteRefused(cfg: Config, t: Terminal, prompt: string, denial: bool, reply: Reply)
    ensures WriteTerminal(cfg, t.reason, t, prompt, denial, reply, false) == Settlement([], FAILURE, false)
  {
  }

  lemma FlushFits(cfg: Config, w: Wait, endOk: bool)
    requires Open(w)
    ensures AllFit(cfg, Flush(cfg, w, endOk), None)
    ensures w.ended ==> forall stop :: AllFit(cfg, Flush(cfg, w, endOk), stop)
  {
    var o := Flush(cfg, w, endOk);
    FlushAlike(cfg, w, endOk);
    UnrecordedFails(cfg, w, endOk);
    hide Flush, EndedRecord, UnendedRecord;
    forall e <- o.w.ends
      ensures Fits(cfg, o.w, None, e) && o.Returned? && o.result.finalReply == o.w.reply.last
    {
      FlushRecord(cfg, w, endOk, e);
    }
  }

  lemma TerminateFits(cfg: Config, w: Wait, reason: Reason, endOk: bool)
    requires Looping(w)
    ensures AllFit(cfg, Terminate(cfg, w, reason, endOk), Some(reason))
  {
    hide Flush, EndedRecord;
    if w.ended {
      FlushFits(cfg, Stop(w), endOk);
    }
  }

  lemma NoneFit(cfg: Config, w: Wait, result: Result, stop: Option<Reason>)
    requires Looping(w) && result.exitCode == 1
    ensures AllFit(cfg, Returned(w, result), stop) && AllFit(cfg, Waiting(w), stop)
  {
  }

  lemma PermissionResultFits(cfg: Config, w: Wait, r: Resolved, i: Input)
    requires Looping(w)
    ensures AllFit(cfg, PermissionResult(cfg, w, r, i), if CancelledResult(r) then Some(Cancelled) else None)
    ensures PermissionResult(cfg, w, r, i).Waiting? ==> Looping(PermissionResult(cfg, w, r, i).w)
  {
    hide Flush, Terminate, AllFit;
    PermissionResultOk(cfg, w, r, i);
    TerminateFits(cfg, w, Cancelled, i.endOk);
    FlushFits(cfg, Stop(w), i.endOk);
    var u := if r.kind == Reject then w.(denied := true) else w;
    FlushFits(cfg, u, i.endOk);
    NoneFit(cfg, w, FAILURE, None);
    NoneFit(cfg, u, FAILURE, None);
  }

  lemma StartResolverFits(cfg: Config, w: Wait, e: Event, i: Input)
    requires Looping(w) && e.PermissionRequest?
    ensures AllFit(cfg, StartResolver(cfg, w, e, i), if !e.claimed && e.cancelled then Some(Cancelled) else None)
  {
    hide Terminate, AllFit;
    TerminateFits(cfg, w, Cancelled, i.endOk);
    NoneFit(cfg, w, FAILURE, None);
    NoneFit(cfg, w.(permission := e.requestID != ""), FAILURE, None);
  }

  lemma StopIrrelevant(cfg: Config, o: Outcome, a: Option<Reason>, b: Option<Reason>)
    requires AllFit(cfg, o, a) && (o.w.terminal.Some? || o.w.ends == [] || a == b)
    ensures AllFit(cfg, o, b)
  {
    hide EndedRecord, UnendedRecord;
  }

  /** While no session.end came, a result that is not cancelled leaves the turn open exactly if
      it is no failure and more events may come. */
  lemma PermissionResultLeaves(cfg: Config, w: Wait, r: Resolved, i: Input)
    requires Looping(w) && i.statusOk && !CancelledResult(r)
    ensures var o := PermissionResult(cfg, w, r, i);
      && o.w.terminal == w.terminal
      && (w.terminal.None? && (r.error == Failed || !w.eventsOpen) ==> o.Returned?)
      && (w.terminal.None? && r.error != Failed && w.eventsOpen ==> o.Waiting?)
  {
    hide Flush;
    SettlesAtOnce(cfg, if r.kind == Reject then w.(denied := true) else w, Cancelled, i.endOk);
    SettlesAtOnce(cfg, Stop(w), Cancelled, i.endOk);
    FlushAlike(cfg, if r.kind == Reject then w.(denied := true) else w, i.endOk);
    FlushAlike(cfg, w, i.endOk);
  }

  lemma StartResolverKeeps(cfg: Config, w: Wait, e: Event, i: Input)
    requires e.PermissionRequest?
    ensures StartResolver(cfg, w, e, i).w.terminal == w.terminal
  {
    StartResolverAlike(cfg, w, e, i);
    hide StartResolver;
  }

  lemma PermissionResultKeeps(cfg: Config, w: Wait, r: Resolved, i: Input)
    ensures PermissionResult(cfg, w, r, i).w.terminal == w.terminal
  {
    hide Flush, Terminate;
    TerminateAlike(cfg, w, Cancelled, i.endOk);
    FlushAlike(cfg, w, i.endOk);
    FlushAlike(cfg, if r.kind == Reject then w.(denied := true) else w, i.endOk);
  }

  lemma AnsweredRequestFits(cfg: Config, w: Wait, e: Event, i: Input)
    requires Looping(w) && w.permission && e.PermissionRequest? && e.ready.Some? && i.statusOk && i.received == Got(e)
    ensures AllFit(cfg, RequestPermission(cfg, w, e, i), StopReason(i, w.permission, w.eventsOpen))
  {
    hide StartResolver, PermissionResult, AllFit, Looping;
    var u, r, stop := w.(permission := false), e.ready.value, StopReason(i, w.permission, w.eventsOpen);
    assert Looping(u) by { ClearKeepsLooping(w); }
    PermissionResultFits(cfg, u, r, i);
    PermissionResultKeeps(cfg, u, r, i);
    var o := PermissionResult(cfg, u, r, i);
    if !CancelledResult(r) {
      PermissionResultLeaves(cfg, u, r, i);
    } else {
      CancelledReturns(cfg, u, r, i);
    }
    if o.Returned? {
      StopIrrelevant(cfg, o, if CancelledResult(r) then Some(Cancelled) else None, stop);
    } else {
      StartResolverFits(cfg, o.w, e, i);
      StartResolverKeeps(cfg, o.w, e, i);
      StopIrrelevant(cfg, StartResolver(cfg, o.w, e, i), if !e.claimed && e.cancelled then Some(Cancelled) else None, stop);
    }
  }

  lemma CancelledReturns(cfg: Config, w: Wait, r: Resolved, i: Input)
    requires CancelledResult(r)
    ensures PermissionResult(cfg, w, r, i).Returned?
  {
    SettlesAtOnce(cfg, w, Cancelled, i.endOk);
    hide Terminate, Flush;
  }

  lemma ClearKeepsLooping(w: Wait)
    requires Looping(w)
    ensures Looping(w.(permission := false))
  {
  }

  lemma RequestFits(cfg: Config, w: Wait, e: Event, i: Input)
    requires Looping(w) && e.PermissionRequest? && i.statusOk && i.received == Got(e)
    ensures AllFit(cfg, RequestPermission(cfg, w, e, i), StopReason(i, w.permission, w.eventsOpen))
  {
    hide StartResolver, PermissionResult, AllFit, Looping;
    if w.permission && e.ready.Some? {
      AnsweredRequestFits(cfg, w, e, i);
    } else if !w.permission {
      StartResolverFits(cfg, w, e, i);
    } else {
      NoneFit(cfg, w, FAILURE, None);
    }
  }

  lemma PlainEventFits(cfg: Config, w: Wait, e: Event, i: Input, stop: Option<Reason>)
    requires Looping(w) && (!i.statusOk || (!e.PermissionRequest? && !e.SessionEnd?))
    ensures AllFit(cfg, HandleEvent(cfg, w, e, i), stop)
  {
    hide Observe, RequestPermission, Flush, AllFit, Looping;
    ObserveKeepsTerminal(w, e);
    NoneFit(cfg, w, Result(1, SessionIdConflict, 0, "", ""), stop);
    NoneFit(cfg, Observe(w, e), FAILURE, stop);
  }

  lemma EndFits(cfg: Config, w: Wait, t: Terminal, i: Input, stop: Option<Reason>)
    requires Looping(w)
    ensures AllFit(cfg, HandleEvent(cfg, w, SessionEnd(t), i), stop)
  {
    hide Flush, AllFit;
    var u := w.(reason := t.reason, terminal := Some(t), ended := true);
    NoneFit(cfg, w, FAILURE, stop);
    NoneFit(cfg, u, FAILURE, stop);
    FlushFits(cfg, u, i.endOk);
  }

  lemma EventFits(cfg: Config, w: Wait, i: Input)
    requires Looping(w) && i.received.Got?
    ensures AllFit(cfg, HandleEvent(cfg, w, i.received.event, i), StopReason(i, w.permission, w.eventsOpen))
  {
    var e, stop := i.received.event, StopReason(i, w.permission, w.eventsOpen);
    if e.PermissionRequest? && i.statusOk {
      hide RequestPermission, AllFit, StopReason, Looping;
      RequestFits(cfg, w, e, i);
    } else {
      hide *;
      if e.SessionEnd? {
        EndFits(cfg, w, e.terminal, i, stop);
      } else {
        PlainEventFits(cfg, w, e, i, stop);
      }
    }
  }

  lemma PromptFits(cfg: Config, w: Wait, r: PromptResult, i: Input)
    requires Looping(w)
    ensures AllFit(cfg, HandlePrompt(cfg, w, r, i), if r.PromptCancelled? then Some(Cancelled) else None)
  {
    hide Flush, Terminate, AllFit;
    var u := w.(prompted := true);
    match r
    case PromptCancelled => TerminateFits(cfg, u, Cancelled, i.endOk);
    case PromptOk =>
      FlushFits(cfg, u, i.endOk);
      NoneFit(cfg, u, FAILURE, None);
    case PromptFailed(text) =>
      FlushFits(cfg, u.(promptText := text), i.endOk);
      FlushFits(cfg, Stop(u.(promptText := text)), i.endOk);
      NoneFit(cfg, u.(promptText := text, settling := true), FAILURE, None);
  }

  lemma HandleFits(cfg: Config, w: Wait, i: Input)
    requires Looping(w)
    ensures AllFit(cfg, Handle(cfg, w, i), StopReason(i, w.permission, w.eventsOpen))
  {
    hide Flush, Terminate, HandleEvent, HandlePrompt, PermissionResult, AllFit;
    match i.received
    case Got(e) => EventFits(cfg, w, i);
    case EventsClosed =>
      FlushFits(cfg, w.(eventsOpen := false), i.endOk);
      NoneFit(cfg, w.(eventsOpen := false), FAILURE, None);
    case PromptReturned(r) => PromptFits(cfg, w, r, i);
    case PermissionDone(r) => PermissionResultFits(cfg, w.(permission := false), r, i);
    case Interrupted => TerminateFits(cfg, w, Cancelled, i.endOk);
    case ContextDone(d) => TerminateFits(cfg, w, if d then TimedOut else Cancelled, i.endOk);
    case ProgressTimeout => TerminateFits(cfg, w, ProgressTimedOut, i.endOk);
    case DeadlinePassed => TerminateFits(cfg, w, TimedOut, i.endOk);
    case SettlementOver => FlushFits(cfg, w, i.endOk);
  }

  /** The record of every run is the one that its inputs call for.  If a session.end came, it is
      that of the last one received; otherwise it says why the last input stopped the run, or
      which limit the prompt's error names. */
  lemma RecordOfRun(cfg: Config, inputs: seq<Input>, e: End)
    requires ReturnsLast(cfg, inputs) && e in Run(cfg, Start(), inputs).w.ends
    ensures var before := inputs[..|inputs| - 1];
      var denial := !cfg.recovers && (ToolAborted(inputs) || Rejected(inputs));
      if LastEnd(inputs).Some? then e == EndedRecord(cfg, LastEnd(inputs).value, PromptError(inputs), denial, Texts(inputs))
      else UnendedRecord(cfg, StopReason(inputs[|inputs| - 1], Pending(before), !EventsOver(before)), PromptError(inputs), Texts(inputs), e)
    ensures Run(cfg, Start(), inputs).result.finalReply == LastTexts(inputs)
  {
    hide Handle, Run, EndedRecord, UnendedRecord, StopReason, Looping;
    var n := |inputs| - 1;
    var w := LastInput(cfg, inputs);
    HandleTracks(cfg, w, inputs[..n], inputs[n]);
    HandleFits(cfg, w, inputs[n]);
    var o := Handle(cfg, w, inputs[n]);
    assert AllFit(cfg, o, StopReason(inputs[n], w.permission, w.eventsOpen));
    assert Fits(cfg, o.w, StopReason(inputs[n], w.permission, w.eventsOpen), e);
  }

  // ---- when a run goes on

  /** What matters of the inputs received so far: whether the prompt returned, whether it failed,
      whether a request is pending, whether events may still come, and the last session.end. */
  datatype Standing = Standing(prompted: bool, broke: bool, pending: bool, open: bool, end: Option<Terminal>)

  ghost function StandingAfter(h: seq<Input>): Standing {
    Standing(Prompted(h), PromptBroke(h), Pending(h), !EventsOver(h), LastEnd(h))
  }

  predicate HasReason(s: Standing) {
    s.end.Some? && s.end.value.reason != NoReason
  }

  /** A result of the resolver after which the turn is not settled: it is an answer, and the
      prompt has not returned if there is a stop reason, or events may still come if not. */
  predicate AnswerLeavesOpen(r: Resolved, s: Standing) {
    && !CancelledResult(r) && r.error == NoError
    && if HasReason(s) then !s.prompted else s.open
  }

  /** The inputs after which the loop waits on. */
  predicate GoesOn(i: Input, s: Standing) {
    match i.received
    case Got(e) =>
      (match e
       case SessionStart(conflict) => !conflict && i.statusOk && i.writeOk
       case SessionEnd(_) => i.statusOk && (!s.prompted || s.pending)
       case PermissionRequest(_, ready, claimed, _) =>
         i.statusOk && claimed && i.writeOk && (s.pending ==> ready.Some? && AnswerLeavesOpen(ready.value, s))
       case _ => i.statusOk && i.writeOk)
    case EventsClosed => s.pending
    case PromptReturned(PromptOk) => !HasReason(s) || s.pending
    case PromptReturned(PromptFailed(_)) => s.end.None? && s.open && !s.broke
    case PermissionDone(r) => (r.requestID != "" ==> i.statusOk) && AnswerLeavesOpen(r, s)
    case _ => false
  }

  /** The loop's variables stand like that. */
  predicate StandsAt(w: Wait, s: Standing) {
    s == Standing(w.prompted, w.settling, w.permission, w.eventsOpen, w.terminal)
  }

  lemma AnswerGoesOn(cfg: Config, w: Wait, s: Standing, r: Resolved, i: Input)
    requires Looping(w) && StandsAt(w, s.(pending := w.permission)) && (r.requestID != "" ==> i.statusOk)
    ensures PermissionResult(cfg, w, r, i).Waiting? <==> AnswerLeavesOpen(r, s)
  {
    hide Flush, Terminate;
    SettlesAtOnce(cfg, w, Cancelled, i.endOk);
    SettlesAtOnce(cfg, Stop(w), Cancelled, i.endOk);
    SettlesAtOnce(cfg, if r.kind == Reject then w.(denied := true) else w, Cancelled, i.endOk);
  }

  lemma ResolverGoesOn(cfg: Config, w: Wait, e: Event, i: Input)
    requires e.PermissionRequest?
    ensures StartResolver(cfg, w, e, i).Waiting? <==> e.claimed && i.writeOk
  {
    hide Terminate;
    SettlesAtOnce(cfg, w, Cancelled, i.endOk);
  }

  lemma RequestGoesOn(cfg: Config, w: Wait, s: Standing, e: Event, i: Input)
    requires Looping(w) && StandsAt(w, s) && e.PermissionRequest? && i.statusOk
    ensures RequestPermission(cfg, w, e, i).Waiting? <==>
      e.claimed && i.writeOk && (s.pending ==> e.ready.Some? && AnswerLeavesOpen(e.ready.value, s))
  {
    hide PermissionResult, StartResolver, AnswerLeavesOpen;
    ResolverGoesOn(cfg, w, e, i);
    if w.permission && e.ready.Some? {
      var u := w.(permission := false);
      AnswerGoesOn(cfg, u, s, e.ready.value, i);
      ResolverGoesOn(cfg, PermissionResult(cfg, u, e.ready.value, i).w, e, i);
    }
  }

  lemma EventGoesOn(cfg: Config, w: Wait, s: Standing, i: Input)
    requires Looping(w) && StandsAt(w, s) && i.received.Got?
    ensures HandleEvent(cfg, w, i.received.event, i).Waiting? <==> GoesOn(i, s)
  {
    hide RequestPermission, Flush, AnswerLeavesOpen;
    var e := i.received.event;
    if e.PermissionRequest? {
      if i.statusOk {
        RequestGoesOn(cfg, w, s, e, i);
      }
    } else if e.SessionEnd? {
      SettlesAtOnce(cfg, w.(reason := e.terminal.reason, terminal := Some(e.terminal), ended := true), Cancelled, i.endOk);
    }
  }

  lemma PromptGoesOn(cfg: Config, w: Wait, s: Standing, i: Input)
    requires Looping(w) && StandsAt(w, s) && i.received.PromptReturned?
    ensures HandlePrompt(cfg, w, i.received.result, i).Waiting? <==> GoesOn(i, s)
  {
    hide Terminate, Flush;
    var u, r := w.(prompted := true), i.received.result;
    SettlesAtOnce(cfg, u, Cancelled, i.endOk);
    if r.PromptFailed? {
      SettlesAtOnce(cfg, u.(promptText := r.text), Cancelled, i.endOk);
      SettlesAtOnce(cfg, Stop(u.(promptText := r.text)), Cancelled, i.endOk);
    }
  }

  lemma HandleGoesOn(cfg: Config, w: Wait, s: Standing, i: Input)
    requires Looping(w) && StandsAt(w, s)
    ensures Handle(cfg, w, i).Waiting? <==> GoesOn(i, s)
  {
    hide HandleEvent, HandlePrompt, PermissionResult, Flush, Terminate;
    if i.received.Got? {
      hide GoesOn;
      EventGoesOn(cfg, w, s, i);
    } else if i.received.PromptReturned? {
      hide GoesOn;
      PromptGoesOn(cfg, w, s, i);
    } else if i.received.PermissionDone? {
      var u, r := w.(permission := false), i.received.resolved;
      if r.requestID != "" && !i.statusOk {
        StatusLost(cfg, u, r, i);
      } else {
        AnswerGoesOn(cfg, u, s, r, i);
      }
    } else {
      SignalFlow(cfg, w, i);
    }
  }

  /** A result whose status cannot be written ends the run. */
  lemma StatusLost(cfg: Config, w: Wait, r: Resolved, i: Input)
    requires r.requestID != "" && !i.statusOk
    ensures PermissionResult(cfg, w, r, i).Returned?
  {
    hide Flush, Terminate;
    SettlesAtOnce(cfg, w, Cancelled, i.endOk);
    SettlesAtOnce(cfg, Stop(w), Cancelled, i.endOk);
  }

  /** A run that waits goes on waiting after the next input exactly if that input settles
      nothing, given what was received before it. */
  lemma WaitsOn(cfg: Config, inputs: seq<Input>)
    requires inputs != [] && Run(cfg, Start(), inputs[..|inputs| - 1]).Waiting?
    ensures Run(cfg, Start(), inputs).Waiting? <==> GoesOn(inputs[|inputs| - 1], StandingAfter(inputs[..|inputs| - 1]))
  {
    hide Run, Handle, GoesOn;
    var w := LastInput(cfg, inputs);
    HandleGoesOn(cfg, w, StandingAfter(inputs[..|inputs| - 1]), inputs[|inputs| - 1]);
  }

  // ---- when a record is written

  /** A run that returns with any exit code but that of a plain failure has written its record. */
  lemma OutcomeRecorded(cfg: Config, inputs: seq<Input>)
    requires Run(cfg, Start(), inputs).Returned? && Run(cfg, Start(), inputs).result.exitCode != 1
    ensures |Run(cfg, Start(), inputs).w.ends| == 1
  {
    hide Handle, Run, Fits, StopReason, Looping;
    OneSessionEnd(cfg, inputs);
    var n := ReturnsAt(cfg, inputs);
    var w := LastInput(cfg, inputs[..n]);
    HandleFits(cfg, w, inputs[..n][n - 1]);
  }

  lemma TerminateWrites(cfg: Config, w: Wait, reason: Reason)
    requires Looping(w) && w.terminal.Some?
    ensures |Terminate(cfg, w, reason, true).w.ends| == 1
  {
    hide Flush;
    UnrecordedFails(cfg, Stop(w), true);
  }

  /** A session.end event, a signal, or a result of the prompt or of the resolver whose writes
      succeed. */
  predicate Writable(i: Input) {
    i.statusOk && i.endOk && (i.received.Got? ==> i.received.event.SessionEnd?)
  }

  lemma HandleWrites(cfg: Config, w: Wait, i: Input)
    requires Looping(w) && Writable(i) && (w.terminal.Some? || IsEnd(i)) && Handle(cfg, w, i).Returned?
    ensures |Handle(cfg, w, i).w.ends| == 1
  {
    hide Flush, Terminate;
    match i.received
    case Got(e) => UnrecordedFails(cfg, w.(reason := e.terminal.reason, terminal := Some(e.terminal), ended := true), true);
    case EventsClosed => UnrecordedFails(cfg, w.(eventsOpen := false), true);
    case PromptReturned(r) => PromptWrites(cfg, w, r, i);
    case PermissionDone(r) => AnswerWrites(cfg, w.(permission := false), r, i);
    case Interrupted => TerminateWrites(cfg, w, Cancelled);
    case ContextDone(d) => TerminateWrites(cfg, w, if d then TimedOut else Cancelled);
    case ProgressTimeout => TerminateWrites(cfg, w, ProgressTimedOut);
    case DeadlinePassed => TerminateWrites(cfg, w, TimedOut);
    case SettlementOver => UnrecordedFails(cfg, w, true);
  }

  lemma PromptWrites(cfg: Config, w: Wait, r: PromptResult, i: Input)
    requires Looping(w) && i.endOk && w.terminal.Some? && HandlePrompt(cfg, w, r, i).Returned?
    ensures |HandlePrompt(cfg, w, r, i).w.ends| == 1
  {
    hide Flush, Terminate;
    var u := w.(prompted := true);
    match r
    case PromptCancelled => TerminateWrites(cfg, u, Cancelled);
    case PromptOk => UnrecordedFails(cfg, u, true);
    case PromptFailed(text) => UnrecordedFails(cfg, Stop(u.(promptText := text)), true);
  }

  lemma AnswerWrites(cfg: Config, w: Wait, r: Resolved, i: Input)
    requires Looping(w) && i.statusOk && i.endOk && w.terminal.Some? && PermissionResult(cfg, w, r, i).Returned?
    ensures |PermissionResult(cfg, w, r, i).w.ends| == 1
  {
    hide Flush, Terminate;
    TerminateWrites(cfg, w, Cancelled);
    UnrecordedFails(cfg, Stop(w), true);
    UnrecordedFails(cfg, if r.kind == Reject then w.(denied := true) else w, true);
  }

  /** Once a session.end was received, whatever ends the run, but for a failure to handle another
      event, leaves exactly one record. */
  lemma EndIsRecorded(cfg: Config, inputs: seq<Input>)
    requires ReturnsLast(cfg, inputs) && LastEnd(inputs).Some? && Writable(inputs[|inputs| - 1])
    ensures |Run(cfg, Start(), inputs).w.ends| == 1
  {
    hide Run, Handle;
    var w := LastInput(cfg, inputs);
    HandleWrites(cfg, w, inputs[|inputs| - 1]);
  }
}
