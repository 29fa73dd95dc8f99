/** Every interleaving of permission resolvers (`resolvePermission` in
    `internal/cli/cli.go`), answers from clients, client connects and disconnects,
    direct deliveries, and claims removed from outside.  Each step is one critical
    section of the control server, one receive, or one call of the provider.

    A session runs one resolver per request ID at a time (`WaitForSession`), so the
    resolvers are a map from keys. */
module PermissionProtocol {
  import opened Common
  import opened PermissionClaims

  datatype Party = ByAuto | ByControl | ByFile | ByDirect

  /** One call of the provider's AnswerPermission on behalf of a claim. */
  datatype Call = Call(inst: nat, party: Party, answer: Answer)

  datatype Accepted = Accepted(inst: nat, answer: Answer)

  /** Where a resolver is.  `AwaitDirect` is a request that waits for the direct
      delivery number `delivery` of claim `inst` before it may prepare its own claim;
      `Publishing` has its claim and writes permission.request. */
  datatype Pc =
    | AwaitDirect(delivery: nat)
    | Publishing
    | AutoCall
    | AutoMark
    | Check
    | BeginControl
    | Waiting
    | HandOver(cancelled: bool)
    | Answering(answer: Answer)
    | ControlMark(answer: Answer)
    | FileStamp
    | FileCall
    | FileMark(resolution: Resolution)
    | NoneStamp
    | Ending

  datatype Resolver = Resolver(inst: nat, auto: bool, hasFile: bool, options: seq<OptionSpec>, pc: Pc)

  /** A direct delivery under way for claim `inst`; it finishes by key. */
  datatype Direct = Direct(key: Key, inst: nat, answer: Answer)

  /** `scans` counts disconnects that saw the last client leave and have not scanned
      yet.  The remaining fields are history: the options each claim was made with, the
      answers accepted as Delivered, the claims whose control ownership ended without
      an answer, the claims removed from outside, the provider calls, the claims that the
      completion of a delivery of another claim marked, those that such a completion put
      back, and the claims whose queued answer was discarded by a mark. */
  datatype Sys = Sys(
    server: Server,
    scans: nat,
    resolvers: map<Key, Resolver>,
    directs: map<nat, Direct>,
    options: map<nat, seq<OptionSpec>>,
    accepted: seq<Accepted>,
    handed: set<nat>,
    removed: set<nat>,
    calls: seq<Call>,
    overtaken: set<nat>,
    reopened: set<nat>,
    drained: set<nat>
  )

  function Init(): Sys {
    Sys(Server(map[], [], {}), 0, map[], map[], map[], [], {}, {}, [], {}, {}, {})
  }

  /** The steps of one resolver. */
  datatype Move =
    | Resume(sawClient: bool)
    | GiveUp
    | Published
    | PublishFailed
    | AutoAnswer(ok: bool)
    | Look
    | Enter
    | Receive
    | Cancelled
    | SawDisconnect
    | TimedOut
    | Give
    | ControlAnswer(ok: bool)
    | Stamp
    | FileAnswer(answer: Answer, ok: bool)
    | FileFailed
    | Finish

  datatype Step =
    | Connect(conn: nat)
    | Disconnect(conn: nat)
    | Scan
    | Request(k: Key, r: Resolver, sawClient: bool, afterDirect: bool)
    | IdleRequest(k: Key, options: seq<OptionSpec>)
    | Resolving(k: Key, move: Move)
    | ClientAnswer(k: Key, optionID: string, message: string, d: nat)
    | DirectAnswer(d: nat)
    | DirectDone(d: nat, ok: bool)
    | OutsideEnd(k: Key)
    | OutsideClear(scope: string)

  // ---- what the resolver decides

  /** The resolver a new request gets, from what is configured and connected. */
  function EffectiveState(auto: bool, sawClient: bool, hasFile: bool): ResolverState {
    if auto then Automatic else if sawClient then Reserved else if hasFile then File else NoResolver
  }

  function Fallback(r: Resolver): Pc {
    if r.hasFile then FileStamp else NoneStamp
  }

  function At(s: Sys, k: Key, pc: Pc): Sys
    requires k in s.resolvers
  {
    s.(resolvers := s.resolvers[k := s.resolvers[k].(pc := pc)])
  }

  function Leave(s: Sys, k: Key): Sys {
    s.(resolvers := s.resolvers - {k})
  }

  function Record(s: Sys, c: Call): Sys {
    s.(calls := s.calls + [c])
  }

  /** A prepared claim's resolver starts by publishing its request; one that cannot be
      prepared ends. */
  function TryPrepare(s: Sys, k: Key, r: Resolver, sawClient: bool): Sys
    requires WellFormed(s.server)
  {
    var (t, ok) := Prepare(s.server, k, EffectiveState(r.auto, sawClient, r.hasFile), Some(r.options));
    if !ok then Leave(s, k)
    else s.(server := t,
            options := s.options[|s.server.heap| := r.options],
            resolvers := s.resolvers[k := r.(inst := |s.server.heap|, pc := Publishing)])
  }

  function PrepareOrWait(s: Sys, k: Key, r: Resolver, sawClient: bool, afterDirect: bool): Sys
    requires WellFormed(s.server)
  {
    if afterDirect && DeliveryInFlight(s.server, k) then
      var i := s.server.table[k];
      s.(resolvers := s.resolvers[k := r.(inst := i, pc := AwaitDirect(s.server.heap[i].direct.made))])
    else TryPrepare(s, k, r, sawClient)
  }

  /** The channel that a waiting request holds is closed; an open one is never replaced. */
  predicate DoneClosed(c: Claim, delivery: nat) {
    c.direct.closed || c.direct.made != delivery
  }

  predicate CanMove(s: Sys, k: Key, m: Move) {
    k in s.resolvers &&
    var r := s.resolvers[k];
    r.inst < |s.server.heap| &&
    var c := s.server.heap[r.inst];
    match m
    case Resume(_) => r.pc.AwaitDirect? && DoneClosed(c, r.pc.delivery)
    case GiveUp => r.pc.AwaitDirect?
    case Published => r.pc.Publishing?
    case PublishFailed => r.pc.Publishing?
    case AutoAnswer(_) => r.pc.AutoCall?
    case Look => r.pc.Check?
    case Enter => r.pc.BeginControl?
    case Receive => r.pc.Waiting? && (c.answerCh.buf != [] || c.answerCh.closed)
    case Cancelled => r.pc.Waiting?
    case SawDisconnect => r.pc.Waiting? && c.disconnectCh.closed
    case TimedOut => r.pc.Waiting?
    case Give => r.pc.HandOver?
    case ControlAnswer(_) => r.pc.Answering?
    case Stamp => r.pc.FileStamp? || r.pc.NoneStamp?
    case FileAnswer(_, _) => r.pc.FileCall?
    case FileFailed => r.pc.FileCall?
    case Finish => r.pc.AutoMark? || r.pc.ControlMark? || r.pc.FileMark? || r.pc.Ending?
  }

  predicate Enabled(s: Sys, st: Step) {
    match st
    case Connect(c) => c !in s.server.conns
    case Disconnect(c) => c in s.server.conns
    case Scan => s.scans > 0
    case Request(k, _, _, _) => k !in s.resolvers && k.requestID != ""
    case IdleRequest(k, _) => k !in s.resolvers && k.requestID != ""
    case Resolving(k, m) => CanMove(s, k, m)
    case ClientAnswer(_, _, _, d) => d !in s.directs
    case DirectAnswer(d) => d in s.directs
    case DirectDone(d, _) => d in s.directs
    case OutsideEnd(_) => true
    case OutsideClear(_) => true
  }

  function Moved(s: Sys, k: Key, m: Move): Sys
    requires WellFormed(s.server) && CanMove(s, k, m)
  {
    var r := s.resolvers[k];
    match m
    case Resume(sawClient) =>
      if s.server.heap[r.inst].abandoned then Leave(s, k) else PrepareOrWait(s, k, r, sawClient, true)
    case GiveUp => Leave(s, k)
    case Published => At(s, k, if r.auto then AutoCall else Check)
    case PublishFailed => Remove(Leave(s, k), k)
    case AutoAnswer(ok) =>
      Record(At(s, k, if ok then AutoMark else Ending),
             Call(r.inst, ByAuto, Answer(k.requestID, AutoOption(r.options), "")))
    case Look =>
      At(s, k, if StateOf(s.server, k) == Reserved || (StateOf(s.server, k) == Unknown && s.server.conns != {})
               then BeginControl else Fallback(r))
    case Enter => EnterControl(s, k)
    case Receive => TakeAnswer(s, k)
    case Cancelled => At(s, k, HandOver(true))
    case SawDisconnect => At(s, k, HandOver(false))
    case TimedOut => At(s, k, HandOver(false))
    case Give => GiveUpControl(s, k)
    case ControlAnswer(ok) =>
      if KindOf(r.pc.answer.optionID, r.options) == OtherKind then At(s, k, Ending)
      else Record(At(s, k, if ok then ControlMark(r.pc.answer) else Ending), Call(r.inst, ByControl, r.pc.answer))
    case Stamp => Stamped(s, k)
    case FileAnswer(a, ok) =>
      Record(At(s, k, if ok then FileMark(Resolution("file", a.optionID, a.message)) else Ending),
             Call(r.inst, ByFile, a))
    case FileFailed => At(s, k, Ending)
    case Finish => Leave(s.(server := Finished(s.server, k, r), drained := s.drained + Discarded(s, k, !r.pc.Ending?)), k)
  }

  function Apply(s: Sys, st: Step): Sys
    requires WellFormed(s.server) && Enabled(s, st)
  {
    match st
    case Connect(c) => Connected(s, c)
    case Disconnect(c) => Disconnected(s, c)
    case Scan => s.(server := SignalAll(s.server), scans := s.scans - 1)
    case Request(k, r, sawClient, afterDirect) => PrepareOrWait(s, k, r, sawClient, afterDirect)
    case IdleRequest(k, options) => s.(server := Prepare(s.server, k, NoResolver, Some(options)).0)
    case Resolving(k, m) => Moved(s, k, m)
    case ClientAnswer(k, optionID, message, d) => ClientAnswered(s, k, optionID, message, d)
    case DirectAnswer(d) => Record(s, Call(s.directs[d].inst, ByDirect, s.directs[d].answer))
    case DirectDone(d, ok) => DirectFinished(s, d, ok)
    case OutsideEnd(k) => Remove(s, k)
    case OutsideClear(scope) => Cleared(s, scope)
  }

  function Connected(s: Sys, c: nat): Sys {
    s.(server := s.server.(conns := s.server.conns + {c}))
  }

  function Disconnected(s: Sys, c: nat): Sys {
    var rest := s.server.conns - {c};
    s.(server := s.server.(conns := rest), scans := if rest == {} then s.scans + 1 else s.scans)
  }

  function EnterControl(s: Sys, k: Key): Sys
    requires WellFormed(s.server) && k in s.resolvers
  {
    var (t, ok) := Begin(s.server, k);
    if !ok then At(s, k, Fallback(s.resolvers[k]))
    else s.(server := t, options := s.options[t.table[k] := s.resolvers[k].options],
            resolvers := s.resolvers[k := s.resolvers[k].(inst := t.table[k], pc := Waiting)])
  }

  /** A receive on the answer channel; a closed and empty channel gives the empty answer. */
  function TakeAnswer(s: Sys, k: Key): Sys
    requires k in s.resolvers && s.resolvers[k].inst < |s.server.heap|
  {
    var i := s.resolvers[k].inst;
    var c := s.server.heap[i];
    if c.answerCh.buf == [] then At(s, k, Answering(Answer("", "", "")))
    else At(s.(server := Update(s.server, i, c.(answerCh := c.answerCh.(buf := c.answerCh.buf[1..])))),
            k, Answering(c.answerCh.buf[0]))
  }

  /** The fallback claims the request for the file handler, or leaves it to direct delivery. */
  function Stamped(s: Sys, k: Key): Sys
    requires WellFormed(s.server) && k in s.resolvers
  {
    if s.resolvers[k].pc.FileStamp? then At(s.(server := SetState(s.server, k, File)), k, FileCall)
    else if k.scope == "" then Leave(s.(server := End(s.server, k)), k)
    else Leave(s.(server := SetState(s.server, k, NoResolver)), k)
  }

  /** How a resolver that is done answering leaves its claim. */
  function Finished(s: Server, k: Key, r: Resolver): Server
    requires WellFormed(s)
  {
    if r.pc.Ending? then End(s, k) else Mark(s, k, ResolutionOf(r)).0
  }

  function ResolutionOf(r: Resolver): Resolution {
    match r.pc
    case ControlMark(a) => Resolution("control", a.optionID, a.message)
    case FileMark(res) => res
    case _ => Resolution("avenor", AutoOption(r.options), "")
  }

  /** The first option that allows. */
  function AutoOption(options: seq<OptionSpec>): string {
    if options == [] then ""
    else if !options[0].Malformed? && options[0].kind == Allow then options[0].optionID
    else AutoOption(options[1..])
  }

  /** An answer of a client; in a scope other than "" a claim without resolver makes its
      caller the direct deliverer. */
  function ClientAnswered(s: Sys, k: Key, optionID: string, message: string, d: nat): Sys
    requires WellFormed(s.server)
  {
    var (t, delivery) := Deliver(s.server, k, optionID, message);
    var a := Answer(k.requestID, optionID, message);
    if delivery == Delivered then s.(server := t, accepted := s.accepted + [Accepted(s.server.table[k], a)])
    else if delivery == DeliverDirectly && k.scope != "" then
      s.(server := t, directs := s.directs[d := Direct(k, s.server.table[k], a)])
    else s.(server := t)
  }

  /** The claim whose queued answer a mark of `k` discards. */
  function Discarded(s: Sys, k: Key, marks: bool): set<nat>
    requires WellFormed(s.server)
  {
    if marks && k in s.server.table && s.server.heap[s.server.table[k]].answerCh.buf != [] then {s.server.table[k]} else {}
  }

  /** The completion of delivery `d` finds another claim than its own under its key. */
  predicate Late(s: Sys, d: nat) {
    d in s.directs && s.directs[d].key in s.server.table && s.server.table[s.directs[d].key] != s.directs[d].inst
  }

  /** The claim that a late success marks. */
  function Overtakes(s: Sys, d: nat, ok: bool): set<nat> {
    if Late(s, d) && ok then {s.server.table[s.directs[d].key]} else {}
  }

  /** The claim that a late failure puts back. */
  function Reopens(s: Sys, d: nat, ok: bool): set<nat>
    requires WellFormed(s.server)
  {
    if Late(s, d) && !ok && StateOf(s.server, s.directs[d].key) == DirectDelivery then {s.server.table[s.directs[d].key]} else {}
  }

  function DirectFinished(s: Sys, d: nat, ok: bool): Sys
    requires WellFormed(s.server) && d in s.directs
  {
    var e := s.directs[d];
    var t := if ok then Mark(s.server, e.key, Resolution("direct", e.answer.optionID, e.answer.message)).0
             else Retry(s.server, e.key).0;
    s.(server := t, directs := s.directs - {d}, overtaken := s.overtaken + Overtakes(s, d, ok),
       reopened := s.reopened + Reopens(s, d, ok), drained := s.drained + Discarded(s, e.key, ok))
  }

  function Remove(s: Sys, k: Key): Sys
    requires WellFormed(s.server)
  {
    if k !in s.server.table then s
    else s.(server := End(s.server, k), removed := s.removed + {s.server.table[k]})
  }

  function Cleared(s: Sys, scope: string): Sys
    requires WellFormed(s.server)
  {
    var gone := set i | 0 <= i < |s.server.heap| && Live(s.server, i) && s.server.heap[i].key.scope == scope;
    s.(server := Clear(s.server, scope), removed := s.removed + gone)
  }

  /** A disconnect, a timeout or a cancellation won the select. */
  function GiveUpControl(s: Sys, k: Key): Sys
    requires WellFormed(s.server) && k in s.resolvers && s.resolvers[k].pc.HandOver?
  {
    var r := s.resolvers[k];
    var held := UnderControl(StateOf(s.server, k));
    var (t, answer) := Handoff(s.server, k, NextOwner(r));
    if answer.Some? then At(s.(server := t), k, Answering(answer.value))
    else
      var u := s.(server := t, handed := if held then s.handed + {s.server.table[k]} else s.handed);
      if r.pc.cancelled then Leave(u, k) else At(u, k, Fallback(r))
  }

  function NextOwner(r: Resolver): ResolverState
    requires r.pc.HandOver?
  {
    if r.pc.cancelled then Resolved else if r.hasFile then File else NoResolver
  }

  // ---- runs

  ghost predicate IsRun(trace: seq<Sys>, steps: seq<Step>) {
    && |trace| == |steps| + 1
    && trace[0] == Init()
    && (forall n | 0 <= n < |steps| ::
          WellFormed(trace[n].server) && Enabled(trace[n], steps[n]) && trace[n + 1] == Apply(trace[n], steps[n]))
  }

  // ---- what holds in every run

  ghost predicate ClaimOk(c: Claim) {
    && !c.answerCh.fault
    && (c.answerCh.isNil <==> c.state == Resolved)
    && (c.answerCh.closed <==> c.state == Resolved)
    && (c.disconnectCh.isNil <==> c.state == Resolved)
    && |c.answerCh.buf| <= 1
    && (c.answerCh.buf != [] ==> c.answerQueued && c.state != Resolved)
    && !c.disconnectCh.fault && (c.disconnectCh.isNil ==> c.disconnectCh.closed)
    && !c.direct.fault && !c.direct.dropped && (c.direct.isNil <==> c.direct.closed)
    && (!c.direct.isNil ==> c.state == DirectDelivery)
  }

  ghost predicate ClaimsOk(s: Sys) {
    forall i | 0 <= i < |s.server.heap| :: ClaimOk(s.server.heap[i])
  }

  ghost predicate AcceptedOk(s: Sys) {
    && (forall n | 0 <= n < |s.accepted| ::
          var i := s.accepted[n].inst;
          i < |s.server.heap| && (s.server.heap[i].answerQueued || s.server.heap[i].state == Resolved))
    && (forall m, n | 0 <= m < n < |s.accepted| :: s.accepted[m].inst != s.accepted[n].inst)
  }

  ghost predicate Out(s: Sys, i: nat) {
    i < |s.server.heap| && !(Live(s.server, i) && UnderControl(s.server.heap[i].state))
  }

  ghost predicate HandedOk(s: Sys) {
    forall i <- s.handed :: Out(s, i)
  }

  /** No claim waits for a client when all clients are gone and every disconnect has
      been followed up. */
  ghost predicate NoneStranded(s: Sys) {
    s.server.conns == {} && s.scans == 0 ==>
      forall i | 0 <= i < |s.server.heap| && Live(s.server, i) && UnderControl(s.server.heap[i].state) ::
        s.server.heap[i].disconnectCh.closed
  }

  ghost predicate Sound(s: Sys) {
    WellFormed(s.server) && ClaimsOk(s) && AcceptedOk(s) && HandedOk(s) && NoneStranded(s)
  }

  /** What any operation may do to one claim. */
  ghost predicate Ages(c: Claim, d: Claim, marked: bool) {
    && d.key == c.key
    && ClaimOk(d)
    && (c.answerQueued || c.state == Resolved ==> d.answerQueued || d.state == Resolved)
    && (c.state == Resolved ==> d.state == Resolved && (marked || d.resolution == c.resolution))
    && (UnderControl(d.state) ==> UnderControl(c.state) && (c.disconnectCh.closed ==> d.disconnectCh.closed))
  }

  /** What any operation may do to the table, if it records a resolution only for the
      keys in `marked`: claims age, keys are dropped, or a key
      gets a new claim, in place of a resolved one if it had any. */
  ghost predicate Evolves(s: Server, t: Server, marked: set<Key>)
    requires WellFormed(s)
  {
    && t.conns == s.conns
    && |s.heap| <= |t.heap|
    && (forall i | 0 <= i < |s.heap| :: Ages(s.heap[i], t.heap[i], s.heap[i].key in marked))
    && (forall i | |s.heap| <= i < |t.heap| ::
          ClaimOk(t.heap[i]) && (s.conns == {} && UnderControl(t.heap[i].state) ==> t.heap[i].disconnectCh.closed))
    && (forall k <- t.table :: (k in s.table && t.table[k] == s.table[k]) || |s.heap| <= t.table[k])
    && (forall k <- t.table :: k in s.table && t.table[k] != s.table[k] ==> s.heap[s.table[k]].state == Resolved)
    && WellFormed(t)
  }

  lemma EvolvesSound(s: Sys, t: Sys, marked: set<Key>)
    requires Sound(s) && Evolves(s.server, t.server, marked) && HistorySame(s, t)
    ensures Sound(t)
  {
  }

  lemma SameEvolves(s: Sys)
    requires Sound(s)
    ensures Evolves(s.server, s.server, {})
  {
  }

  lemma UpdateEvolves(s: Server, i: nat, d: Claim)
    requires WellFormed(s) && i < |s.heap| && Ages(s.heap[i], d, false)
    requires forall j | 0 <= j < |s.heap| :: ClaimOk(s.heap[j])
    ensures Evolves(s, Update(s, i, d), {})
  {
  }

  lemma PrepareEvolves(s: Server, k: Key, st: ResolverState, options: Option<seq<OptionSpec>>)
    requires WellFormed(s) && forall j | 0 <= j < |s.heap| :: ClaimOk(s.heap[j])
    requires st in {Automatic, Reserved, File, NoResolver}
    ensures Evolves(s, Prepare(s, k, st, options).0, {})
  {
    var t := Prepare(s, k, st, options).0;
    assert t == s || t.heap[..|s.heap|] == s.heap;
    assert t == s || ClaimOk(t.heap[|s.heap|]);
  }

  lemma BeginEvolves(s: Server, k: Key)
    requires WellFormed(s) && forall j | 0 <= j < |s.heap| :: ClaimOk(s.heap[j])
    ensures Evolves(s, Begin(s, k).0, {})
  {
    var t := Begin(s, k).0;
    if k !in s.table {
      assert t.heap[..|s.heap|] == s.heap;
    } else if StateOf(s, k) == Reserved {
      assert Ages(s.heap[s.table[k]], t.heap[s.table[k]], false);
      UpdateEvolves(s, s.table[k], t.heap[s.table[k]]);
    } else {
      UpdateEvolves(s, s.table[k], s.heap[s.table[k]]);
      assert s.heap[s.table[k] := s.heap[s.table[k]]] == s.heap;
    }
  }

  lemma SetEvolves(s: Server, k: Key, st: ResolverState)
    requires WellFormed(s) && forall j | 0 <= j < |s.heap| :: ClaimOk(s.heap[j])
    requires st == File || st == NoResolver
    ensures Evolves(s, SetState(s, k, st), {})
  {
  }

  lemma MarkEvolves(s: Server, k: Key, res: Resolution)
    requires WellFormed(s) && forall j | 0 <= j < |s.heap| :: ClaimOk(s.heap[j])
    ensures Evolves(s, Mark(s, k, res).0, {k})
  {
  }

  lemma RetryEvolves(s: Server, k: Key)
    requires WellFormed(s) && forall j | 0 <= j < |s.heap| :: ClaimOk(s.heap[j])
    ensures Evolves(s, Retry(s, k).0, {})
  {
  }

  lemma EndEvolves(s: Server, k: Key)
    requires WellFormed(s) && forall j | 0 <= j < |s.heap| :: ClaimOk(s.heap[j])
    ensures Evolves(s, End(s, k), {})
  {
  }

  lemma ClearEvolves(s: Server, scope: string)
    requires WellFormed(s) && forall j | 0 <= j < |s.heap| :: ClaimOk(s.heap[j])
    ensures Evolves(s, Clear(s, scope), {})
  {
  }

  lemma HandoffEvolves(s: Server, k: Key, next: ResolverState)
    requires WellFormed(s) && forall j | 0 <= j < |s.heap| :: ClaimOk(s.heap[j])
    requires next == File || next == NoResolver || next == Resolved
    ensures Evolves(s, Handoff(s, k, next).0, {})
  {
  }

  lemma DeliverEvolves(s: Server, k: Key, optionID: string, message: string)
    requires WellFormed(s) && forall j | 0 <= j < |s.heap| :: ClaimOk(s.heap[j])
    ensures Evolves(s, Deliver(s, k, optionID, message).0, {})
  {
    if k in s.table {
      var c := Deliver(s, k, optionID, message).0.heap[s.table[k]];
      DeliverAges(s, k, optionID, message);
      UpdateEvolves(s, s.table[k], c);
      hide Deliver, Ages, Evolves;
    }
  }

  lemma DeliverAges(s: Server, k: Key, optionID: string, message: string)
    requires WellFormed(s) && k in s.table && ClaimOk(s.heap[s.table[k]])
    ensures var t := Deliver(s, k, optionID, message).0;
      |t.heap| == |s.heap| && t == Update(s, s.table[k], t.heap[s.table[k]]) && Ages(s.heap[s.table[k]], t.heap[s.table[k]], false)
  {
    assert s.heap[s.table[k] := s.heap[s.table[k]]] == s.heap;
  }

  ghost predicate HistorySame(s: Sys, t: Sys) {
    t.scans == s.scans && t.accepted == s.accepted && t.handed == s.handed
  }

  /** A step that records a resolution on the claim the table has for `k`. */
  predicate Marks(s: Sys, st: Step, k: Key)
    requires Enabled(s, st)
  {
    (st.Resolving? && st.k == k && st.move == Finish && !s.resolvers[k].pc.Ending?) ||
    (st.DirectDone? && st.ok && s.directs[st.d].key == k)
  }

  function MarkedBy(s: Sys, st: Step): set<Key>
    requires Enabled(s, st)
  {
    if st.Resolving? then (if Marks(s, st, st.k) then {st.k} else {})
    else if st.DirectDone? && st.ok then {s.directs[st.d].key} else {}
  }

  /** Every step changes the server as some operation does, apart from clients coming and going. */
  lemma StepEvolves(s: Sys, st: Step)
    requires Sound(s) && Enabled(s, st) && !st.Connect? && !st.Disconnect?
    ensures Evolves(s.server, Apply(s, st).server, MarkedBy(s, st))
  {
    match st
    case Scan => ScanEvolves(s.server);
    case Request(k, r, sawClient, afterDirect) => PrepareOrWaitEvolves(s, k, r, sawClient, afterDirect);
    case IdleRequest(k, options) => PrepareEvolves(s.server, k, NoResolver, Some(options));
    case Resolving(k, m) => MoveEvolves(s, k, m);
    case ClientAnswer(k, optionID, message, d) => DeliverEvolves(s.server, k, optionID, message);
    case DirectAnswer(d) => SameEvolves(s);
    case DirectDone(d, ok) => DirectFinishEvolves(s, d, ok);
    case OutsideEnd(k) => SameEvolves(s); EndEvolves(s.server, k);
    case OutsideClear(scope) => ClearEvolves(s.server, scope);
  }

  lemma ScanEvolves(s: Server)
    requires WellFormed(s) && forall j | 0 <= j < |s.heap| :: ClaimOk(s.heap[j])
    ensures Evolves(s, SignalAll(s), {})
  {
  }

  lemma MoveEvolves(s: Sys, k: Key, m: Move)
    requires Sound(s) && CanMove(s, k, m)
    ensures Evolves(s.server, Moved(s, k, m).server, if Marks(s, Resolving(k, m), k) then {k} else {})
  {
    hide Evolves, PrepareOrWait, Stamped, Finished, TakeAnswer;
    match m
    case Resume(sawClient) =>
      SameEvolves(s);
      PrepareOrWaitEvolves(s, k, s.resolvers[k], sawClient, true);
    case PublishFailed => EndEvolves(s.server, k);
    case Enter => BeginEvolves(s.server, k);
    case Receive => ReceiveEvolves(s, k);
    case Give => HandoffEvolves(s.server, k, NextOwner(s.resolvers[k]));
    case Stamp => StampEvolves(s, k);
    case Finish => FinishEvolves(s, k);
    case _ => SameEvolves(s);
  }

  lemma PrepareOrWaitEvolves(s: Sys, k: Key, r: Resolver, sawClient: bool, afterDirect: bool)
    requires Sound(s)
    ensures Evolves(s.server, PrepareOrWait(s, k, r, sawClient, afterDirect).server, {})
  {
    SameEvolves(s);
    PrepareEvolves(s.server, k, EffectiveState(r.auto, sawClient, r.hasFile), Some(r.options));
  }

  lemma StampEvolves(s: Sys, k: Key)
    requires Sound(s) && k in s.resolvers
    ensures Evolves(s.server, Stamped(s, k).server, {})
  {
    if s.resolvers[k].pc.FileStamp? {
      SetEvolves(s.server, k, File);
    } else if k.scope == "" {
      EndEvolves(s.server, k);
    } else {
      SetEvolves(s.server, k, NoResolver);
    }
  }

  lemma ReceiveEvolves(s: Sys, k: Key)
    requires Sound(s) && k in s.resolvers && s.resolvers[k].inst < |s.server.heap|
    ensures Evolves(s.server, TakeAnswer(s, k).server, {})
  {
    SameEvolves(s);
    var i := s.resolvers[k].inst;
    var c := s.server.heap[i];
    if c.answerCh.buf != [] {
      UpdateEvolves(s.server, i, c.(answerCh := c.answerCh.(buf := c.answerCh.buf[1..])));
    }
  }

  lemma FinishEvolves(s: Sys, k: Key)
    requires Sound(s) && k in s.resolvers
    ensures Evolves(s.server, Finished(s.server, k, s.resolvers[k]), if s.resolvers[k].pc.Ending? then {} else {k})
  {
    EndEvolves(s.server, k);
    MarkEvolves(s.server, k, ResolutionOf(s.resolvers[k]));
  }

  lemma DirectFinishEvolves(s: Sys, d: nat, ok: bool)
    requires Sound(s) && d in s.directs
    ensures Evolves(s.server, DirectFinished(s, d, ok).server, if ok then {s.directs[d].key} else {})
  {
    var e := s.directs[d];
    MarkEvolves(s.server, e.key, Resolution("direct", e.answer.optionID, e.answer.message));
    RetryEvolves(s.server, e.key);
  }

  lemma HistoryKept(s: Sys, st: Step)
    requires WellFormed(s.server) && Enabled(s, st)
    requires st.Request? || st.IdleRequest? || (st.Resolving? && st.move != Give) ||
             st.DirectAnswer? || st.DirectDone? || st.OutsideEnd? || st.OutsideClear?
    ensures HistorySame(s, Apply(s, st))
  {
    if st.Resolving? {
      MoveHistory(s, st.k, st.move);
    }
  }

  lemma MoveHistory(s: Sys, k: Key, m: Move)
    requires WellFormed(s.server) && CanMove(s, k, m) && m != Give
    ensures HistorySame(s, Moved(s, k, m))
  {
    hide Mark, Prepare, Handoff, Begin, End, SetState, KindOf, AutoOption, Discarded;
  }

  lemma SoundStep(s: Sys, st: Step)
    requires Sound(s) && Enabled(s, st)
    ensures Sound(Apply(s, st))
  {
    if st.Connect? {
      ConnectSound(s, st.conn);
    } else if st.Disconnect? {
      DisconnectSound(s, st.conn);
    } else if st.Scan? {
      ScanSound(s);
    } else if st.ClientAnswer? {
      ClientAnswerSound(s, st.k, st.optionID, st.message, st.d);
    } else if st.Resolving? && st.move == Give {
      GiveSound(s, st.k);
    } else {
      StepEvolves(s, st);
      HistoryKept(s, st);
      EvolvesSound(s, Apply(s, st), MarkedBy(s, st));
    }
  }

  lemma ConnectSound(s: Sys, c: nat)
    requires Sound(s)
    ensures Sound(Connected(s, c))
  {
    assert Connected(s, c).server.conns != {} by { assert c in Connected(s, c).server.conns; }
  }

  lemma DisconnectSound(s: Sys, c: nat)
    requires Sound(s) && c in s.server.conns
    ensures Sound(Disconnected(s, c))
  {
  }

  lemma ScanSound(s: Sys)
    requires Sound(s) && s.scans > 0
    ensures Sound(s.(server := SignalAll(s.server), scans := s.scans - 1))
  {
  }

  lemma GiveSound(s: Sys, k: Key)
    requires Sound(s) && k in s.resolvers && s.resolvers[k].pc.HandOver?
    ensures Sound(GiveUpControl(s, k))
  {
    var t := GiveUpControl(s, k);
    HandoffEvolves(s.server, k, NextOwner(s.resolvers[k]));
    EvolvesSound(s, t.(handed := s.handed), {});
    HandedStays(s, k);
  }

  lemma HandedStays(s: Sys, k: Key)
    requires Sound(s) && k in s.resolvers && s.resolvers[k].pc.HandOver?
    requires Sound(GiveUpControl(s, k).(handed := s.handed))
    ensures HandedOk(GiveUpControl(s, k))
  {
    HandoffOut(s.server, k, NextOwner(s.resolvers[k]));
    hide Handoff, ClaimsOk, AcceptedOk, NoneStranded;
  }

  /** A claim that was handed off is out of the table or no longer under control. */
  lemma HandoffOut(s: Server, k: Key, next: ResolverState)
    requires WellFormed(s) && (next == File || next == NoResolver || next == Resolved)
    ensures var (t, answer) := Handoff(s, k, next);
      UnderControl(StateOf(s, k)) && answer.None? ==> s.table[k] < |t.heap| && !(Live(t, s.table[k]) && UnderControl(t.heap[s.table[k]].state))
  {
  }

  lemma ClientAnswerSound(s: Sys, k: Key, optionID: string, message: string, d: nat)
    requires Sound(s)
    ensures Sound(ClientAnswered(s, k, optionID, message, d))
  {
    var t := ClientAnswered(s, k, optionID, message, d);
    DeliverEvolves(s.server, k, optionID, message);
    EvolvesSound(s, t.(accepted := s.accepted), {});
    AcceptedStays(s, k, optionID, message, d);
  }

  lemma AcceptedStays(s: Sys, k: Key, optionID: string, message: string, d: nat)
    requires WellFormed(s.server) && AcceptedOk(s)
    requires AcceptedOk(ClientAnswered(s, k, optionID, message, d).(accepted := s.accepted))
    ensures AcceptedOk(ClientAnswered(s, k, optionID, message, d))
  {
    if Deliver(s.server, k, optionID, message).1 == Delivered {
      var i := s.server.table[k];
      var t := ClientAnswered(s, k, optionID, message, d);
      assert !s.server.heap[i].answerQueued && s.server.heap[i].state != Resolved;
      assert forall n | 0 <= n < |s.accepted| :: s.accepted[n].inst != i;
      assert t.server.heap[i].answerQueued;
    }
  }

  // ---- theorems about every run

  /** The step from one state of a run to the next. */
  lemma RunStep(trace: seq<Sys>, steps: seq<Step>, n: nat)
    requires IsRun(trace, steps) && n < |steps|
    ensures WellFormed(trace[n].server) && Enabled(trace[n], steps[n]) && trace[n + 1] == Apply(trace[n], steps[n])
  {
    hide Apply;
  }

  lemma LengthOf(trace: seq<Sys>, steps: seq<Step>)
    requires IsRun(trace, steps)
    ensures |trace| == |steps| + 1
  {
    hide Apply;
  }

  lemma {:induction false} RunSound(trace: seq<Sys>, steps: seq<Step>, n: nat)
    requires IsRun(trace, steps) && n < |trace|
    ensures Sound(trace[n])
    decreases n
  {
    if n > 0 {
      RunSound(trace, steps, n - 1);
      SoundStep(trace[n - 1], steps[n - 1]);
    }
  }

  /** No claim, over its whole life, has two answers accepted as Delivered. */
  lemma AtMostOneAccepted(trace: seq<Sys>, steps: seq<Step>, n: nat, a: nat, b: nat)
    requires IsRun(trace, steps) && n < |trace|
    requires a < b < |trace[n].accepted|
    ensures trace[n].accepted[a].inst != trace[n].accepted[b].inst
  {
    RunSound(trace, steps, n);
  }

  /** No channel of a claim is ever closed twice or sent on after its close, and no completion
      channel is replaced while it is open. */
  lemma ChannelsNeverFault(trace: seq<Sys>, steps: seq<Step>, n: nat, i: nat)
    requires IsRun(trace, steps) && n < |trace| && i < |trace[n].server.heap|
    ensures var c := trace[n].server.heap[i];
      !c.answerCh.fault && !c.disconnectCh.fault && !c.direct.fault && !c.direct.dropped
  {
    RunSound(trace, steps, n);
    assert ClaimOk(trace[n].server.heap[i]);
  }

  /** Once all clients are gone and every disconnect is followed up, a resolver that
      waits on a claim still in the table can always take its disconnect branch. */
  lemma NoRequestWaitsForGoneClient(trace: seq<Sys>, steps: seq<Step>, n: nat, i: nat)
    requires IsRun(trace, steps) && n < |trace| && i < |trace[n].server.heap|
    requires trace[n].server.conns == {} && trace[n].scans == 0
    requires Live(trace[n].server, i) && UnderControl(trace[n].server.heap[i].state)
    ensures trace[n].server.heap[i].disconnectCh.closed
    ensures forall k <- trace[n].resolvers | trace[n].resolvers[k].inst == i && trace[n].resolvers[k].pc.Waiting? ::
              CanMove(trace[n], k, SawDisconnect)
  {
    RunSound(trace, steps, n);
  }

  /** The accepted answers and the handed-off claims only grow, and what is accepted
      anew is for a claim that was not handed off. */
  ghost predicate Grows(s: Sys, t: Sys) {
    && s.accepted <= t.accepted
    && s.handed <= t.handed
    && forall p | |s.accepted| <= p < |t.accepted| :: t.accepted[p].inst !in s.handed
  }

  lemma GrowsTransitive(s: Sys, t: Sys, u: Sys)
    requires Grows(s, t) && Grows(t, u)
    ensures Grows(s, u)
  {
  }

  lemma GrowsSame(s: Sys)
    ensures Grows(s, s)
  {
  }

  lemma StepGrows(s: Sys, st: Step)
    requires Sound(s) && Enabled(s, st)
    ensures Grows(s, Apply(s, st))
  {
    hide Moved, Prepare, PrepareOrWait, Mark, Retry, Clear, SignalAll, ClaimsOk, NoneStranded, Overtakes, Reopens, Discarded;
    if st.Resolving? && st.move != Give {
      MoveHistory(s, st.k, st.move);
    } else if st.Resolving? {
      GiveHistory(s, st.k);
    } else if st.Request? {
      HistoryKept(s, st);
    }
  }

  lemma GiveHistory(s: Sys, k: Key)
    requires WellFormed(s.server) && CanMove(s, k, Give)
    ensures Moved(s, k, Give).accepted == s.accepted && s.handed <= Moved(s, k, Give).handed
  {
    hide Handoff;
  }

  lemma {:induction false} RunGrows(trace: seq<Sys>, steps: seq<Step>, m: nat, n: nat)
    requires IsRun(trace, steps) && m <= n < |trace|
    ensures Grows(trace[m], trace[n])
    decreases n
  {
    hide *;
    LengthOf(trace, steps);
    if m < n {
      RunGrows(trace, steps, m, n - 1);
      RunSound(trace, steps, n - 1);
      RunStep(trace, steps, n - 1);
      StepGrows(trace[n - 1], steps[n - 1]);
      GrowsTransitive(trace[m], trace[n - 1], trace[n]);
    } else {
      GrowsSame(trace[n]);
    }
  }

  /** Once a handoff has found no answer, no later answer is accepted for that claim. */
  lemma HandoffClosesControl(trace: seq<Sys>, steps: seq<Step>, m: nat, n: nat, p: nat)
    requires IsRun(trace, steps) && m <= n < |trace|
    requires |trace[m].accepted| <= p < |trace[n].accepted|
    ensures trace[n].accepted[p].inst !in trace[m].handed
  {
    RunGrows(trace, steps, m, n);
  }

  /** A key's claim is replaced by another only once it is resolved. */
  lemma ReplacedOnlyWhenResolved(trace: seq<Sys>, steps: seq<Step>, n: nat, k: Key)
    requires IsRun(trace, steps) && n < |steps|
    requires k in trace[n].server.table && k in trace[n + 1].server.table
    requires trace[n].server.table[k] != trace[n + 1].server.table[k]
    ensures StateOf(trace[n].server, k) == Resolved
  {
    RunSound(trace, steps, n);
    RunSound(trace, steps, n + 1);
    if !steps[n].Connect? && !steps[n].Disconnect? {
      StepEvolves(trace[n], steps[n]);
    }
  }

  ghost predicate Settled(s: Sys, i: nat, k: Key, r: Resolution) {
    i < |s.server.heap| && s.server.heap[i].key == k &&
    s.server.heap[i].state == Resolved && s.server.heap[i].resolution == r
  }

  /** A resolved claim stays resolved, with the resolution last recorded on its key,
      through every stamp, handoff, retry, disconnect or removal. */
  lemma {:induction false} ResolutionSurvives(
    trace: seq<Sys>, steps: seq<Step>, m: nat, n: nat, i: nat, k: Key, r: Resolution)
    requires IsRun(trace, steps) && m <= n < |trace|
    requires Settled(trace[m], i, k, r)
    requires forall p | m <= p < n :: Enabled(trace[p], steps[p]) && !Marks(trace[p], steps[p], k)
    ensures Settled(trace[n], i, k, r)
    decreases n
  {
    if m < n {
      ResolutionSurvives(trace, steps, m, n - 1, i, k, r);
      RunSound(trace, steps, n - 1);
      StaysSettled(trace[n - 1], steps[n - 1], i, k, r);
    }
  }

  lemma StaysSettled(s: Sys, st: Step, i: nat, k: Key, r: Resolution)
    requires Sound(s) && Enabled(s, st) && Settled(s, i, k, r) && !Marks(s, st, k)
    ensures Settled(Apply(s, st), i, k, r)
  {
    if !st.Connect? && !st.Disconnect? {
      StepEvolves(s, st);
      assert k !in MarkedBy(s, st);
      assert Ages(s.server.heap[i], Apply(s, st).server.heap[i], false);
    }
  }

  /** In every run, from the moment a claim is resolved until a mark or the removal of the claim,
      every answer for its key is told that it is the same exactly if it repeats the recorded
      non-empty option and message, and changes nothing. */
  lemma {:induction false} RepeatsAnsweredSame(
    trace: seq<Sys>, steps: seq<Step>, m: nat, n: nat, i: nat, k: Key, r: Resolution, optionID: string, message: string, d: nat)
    requires IsRun(trace, steps) && m <= n < |steps| && Settled(trace[m], i, k, r)
    requires forall p | m <= p < n :: Enabled(trace[p], steps[p]) && !Marks(trace[p], steps[p], k)
    requires k in trace[n].server.table && trace[n].server.table[k] == i && steps[n] == ClientAnswer(k, optionID, message, d)
    ensures WellFormed(trace[n].server) && trace[n + 1] == trace[n]
    ensures Deliver(trace[n].server, k, optionID, message).1 ==
      if optionID != "" && optionID == r.optionID && message == r.message then AlreadyResolvedSame else AlreadyResolved
  {
    LengthOf(trace, steps);
    ResolutionSurvives(trace, steps, m, n, i, k, r);
    RunStep(trace, steps, n);
    hide IsRun;
    RepeatsOfResolution(trace[n].server, k, optionID, message);
    hide Deliver;
  }

  /** A resolved claim tells a repeat of its non-empty option and message, and nothing
      else, that it is the same answer; and no answer changes it. */
  lemma RepeatsOfResolution(s: Server, k: Key, optionID: string, message: string)
    requires WellFormed(s) && StateOf(s, k) == Resolved
    ensures Deliver(s, k, optionID, message).0 == s
    ensures var r := s.heap[s.table[k]].resolution;
      Deliver(s, k, optionID, message).1 ==
        if optionID != "" && optionID == r.optionID && message == r.message then AlreadyResolvedSame else AlreadyResolved
  {
  }
}
