/** Who holds a permission request, in every run: the place of a resolver in its code and the
    state of its claim fit together, and at most one party has the right to answer the
    provider for a claim.

    Deliveries are completed by key and not by claim.  A completion that finds another claim
    than its own under its key strikes that claim; what follows says exactly which promises
    a struck claim loses. */
module PermissionExclusion {
  import opened Common
  import opened PermissionClaims
  import opened PermissionProtocol

  // ---- the invariant, key by key

  /** Nobody with a resolver of their own is in charge. */
  predicate Free(st: ResolverState) {
    st == NoResolver || st == DirectDelivery || st == Resolved
  }

  /** A client may have been told to deliver directly. */
  predicate Opened(st: ResolverState) {
    st == NoResolver || st == DirectDelivery
  }

  predicate BeforeControl(r: Resolver, st: ResolverState) {
    st == Reserved || (if r.hasFile then st == File else Free(st))
  }

  /** The state of a claim is the one its resolver's place in the code calls for. */
  predicate InPlace(r: Resolver, c: Claim) {
    match r.pc
    case AwaitDirect(_) => true
    case Publishing => if r.auto then c.state == Automatic else BeforeControl(r, c.state)
    case AutoCall => c.state == Automatic
    case AutoMark => c.state == Automatic
    case Check => BeforeControl(r, c.state)
    case BeginControl => c.state == Reserved
    case Waiting => c.state == Control
    case HandOver(_) => c.state == Control
    case Answering(_) => Answered(c)
    case ControlMark(_) => Answered(c)
    case FileStamp => c.state == File
    case FileCall => c.state == File
    case FileMark(_) => c.state == File
    case NoneStamp => Free(c.state)
    case Ending => c.state == Automatic || c.state == File || Answered(c)
  }

  /** The one answer of the claim was taken from its channel. */
  predicate Answered(c: Claim) {
    c.state == Control && c.answerQueued && c.answerCh.buf == []
  }

  /** The place is one this resolver can come to. */
  predicate Fits(r: Resolver) {
    && (r.auto ==> r.pc.AwaitDirect? || r.pc.Publishing? || r.pc.AutoCall? || r.pc.AutoMark? || r.pc.Ending?)
    && (r.pc.AutoCall? ==> r.auto)
    && (r.pc.NoneStamp? ==> !r.hasFile)
    && (r.pc.FileStamp? || r.pc.FileCall? || r.pc.FileMark? ==> r.hasFile)
  }

  /** A resolver that leaves room for direct deliveries of its claim. */
  predicate MakesRoom(r: Resolver) {
    !r.hasFile && !r.auto && (r.pc.Publishing? || r.pc.Check? || r.pc.BeginControl? || r.pc.NoneStamp?)
  }

  /** The claim was resolved by a completion of another claim's delivery. */
  ghost predicate Overtaken(s: Sys, i: nat)
    requires i < |s.server.heap|
  {
    i in s.overtaken && s.server.heap[i].state == Resolved
  }

  /** A resolver has its claim in the table, in place unless overtaken, or it lost the claim to
      a removal from outside. */
  ghost predicate Charged(s: Sys, k: Key, r: Resolver)
    requires r.inst < |s.server.heap|
  {
    && Fits(r)
    && r.inst in s.options && s.options[r.inst] == r.options
    && (if k in s.server.table
        then s.server.table[k] == r.inst && (InPlace(r, s.server.heap[r.inst]) || Overtaken(s, r.inst))
        else r.inst in s.removed)
    && (Opened(s.server.heap[r.inst].state) ==> MakesRoom(r))
  }

  ghost predicate ResolverOk(s: Sys, k: Key)
    requires k in s.resolvers
  {
    var r := s.resolvers[k];
    && r.inst < |s.server.heap| && s.server.heap[r.inst].key == k
    && (!r.pc.AwaitDirect? ==> Charged(s, k, r))
    && (!r.pc.AwaitDirect? ==> forall d <- s.directs | s.directs[d].inst == r.inst :: MakesRoom(r))
  }

  ghost predicate DirectOk(s: Sys, e: Direct) {
    && e.key.scope != "" && e.inst < |s.server.heap| && s.server.heap[e.inst].key == e.key
    && Free(s.server.heap[e.inst].state)
    && (e.inst !in s.reopened ==>
          if Live(s.server, e.inst) then s.server.heap[e.inst].state == DirectDelivery || Overtaken(s, e.inst)
          else s.server.heap[e.inst].abandoned || e.inst in s.overtaken)
  }

  /** Each delivery has its claim, and a claim that was not put back has one delivery. */
  ghost predicate DirectsOk(s: Sys, k: Key) {
    && (forall d <- s.directs | s.directs[d].key == k :: DirectOk(s, s.directs[d]))
    && (forall d, e | d in s.directs && e in s.directs && s.directs[d].key == k ::
          s.directs[d].inst == s.directs[e].inst && s.directs[d].inst !in s.reopened ==> d == e)
  }

  /** A claim that a resolver is in charge of has that resolver; one under direct delivery has
      an open completion channel. */
  ghost predicate TableOk(s: Sys, k: Key)
    requires WellFormed(s.server)
  {
    k in s.server.table ==>
      && (!Free(StateOf(s.server, k)) ==>
            k in s.resolvers && s.resolvers[k].inst == s.server.table[k] && !s.resolvers[k].pc.AwaitDirect?)
      && (StateOf(s.server, k) == DirectDelivery ==> !s.server.heap[s.server.table[k]].direct.isNil)
  }

  ghost predicate Places(s: Sys, k: Key)
    requires WellFormed(s.server)
  {
    (k in s.resolvers ==> ResolverOk(s, k)) && DirectsOk(s, k) && TableOk(s, k)
  }

  ghost predicate Placed(s: Sys) {
    Sound(s) && forall k: Key :: Places(s, k)
  }

  // ---- what a step leaves alone

  /** Claim `i` is one of key `k`. */
  predicate Of(s: Server, i: nat, k: Key) {
    i < |s.heap| && s.heap[i].key == k
  }

  /** The claims of `k` are the same but for their disconnect signals. */
  ghost predicate SameClaims(s: Server, t: Server, k: Key) {
    && |s.heap| <= |t.heap|
    && (forall i | 0 <= i < |s.heap| :: t.heap[i].key == s.heap[i].key)
    && (forall i | 0 <= i < |s.heap| && s.heap[i].key == k :: t.heap[i] == s.heap[i].(disconnectCh := t.heap[i].disconnectCh))
    && (forall i | |s.heap| <= i < |t.heap| :: t.heap[i].key != k)
    && (k in t.table <==> k in s.table) && (k in s.table ==> t.table[k] == s.table[k])
  }

  /** Everything of `k` is the same. */
  ghost predicate SameFor(s: Sys, t: Sys, k: Key) {
    && SameClaims(s.server, t.server, k)
    && (k in t.resolvers <==> k in s.resolvers) && (k in s.resolvers ==> t.resolvers[k] == s.resolvers[k])
    && (forall d <- s.directs | s.directs[d].key == k :: d in t.directs && t.directs[d] == s.directs[d])
    && (forall d <- t.directs | t.directs[d].key == k :: d in s.directs && t.directs[d] == s.directs[d])
    && (forall i <- s.options | Of(s.server, i, k) :: i in t.options && t.options[i] == s.options[i])
    && (forall e <- s.accepted :: e in t.accepted)
    && (forall e <- t.accepted | Of(t.server, e.inst, k) :: e in s.accepted)
    && s.removed <= t.removed
    && (forall c <- s.calls :: c in t.calls)
    && (forall c <- t.calls | Of(t.server, c.inst, k) :: c in s.calls)
    && (forall i | Of(s.server, i, k) ::
          && (i in t.overtaken <==> i in s.overtaken) && (i in t.reopened <==> i in s.reopened)
          && (i in t.drained <==> i in s.drained))
  }

  /** Deliveries are of claims of their key. */
  ghost predicate Known(s: Sys) {
    forall d <- s.directs :: Of(s.server, s.directs[d].inst, s.directs[d].key)
  }

  lemma SamePlaces(s: Sys, t: Sys, k: Key)
    requires WellFormed(s.server) && WellFormed(t.server) && Places(s, k) && SameFor(s, t, k)
    requires Known(t)
    ensures Places(t, k)
  {
    hide InPlace, Fits, MakesRoom, Free, Opened;
    SameDirects(s, t, k);
    if k in s.resolvers {
      SameResolver(s, t, k);
    }
  }

  lemma SameDirects(s: Sys, t: Sys, k: Key)
    requires WellFormed(s.server) && WellFormed(t.server) && DirectsOk(s, k) && SameFor(s, t, k)
    requires Known(t)
    ensures DirectsOk(t, k)
  {
    hide Free;
    forall d <- t.directs | t.directs[d].key == k
      ensures DirectOk(t, t.directs[d])
    {
      assert DirectOk(s, s.directs[d]);
    }
  }

  lemma SameResolver(s: Sys, t: Sys, k: Key)
    requires WellFormed(s.server) && WellFormed(t.server) && Places(s, k) && SameFor(s, t, k) && k in s.resolvers
    requires Known(t)
    ensures ResolverOk(t, k)
  {
    hide Fits, MakesRoom, Free, Opened;
    var r := s.resolvers[k];
    InPlaceIgnoresSignals(r, s.server.heap[r.inst], t.server.heap[r.inst]);
  }

  lemma InPlaceIgnoresSignals(r: Resolver, c: Claim, d: Claim)
    requires d == c.(disconnectCh := d.disconnectCh)
    ensures InPlace(r, d) <==> InPlace(r, c)
  {
  }

  /** The keys that a step is about. */
  predicate Concerns(s: Sys, st: Step, k: Key)
    requires Enabled(s, st)
  {
    match st
    case Request(j, _, _, _) => j == k
    case IdleRequest(j, _) => j == k
    case Resolving(j, _) => j == k
    case ClientAnswer(j, _, _, _) => j == k
    case DirectAnswer(d) => s.directs[d].key == k
    case DirectDone(d, _) => s.directs[d].key == k
    case OutsideEnd(j) => j == k
    case OutsideClear(scope) => scope == k.scope
    case _ => false
  }

  lemma UpdateElsewhere(s: Server, i: nat, c: Claim, k: Key)
    requires WellFormed(s) && i < |s.heap| && c.key == s.heap[i].key != k
    ensures SameClaims(s, Update(s, i, c), k)
  {
  }

  lemma PrepareElsewhere(s: Server, j: Key, st: ResolverState, options: Option<seq<OptionSpec>>, k: Key)
    requires WellFormed(s) && j != k
    ensures SameClaims(s, Prepare(s, j, st, options).0, k)
  {
    var t := Prepare(s, j, st, options).0;
    assert t == s || t.heap[..|s.heap|] == s.heap;
  }

  lemma BeginElsewhere(s: Server, j: Key, k: Key)
    requires WellFormed(s) && j != k
    ensures SameClaims(s, Begin(s, j).0, k)
  {
  }

  lemma EndElsewhere(s: Server, j: Key, k: Key)
    requires WellFormed(s) && j != k
    ensures SameClaims(s, End(s, j), k)
  {
  }

  lemma SetElsewhere(s: Server, j: Key, st: ResolverState, k: Key)
    requires WellFormed(s) && j != k
    ensures SameClaims(s, SetState(s, j, st), k)
  {
  }

  lemma MarkElsewhere(s: Server, j: Key, res: Resolution, k: Key)
    requires WellFormed(s) && j != k
    ensures SameClaims(s, Mark(s, j, res).0, k)
  {
    hide Resolve;
    if j in s.table {
      ResolveKey(s.heap[s.table[j]], res);
    }
  }

  lemma ResolveKey(c: Claim, res: Resolution)
    ensures Resolve(c, res).key == c.key
  {
  }

  lemma RetryElsewhere(s: Server, j: Key, k: Key)
    requires WellFormed(s) && j != k
    ensures SameClaims(s, Retry(s, j).0, k)
  {
  }

  lemma HandoffElsewhere(s: Server, j: Key, next: ResolverState, k: Key)
    requires WellFormed(s) && j != k
    ensures SameClaims(s, Handoff(s, j, next).0, k)
  {
  }

  lemma DeliverElsewhere(s: Server, j: Key, optionID: string, message: string, k: Key)
    requires WellFormed(s) && j != k
    ensures SameClaims(s, Deliver(s, j, optionID, message).0, k)
  {
    if j in s.table {
      var t := Deliver(s, j, optionID, message).0;
      assert t == s || t == Update(s, s.table[j], t.heap[s.table[j]]);
      UpdateElsewhere(s, s.table[j], t.heap[s.table[j]], k);
    }
  }

  lemma ClearElsewhere(s: Server, scope: string, k: Key)
    requires WellFormed(s) && k.scope != scope
    ensures SameClaims(s, Clear(s, scope), k)
  {
  }

  lemma ScanElsewhere(s: Server, k: Key)
    requires WellFormed(s)
    ensures SameClaims(s, SignalAll(s), k)
  {
  }

  /** The rest of the system does not move for `k` either. */
  ghost predicate SameRest(s: Sys, t: Sys, j: Key, k: Key) {
    && (k in t.resolvers <==> k in s.resolvers) && (k in s.resolvers ==> t.resolvers[k] == s.resolvers[k])
    && t.directs == s.directs && t.accepted == s.accepted && s.removed <= t.removed
    && t.overtaken == s.overtaken && t.reopened == s.reopened
    && (forall i <- s.options | i < |s.server.heap| && s.server.heap[i].key != j :: i in t.options && t.options[i] == s.options[i])
    && (forall c <- s.calls :: c in t.calls)
    && (forall c <- t.calls :: c in s.calls || Of(s.server, c.inst, j))
    && (forall i <- t.drained :: i in s.drained || Of(s.server, i, j)) && s.drained <= t.drained
  }

  lemma SameRestFor(s: Sys, t: Sys, j: Key, k: Key)
    requires SameRest(s, t, j, k) && SameClaims(s.server, t.server, k) && j != k
    ensures SameFor(s, t, k)
  {
  }

  lemma MoveRest(s: Sys, j: Key, m: Move, k: Key)
    requires WellFormed(s.server) && CanMove(s, j, m) && ResolverOk(s, j) && j != k
    ensures SameRest(s, Moved(s, j, m), j, k)
  {
    hide Prepare, Begin, Handoff, End, Mark, SetState, ResolverOk, EnterControl, GiveUpControl, Stamped, PrepareOrWait, TakeAnswer, KindOf, AutoOption;
    InstKnown(s, j);
    match m
    case Resume(sawClient) => RequestRest(s, j, s.resolvers[j], sawClient, true, k);
    case Enter => EnterRest(s, j, k);
    case Receive => ReceiveRest(s, j, k);
    case Give => GiveRest(s, j, k);
    case Stamp => StampRest(s, j, k);
    case _ =>
  }

  lemma RequestRest(s: Sys, j: Key, r: Resolver, sawClient: bool, afterDirect: bool, k: Key)
    requires WellFormed(s.server) && j != k
    ensures SameRest(s, PrepareOrWait(s, j, r, sawClient, afterDirect), j, k)
  {
    hide Prepare;
  }

  lemma EnterRest(s: Sys, j: Key, k: Key)
    requires WellFormed(s.server) && j in s.resolvers && j != k
    ensures SameRest(s, EnterControl(s, j), j, k)
  {
    hide Begin;
    if Begin(s.server, j).1 {
      BeginKeyed(s.server, j);
    }
  }

  lemma ReceiveRest(s: Sys, j: Key, k: Key)
    requires j in s.resolvers && s.resolvers[j].inst < |s.server.heap| && j != k
    ensures SameRest(s, TakeAnswer(s, j), j, k)
  {
  }

  lemma GiveRest(s: Sys, j: Key, k: Key)
    requires WellFormed(s.server) && j in s.resolvers && s.resolvers[j].pc.HandOver? && j != k
    ensures SameRest(s, GiveUpControl(s, j), j, k)
  {
    hide Handoff, StateOf;
  }

  lemma StampRest(s: Sys, j: Key, k: Key)
    requires WellFormed(s.server) && j in s.resolvers && j != k
    ensures SameRest(s, Stamped(s, j), j, k)
  {
    hide SetState, End;
  }

  lemma InstKnown(s: Sys, j: Key)
    requires j in s.resolvers && ResolverOk(s, j)
    ensures Of(s.server, s.resolvers[j].inst, j)
  {
  }

  lemma BeginKeyed(s: Server, j: Key)
    requires WellFormed(s) && Begin(s, j).1
    ensures var t := Begin(s, j).0; j in t.table && (t.table[j] >= |s.heap| || Of(s, t.table[j], j))
  {
  }

  lemma MoveElsewhere(s: Sys, j: Key, m: Move, k: Key)
    requires WellFormed(s.server) && CanMove(s, j, m) && ResolverOk(s, j) && j != k
    ensures SameFor(s, Moved(s, j, m), k)
  {
    hide SameClaims, SameRest, SameFor, ResolverOk, Begin, Handoff, End, Mark, SetState, PrepareOrWait, TakeAnswer, Stamped, Finished;
    MoveRest(s, j, m, k);
    Unmoved(s, k);
    match m {
      case Resume(sawClient) => RequestElsewhere(s, j, s.resolvers[j], sawClient, true, k);
      case PublishFailed => EndElsewhere(s.server, j, k);
      case Enter => BeginElsewhere(s.server, j, k);
      case Receive => ReceiveElsewhere(s, j, k);
      case Give => HandoffElsewhere(s.server, j, NextOwner(s.resolvers[j]), k);
      case Stamp => StampElsewhere(s, j, k);
      case Finish => FinishElsewhere(s, j, k);
      case _ =>
    }
    SameRestFor(s, Moved(s, j, m), j, k);
  }

  lemma Unmoved(s: Sys, k: Key)
    ensures SameClaims(s.server, s.server, k)
  {
  }

  lemma RequestElsewhere(s: Sys, j: Key, r: Resolver, sawClient: bool, afterDirect: bool, k: Key)
    requires WellFormed(s.server) && j != k
    ensures SameClaims(s.server, PrepareOrWait(s, j, r, sawClient, afterDirect).server, k)
  {
    PrepareElsewhere(s.server, j, EffectiveState(r.auto, sawClient, r.hasFile), Some(r.options), k);
  }

  lemma ReceiveElsewhere(s: Sys, j: Key, k: Key)
    requires WellFormed(s.server) && j in s.resolvers && ResolverOk(s, j) && j != k
    ensures SameClaims(s.server, TakeAnswer(s, j).server, k)
  {
    hide InPlace, Charged;
    var i := s.resolvers[j].inst;
    var c := s.server.heap[i];
    if c.answerCh.buf != [] {
      UpdateElsewhere(s.server, i, c.(answerCh := c.answerCh.(buf := c.answerCh.buf[1..])), k);
    }
  }

  lemma StampElsewhere(s: Sys, j: Key, k: Key)
    requires WellFormed(s.server) && j in s.resolvers && j != k
    ensures SameClaims(s.server, Stamped(s, j).server, k)
  {
    SetElsewhere(s.server, j, File, k);
    SetElsewhere(s.server, j, NoResolver, k);
    EndElsewhere(s.server, j, k);
  }

  lemma FinishElsewhere(s: Sys, j: Key, k: Key)
    requires WellFormed(s.server) && j in s.resolvers && j != k
    ensures SameClaims(s.server, Finished(s.server, j, s.resolvers[j]), k)
  {
    EndElsewhere(s.server, j, k);
    MarkElsewhere(s.server, j, ResolutionOf(s.resolvers[j]), k);
  }

  lemma AnswerElsewhere(s: Sys, j: Key, optionID: string, message: string, d: nat, k: Key)
    requires WellFormed(s.server) && j != k && d !in s.directs
    ensures SameFor(s, ClientAnswered(s, j, optionID, message, d), k)
  {
    var t := ClientAnswered(s, j, optionID, message, d);
    DeliverElsewhere(s.server, j, optionID, message, k);
    DeliverKnows(s.server, j, optionID, message);
    AnswerShape(s, j, optionID, message, d);
    hide Deliver, ClientAnswered;
  }

  lemma AnswerShape(s: Sys, j: Key, optionID: string, message: string, d: nat)
    requires WellFormed(s.server)
    ensures var t := ClientAnswered(s, j, optionID, message, d);
      && t.server == Deliver(s.server, j, optionID, message).0
      && t == s.(server := t.server, accepted := t.accepted, directs := t.directs)
      && (t.accepted == s.accepted || (j in s.server.table && exists a :: t.accepted == s.accepted + [Accepted(s.server.table[j], a)]))
      && (t.directs == s.directs || (j in s.server.table && exists a :: t.directs == s.directs[d := Direct(j, s.server.table[j], a)]))
  {
    DeliverKnows(s.server, j, optionID, message);
    hide Deliver;
  }

  lemma DeliverKnows(s: Server, j: Key, optionID: string, message: string)
    requires WellFormed(s)
    ensures Deliver(s, j, optionID, message).1 == Delivered ==> j in s.table
    ensures Deliver(s, j, optionID, message).1 == DeliverDirectly ==> j in s.table
  {
  }

  lemma DoneElsewhere(s: Sys, d: nat, ok: bool, k: Key)
    requires WellFormed(s.server) && d in s.directs && s.directs[d].key != k
    ensures SameFor(s, DirectFinished(s, d, ok), k)
  {
    hide Mark, Retry;
    var e := s.directs[d];
    MarkElsewhere(s.server, e.key, Resolution("direct", e.answer.optionID, e.answer.message), k);
    RetryElsewhere(s.server, e.key, k);
  }

  lemma ClearedElsewhere(s: Sys, scope: string, k: Key)
    requires WellFormed(s.server) && k.scope != scope
    ensures SameFor(s, Cleared(s, scope), k)
  {
    ClearElsewhere(s.server, scope, k);
  }

  lemma RemoveElsewhere(s: Sys, j: Key, k: Key)
    requires WellFormed(s.server) && j != k
    ensures SameFor(s, Remove(s, j), k)
  {
    EndElsewhere(s.server, j, k);
    Unmoved(s, k);
  }

  /** A step that is not about `k` leaves everything of `k` as it was. */
  lemma Elsewhere(s: Sys, st: Step, k: Key)
    requires Placed(s) && Enabled(s, st) && !Concerns(s, st, k)
    ensures SameFor(s, Apply(s, st), k)
  {
    hide SameClaims, SameFor, SameRest, Moved, PrepareOrWait, ClientAnswered, DirectFinished, Remove, Cleared, Prepare, Sound, Places;
    SoundWell(s);
    Unmoved(s, k);
    match st
    case Connect(c) => ClientsElsewhere(s, Connected(s, c), k);
    case Disconnect(c) => ClientsElsewhere(s, Disconnected(s, c), k);
    case Scan =>
      ScanElsewhere(s.server, k);
      ClientsElsewhere(s, Apply(s, st), k);
    case Request(j, r, sawClient, afterDirect) =>
      RequestElsewhere(s, j, r, sawClient, afterDirect, k);
      RequestRest(s, j, r, sawClient, afterDirect, k);
      SameRestFor(s, Apply(s, st), j, k);
    case IdleRequest(j, options) =>
      PrepareElsewhere(s.server, j, NoResolver, Some(options), k);
      ClientsElsewhere(s, Apply(s, st), k);
    case Resolving(j, m) =>
      PlacedResolver(s, j);
      MoveElsewhere(s, j, m, k);
    case ClientAnswer(j, optionID, message, d) => AnswerElsewhere(s, j, optionID, message, d, k);
    case DirectAnswer(d) => CallElsewhere(s, d, k);
    case DirectDone(d, ok) => DoneElsewhere(s, d, ok, k);
    case OutsideEnd(j) => RemoveElsewhere(s, j, k);
    case OutsideClear(scope) => ClearedElsewhere(s, scope, k);
  }

  lemma SoundWell(s: Sys)
    requires Sound(s)
    ensures WellFormed(s.server)
  {
  }

  lemma PlacedResolver(s: Sys, k: Key)
    requires Placed(s) && k in s.resolvers
    ensures WellFormed(s.server) && ResolverOk(s, k)
  {
    hide ResolverOk;
    assert Places(s, k);
  }

  lemma ClientsElsewhere(s: Sys, t: Sys, k: Key)
    requires SameClaims(s.server, t.server, k) && t == s.(server := t.server, scans := t.scans)
    ensures SameFor(s, t, k)
  {
  }

  lemma CallElsewhere(s: Sys, d: nat, k: Key)
    requires Placed(s) && d in s.directs && s.directs[d].key != k
    ensures SameFor(s, Record(s, Call(s.directs[d].inst, ByDirect, s.directs[d].answer)), k)
  {
    PlacedDirect(s, d);
    Unmoved(s, k);
  }

  lemma PlacedDirect(s: Sys, d: nat)
    requires Placed(s) && d in s.directs
    ensures DirectOk(s, s.directs[d]) && Of(s.server, s.directs[d].inst, s.directs[d].key)
  {
    hide DirectOk, ResolverOk, TableOk;
    assert Places(s, s.directs[d].key);
    DirectKnown(s, s.directs[d]);
  }

  lemma DirectKnown(s: Sys, e: Direct)
    requires DirectOk(s, e)
    ensures Of(s.server, e.inst, e.key)
  {
  }

  // ---- steps about a key: its places

  /** A resolver that nothing depends on may leave. */
  lemma LeavePlaces(s: Sys, k: Key)
    requires WellFormed(s.server) && Places(s, k)
    requires k in s.resolvers ==> s.resolvers[k].pc.AwaitDirect? || (k in s.server.table ==> Free(StateOf(s.server, k)))
    ensures Places(Leave(s, k), k)
  {
    hide ResolverOk;
  }

  lemma AwaitPlaces(s: Sys, k: Key, r: Resolver)
    requires WellFormed(s.server) && Places(s, k) && DeliveryInFlight(s.server, k)
    requires r.pc.AwaitDirect? && r.inst == s.server.table[k]
    ensures Places(s.(resolvers := s.resolvers[k := r]), k)
  {
    hide InPlace, Fits, MakesRoom;
  }

  /** A new claim takes the place of none or of a resolved one. */
  lemma NewClaimDirects(s: Sys, t: Sys, k: Key)
    requires WellFormed(s.server) && DirectsOk(s, k) && (k in s.server.table ==> StateOf(s.server, k) == Resolved)
    requires |t.server.heap| == |s.server.heap| + 1 && t.server.heap[..|s.server.heap|] == s.server.heap
    requires t.server.table == s.server.table[k := |s.server.heap|] && t.server.heap[|s.server.heap|].key == k
    requires t.directs == s.directs && t.overtaken == s.overtaken && t.reopened == s.reopened
    ensures DirectsOk(t, k)
  {
    forall d <- t.directs | t.directs[d].key == k
      ensures DirectOk(t, t.directs[d])
    {
      assert DirectOk(s, s.directs[d]);
      assert t.server.heap[s.directs[d].inst] == s.server.heap[s.directs[d].inst];
    }
  }

  lemma NewClaimPlaces(s: Sys, k: Key, r: Resolver, sawClient: bool)
    requires WellFormed(s.server) && Known(s) && Places(s, k)
    requires Prepare(s.server, k, EffectiveState(r.auto, sawClient, r.hasFile), Some(r.options)).1
    ensures Places(TryPrepare(s, k, r, sawClient), k)
  {
    hide ResolverOk;
    var t := TryPrepare(s, k, r, sawClient);
    PrepareShape(s.server, k, EffectiveState(r.auto, sawClient, r.hasFile), Some(r.options));
    NewClaimDirects(s, t, k);
    NewResolver(t, k, EffectiveState(r.auto, sawClient, r.hasFile), sawClient);
  }

  lemma PrepareShape(s: Server, k: Key, st: ResolverState, options: Option<seq<OptionSpec>>)
    requires WellFormed(s) && Prepare(s, k, st, options).1
    ensures var t := Prepare(s, k, st, options).0;
      && |t.heap| == |s.heap| + 1 && t.heap[..|s.heap|] == s.heap && t.table == s.table[k := |s.heap|] && t.conns == s.conns
      && t.heap[|s.heap|].key == k && t.heap[|s.heap|].state == st && t.heap[|s.heap|].answerCh.buf == []
      && t.heap[|s.heap|].direct.isNil && !t.heap[|s.heap|].answerQueued
  {
  }

  lemma NewResolver(t: Sys, k: Key, st: ResolverState, sawClient: bool)
    requires WellFormed(t.server) && k in t.resolvers && k in t.server.table && t.server.table[k] == t.resolvers[k].inst
    requires t.server.heap[t.server.table[k]].state == st
    requires var r := t.resolvers[k];
      r.pc == Publishing && st == EffectiveState(r.auto, sawClient, r.hasFile) && r.inst in t.options && t.options[r.inst] == r.options
    requires forall d <- t.directs :: t.directs[d].inst != t.resolvers[k].inst
    ensures ResolverOk(t, k)
  {
  }

  lemma IdlePlaces(s: Sys, k: Key, options: seq<OptionSpec>)
    requires WellFormed(s.server) && Places(s, k) && k !in s.resolvers
    ensures Places(s.(server := Prepare(s.server, k, NoResolver, Some(options)).0), k)
  {
    hide Prepare;
    if Prepare(s.server, k, NoResolver, Some(options)).1 {
      PrepareShape(s.server, k, NoResolver, Some(options));
      NewClaimDirects(s, s.(server := Prepare(s.server, k, NoResolver, Some(options)).0), k);
    }
  }

  lemma RequestPlaces(s: Sys, k: Key, r: Resolver, sawClient: bool, afterDirect: bool)
    requires WellFormed(s.server) && Known(s) && Places(s, k)
    requires k in s.resolvers ==> s.resolvers[k].pc.AwaitDirect?
    ensures Places(PrepareOrWait(s, k, r, sawClient, afterDirect), k)
  {
    hide Places, Prepare;
    if afterDirect && DeliveryInFlight(s.server, k) {
      var i := s.server.table[k];
      AwaitPlaces(s, k, r.(inst := i, pc := AwaitDirect(s.server.heap[i].direct.made)));
    } else if Prepare(s.server, k, EffectiveState(r.auto, sawClient, r.hasFile), Some(r.options)).1 {
      NewClaimPlaces(s, k, r, sawClient);
    } else {
      LeavePlaces(s, k);
    }
  }

  /** A removal from outside may come at any time. */
  lemma RemovePlaces(s: Sys, k: Key)
    requires WellFormed(s.server) && Places(s, k)
    ensures Places(Remove(s, k), k)
  {
    if k in s.server.table {
      var t := Remove(s, k);
      RemoveDirects(s, k);
      if k in s.resolvers {
        RemoveResolver(s, k);
      }
    }
  }

  lemma RemoveDirects(s: Sys, k: Key)
    requires WellFormed(s.server) && DirectsOk(s, k) && k in s.server.table
    ensures DirectsOk(Remove(s, k), k)
  {
    var t := Remove(s, k);
    forall d <- t.directs | t.directs[d].key == k
      ensures DirectOk(t, t.directs[d])
    {
      assert DirectOk(s, s.directs[d]);
    }
  }

  lemma RemoveResolver(s: Sys, k: Key)
    requires WellFormed(s.server) && Places(s, k) && k in s.server.table && k in s.resolvers
    ensures ResolverOk(Remove(s, k), k)
  {
    hide InPlace, Fits, MakesRoom;
  }

  /** The resolver may go on to `pc`. */
  ghost predicate GoesOn(s: Sys, k: Key, r: Resolver, pc: Pc)
    requires WellFormed(s.server)
  {
    && !pc.AwaitDirect? && Fits(r.(pc := pc)) && (MakesRoom(r) ==> MakesRoom(r.(pc := pc)))
    && (k in s.server.table && InPlace(r, s.server.heap[s.server.table[k]]) ==> InPlace(r.(pc := pc), s.server.heap[s.server.table[k]]))
  }

  lemma OnwardPlaces(s: Sys, k: Key, pc: Pc, calls: seq<Call>)
    requires WellFormed(s.server) && Places(s, k) && k in s.resolvers && !s.resolvers[k].pc.AwaitDirect?
    requires GoesOn(s, k, s.resolvers[k], pc)
    ensures Places(Onward(s, k, pc, calls), k)
  {
    hide InPlace, Fits, MakesRoom;
  }

  /** Takes the resolver on to `pc` and records `calls`. */
  function Onward(s: Sys, k: Key, pc: Pc, calls: seq<Call>): Sys
    requires k in s.resolvers
  {
    At(s, k, pc).(calls := s.calls + calls)
  }

  /** Moves that only take the resolver on, perhaps with a call of the provider. */
  predicate Plain(m: Move) {
    m.Published? || m.AutoAnswer? || m.Look? || m.Cancelled? || m.SawDisconnect? || m.TimedOut? ||
    m.ControlAnswer? || m.FileAnswer? || m.FileFailed?
  }

  /** Where a plain move leads. */
  function PlainNext(s: Sys, k: Key, m: Move): Pc
    requires WellFormed(s.server) && CanMove(s, k, m) && Plain(m)
  {
    var r := s.resolvers[k];
    match m
    case Published => if r.auto then AutoCall else Check
    case AutoAnswer(ok) => if ok then AutoMark else Ending
    case Look =>
      if StateOf(s.server, k) == Reserved || (StateOf(s.server, k) == Unknown && s.server.conns != {}) then BeginControl else Fallback(r)
    case ControlAnswer(ok) =>
      if KindOf(r.pc.answer.optionID, r.options) != OtherKind && ok then ControlMark(r.pc.answer) else Ending
    case FileAnswer(a, ok) => if ok then FileMark(Resolution("file", a.optionID, a.message)) else Ending
    case FileFailed => Ending
    case _ => HandOver(m.Cancelled?)
  }

  /** The call it makes. */
  function PlainCalls(s: Sys, k: Key, m: Move): seq<Call>
    requires CanMove(s, k, m)
  {
    var r := s.resolvers[k];
    match m
    case AutoAnswer(_) => [Call(r.inst, ByAuto, Answer(k.requestID, AutoOption(r.options), ""))]
    case ControlAnswer(_) => if KindOf(r.pc.answer.optionID, r.options) == OtherKind then [] else [Call(r.inst, ByControl, r.pc.answer)]
    case FileAnswer(a, _) => [Call(r.inst, ByFile, a)]
    case _ => []
  }

  lemma PlainMove(s: Sys, k: Key, m: Move)
    requires WellFormed(s.server) && CanMove(s, k, m) && Plain(m)
    ensures Moved(s, k, m) == Onward(s, k, PlainNext(s, k, m), PlainCalls(s, k, m))
  {
    hide KindOf, AutoOption, StateOf;
    assert s.calls + [] == s.calls;
  }

  lemma PlainGoesOn(s: Sys, k: Key, m: Move)
    requires WellFormed(s.server) && Places(s, k) && CanMove(s, k, m) && Plain(m)
    ensures GoesOn(s, k, s.resolvers[k], PlainNext(s, k, m)) && !s.resolvers[k].pc.AwaitDirect?
  {
    hide KindOf, DirectsOk;
    PlainFits(s, k, m);
    if k in s.server.table && InPlace(s.resolvers[k], s.server.heap[s.server.table[k]]) {
      PlainInPlace(s, k, m, s.server.heap[s.server.table[k]]);
    }
  }

  lemma PlainFits(s: Sys, k: Key, m: Move)
    requires WellFormed(s.server) && CanMove(s, k, m) && Plain(m) && Fits(s.resolvers[k])
    ensures var r := s.resolvers[k]; var q := r.(pc := PlainNext(s, k, m));
      !q.pc.AwaitDirect? && !r.pc.AwaitDirect? && Fits(q) && (MakesRoom(r) ==> MakesRoom(q))
  {
    hide KindOf, StateOf;
  }

  lemma PlainInPlace(s: Sys, k: Key, m: Move, c: Claim)
    requires WellFormed(s.server) && CanMove(s, k, m) && Plain(m) && Fits(s.resolvers[k])
    requires k in s.server.table && c == s.server.heap[s.server.table[k]] && InPlace(s.resolvers[k], c)
    ensures InPlace(s.resolvers[k].(pc := PlainNext(s, k, m)), c)
  {
    hide KindOf;
  }

  ghost predicate NoDirectOn(s: Sys, i: nat) {
    forall d <- s.directs :: s.directs[d].inst != i
  }

  /** A claim that somebody is in charge of has no direct delivery. */
  lemma NotFreeNoDirect(s: Sys, k: Key, i: nat)
    requires WellFormed(s.server) && Known(s) && DirectsOk(s, k) && Of(s.server, i, k) && !Free(s.server.heap[i].state)
    ensures NoDirectOn(s, i)
  {
    forall d <- s.directs
      ensures s.directs[d].inst != i
    {
      if s.directs[d].key == k {
        assert DirectOk(s, s.directs[d]);
      }
    }
  }

  /** Changing a claim disturbs no delivery if its state stays or it has none. */
  lemma UpdateDirects(s: Sys, t: Sys, k: Key, i: nat, c: Claim)
    requires WellFormed(s.server) && DirectsOk(s, k) && i < |s.server.heap| && c.key == s.server.heap[i].key
    requires c.state == s.server.heap[i].state || NoDirectOn(s, i)
    requires c.abandoned == s.server.heap[i].abandoned
    requires t.server == Update(s.server, i, c) && t.directs == s.directs && t.overtaken == s.overtaken && t.reopened == s.reopened
    ensures DirectsOk(t, k)
  {
    hide Free;
    forall d <- t.directs | t.directs[d].key == k
      ensures DirectOk(t, t.directs[d])
    {
      assert DirectOk(s, s.directs[d]);
    }
  }

  lemma EnterPlaces(s: Sys, k: Key)
    requires WellFormed(s.server) && Known(s) && Places(s, k) && k in s.resolvers && s.resolvers[k].pc.BeginControl?
    ensures Places(EnterControl(s, k), k)
  {
    var r := s.resolvers[k];
    if k !in s.server.table {
      EnterNewPlaces(s, k);
    } else if StateOf(s.server, k) == Reserved {
      EnterOwnPlaces(s, k);
    } else {
      OnwardPlaces(s, k, Fallback(r), []);
      assert s.calls + [] == s.calls;
    }
  }

  lemma EnterOwnPlaces(s: Sys, k: Key)
    requires WellFormed(s.server) && Known(s) && Places(s, k) && k in s.resolvers && s.resolvers[k].pc.BeginControl?
    requires k in s.server.table && StateOf(s.server, k) == Reserved
    ensures Places(EnterControl(s, k), k)
  {
    var i := s.server.table[k];
    var t := EnterControl(s, k);
    NotFreeNoDirect(s, k, i);
    UpdateDirects(s, t, k, i, t.server.heap[i]);
  }

  lemma EnterNewPlaces(s: Sys, k: Key)
    requires WellFormed(s.server) && Known(s) && Places(s, k) && k in s.resolvers && s.resolvers[k].pc.BeginControl?
    requires k !in s.server.table
    ensures Places(EnterControl(s, k), k)
  {
    var t := EnterControl(s, k);
    assert t.server.heap[..|s.server.heap|] == s.server.heap;
    NewClaimDirects(s, t, k);
  }

  lemma ReceivePlaces(s: Sys, k: Key)
    requires WellFormed(s.server) && ClaimsOk(s) && Places(s, k) && k in s.resolvers
    requires s.resolvers[k].pc.Waiting? || s.resolvers[k].pc.HandOver?
    requires var c := s.server.heap[s.resolvers[k].inst]; c.answerCh.buf != [] || c.answerCh.closed
    ensures Places(TakeAnswer(s, k), k)
  {
    var i := s.resolvers[k].inst;
    var t := TakeAnswer(s, k);
    assert ClaimOk(s.server.heap[i]);
    assert s.server.heap[i := s.server.heap[i]] == s.server.heap;
    UpdateDirects(s, t, k, i, t.server.heap[i]);
    hide DirectsOk, Fits;
  }

  lemma GivePlaces(s: Sys, k: Key)
    requires WellFormed(s.server) && Known(s) && ClaimsOk(s) && Places(s, k) && k in s.resolvers && s.resolvers[k].pc.HandOver?
    ensures Places(GiveUpControl(s, k), k)
  {
    var r := s.resolvers[k];
    if k in s.server.table && StateOf(s.server, k) == Control {
      if s.server.heap[r.inst].answerCh.buf != [] {
        assert GiveUpControl(s, k) == TakeAnswer(s, k);
        ReceivePlaces(s, k);
      } else if r.pc.cancelled {
        DropPlaces(s, k);
      } else {
        FallBackPlaces(s, k);
      }
    } else {
      GiveNothingPlaces(s, k);
    }
  }

  lemma GiveNothingPlaces(s: Sys, k: Key)
    requires WellFormed(s.server) && Places(s, k) && k in s.resolvers && s.resolvers[k].pc.HandOver?
    requires k in s.server.table ==> StateOf(s.server, k) != Control
    ensures Places(GiveUpControl(s, k), k)
  {
    var r := s.resolvers[k];
    assert GiveUpControl(s, k) == if r.pc.cancelled then Leave(s, k) else At(s, k, Fallback(r));
    if r.pc.cancelled {
      LeavePlaces(s, k);
    } else {
      OnwardPlaces(s, k, Fallback(r), []);
      assert s.calls + [] == s.calls;
    }
  }

  lemma DropPlaces(s: Sys, k: Key)
    requires WellFormed(s.server) && Known(s) && Places(s, k) && k in s.resolvers && s.resolvers[k].pc == HandOver(true)
    requires k in s.server.table && StateOf(s.server, k) == Control && s.server.heap[s.resolvers[k].inst].answerCh.buf == []
    ensures Places(GiveUpControl(s, k), k)
  {
    var t := GiveUpControl(s, k);
    var i := s.server.table[k];
    assert t.server == s.server.(table := s.server.table - {k});
    NotFreeNoDirect(s, k, i);
    forall d <- t.directs | t.directs[d].key == k
      ensures DirectOk(t, t.directs[d])
    {
      assert DirectOk(s, s.directs[d]);
    }
  }

  lemma FallBackPlaces(s: Sys, k: Key)
    requires WellFormed(s.server) && Known(s) && Places(s, k) && k in s.resolvers && s.resolvers[k].pc == HandOver(false)
    requires k in s.server.table && StateOf(s.server, k) == Control && s.server.heap[s.resolvers[k].inst].answerCh.buf == []
    ensures Places(GiveUpControl(s, k), k)
  {
    var t := GiveUpControl(s, k);
    var i := s.server.table[k];
    var c := s.server.heap[i].(state := NextOwner(s.resolvers[k]));
    assert t.server == Update(s.server, i, c);
    NotFreeNoDirect(s, k, i);
    UpdateDirects(s, t, k, i, c);
    FallBackResolver(s, t, k, c);
    hide DirectsOk, ResolverOk, InPlace, Fits, MakesRoom;
  }

  lemma FallBackResolver(s: Sys, t: Sys, k: Key, c: Claim)
    requires WellFormed(s.server) && k in s.resolvers && ResolverOk(s, k) && s.resolvers[k].pc == HandOver(false)
    requires k in s.server.table && NoDirectOn(s, s.server.table[k])
    requires c == s.server.heap[s.server.table[k]].(state := NextOwner(s.resolvers[k])) && t.server == Update(s.server, s.server.table[k], c)
    requires t.resolvers == s.resolvers[k := s.resolvers[k].(pc := Fallback(s.resolvers[k]))]
    requires t.options == s.options && t.directs == s.directs
    ensures ResolverOk(t, k) && !t.resolvers[k].pc.AwaitDirect? && t.resolvers[k].inst == s.server.table[k]
  {
  }

  /** The stamp of a fallback finds the state it sets. */
  lemma StampSame(s: Sys, k: Key, st: ResolverState)
    requires WellFormed(s.server) && (k in s.server.table ==> StateOf(s.server, k) in {st, Resolved, DirectDelivery})
    ensures SetState(s.server, k, st) == s.server
  {
    if k in s.server.table {
      var i := s.server.table[k];
      assert s.server.heap[i := s.server.heap[i]] == s.server.heap;
    }
  }

  lemma StampPlaces(s: Sys, k: Key)
    requires WellFormed(s.server) && Places(s, k) && CanMove(s, k, Stamp)
    ensures Places(Stamped(s, k), k)
  {
    var r := s.resolvers[k];
    if r.pc.FileStamp? {
      StampSame(s, k, File);
      OnwardPlaces(s, k, FileCall, []);
      assert s.calls + [] == s.calls;
    } else if k.scope == "" {
      EndPlaces(s, k);
    } else {
      StampSame(s, k, NoResolver);
      LeavePlaces(s, k);
    }
  }

  lemma EndPlaces(s: Sys, k: Key)
    requires WellFormed(s.server) && Places(s, k)
    ensures Places(Leave(s.(server := End(s.server, k)), k), k)
  {
    hide ResolverOk, Places;
    RemovePlaces(s, k);
    var t := Leave(s.(server := End(s.server, k)), k);
    LeavePlaces(Remove(s, k), k);
    RemovedUnread(Leave(Remove(s, k), k), t, k);
  }

  /** Without a resolver, the record of removals is not looked at. */
  lemma RemovedUnread(s: Sys, t: Sys, k: Key)
    requires WellFormed(s.server) && Places(s, k) && k !in s.resolvers && t == s.(removed := t.removed)
    ensures Places(t, k)
  {
    forall d <- t.directs | t.directs[d].key == k
      ensures DirectOk(t, t.directs[d])
    {
      assert DirectOk(s, s.directs[d]);
    }
  }

  /** A resolver that is done answering marks its claim, if it is still there. */
  lemma MarkPlaces(s: Sys, k: Key, res: Resolution, drained: set<nat>)
    requires WellFormed(s.server) && Known(s) && Places(s, k) && k in s.resolvers
    requires s.resolvers[k].pc.AutoMark? || s.resolvers[k].pc.ControlMark? || s.resolvers[k].pc.FileMark?
    ensures Places(Leave(s.(server := Mark(s.server, k, res).0, drained := drained), k), k)
  {
    var t := Leave(s.(server := Mark(s.server, k, res).0, drained := drained), k);
    if k in s.server.table {
      var i := s.server.table[k];
      if StateOf(s.server, k) != Resolved {
        NotFreeNoDirect(s, k, i);
      }
      UpdateDirects(s, t, k, i, Resolve(s.server.heap[i], res));
    } else {
      RemovedUnread(Leave(s, k), Leave(s, k), k);
    }
  }

  lemma FinishPlaces(s: Sys, k: Key)
    requires WellFormed(s.server) && Known(s) && Places(s, k) && CanMove(s, k, Finish)
    ensures Places(Moved(s, k, Finish), k)
  {
    hide Places, Mark, End;
    var r := s.resolvers[k];
    if r.pc.Ending? {
      EndPlaces(s, k);
      assert s.drained + {} == s.drained;
    } else {
      MarkPlaces(s, k, ResolutionOf(r), s.drained + Discarded(s, k, true));
    }
  }

  lemma MovePlaces(s: Sys, k: Key, m: Move)
    requires WellFormed(s.server) && Known(s) && ClaimsOk(s) && Places(s, k) && CanMove(s, k, m)
    ensures Places(Moved(s, k, m), k)
  {
    hide Places, PrepareOrWait, EnterControl, TakeAnswer, GiveUpControl, Stamped, Remove;
    if Plain(m) {
      PlainMove(s, k, m);
      PlainGoesOn(s, k, m);
      OnwardPlaces(s, k, PlainNext(s, k, m), PlainCalls(s, k, m));
    } else {
      match m
      case Resume(sawClient) =>
        LeavePlaces(s, k);
        RequestPlaces(s, k, s.resolvers[k], sawClient, true);
      case GiveUp => LeavePlaces(s, k);
      case PublishFailed => RemoveLeavePlaces(s, k);
      case Enter => EnterPlaces(s, k);
      case Receive => ReceivePlaces(s, k);
      case Give => GivePlaces(s, k);
      case Stamp => StampPlaces(s, k);
      case Finish => FinishPlaces(s, k);
    }
  }

  lemma RemoveLeavePlaces(s: Sys, k: Key)
    requires WellFormed(s.server) && Places(s, k)
    ensures Places(Remove(Leave(s, k), k), k)
  {
    hide Places;
    RemovePlaces(s, k);
    LeavePlaces(Remove(s, k), k);
    assert Remove(Leave(s, k), k) == Leave(Remove(s, k), k);
  }

  lemma DeliveredPlaces(s: Sys, k: Key, optionID: string, message: string, d: nat)
    requires WellFormed(s.server) && Places(s, k) && Deliver(s.server, k, optionID, message).1 == Delivered
    ensures Places(ClientAnswered(s, k, optionID, message, d), k)
  {
    var t := ClientAnswered(s, k, optionID, message, d);
    var i := s.server.table[k];
    UpdateDirects(s, t, k, i, t.server.heap[i]);
    hide DirectsOk, Fits, MakesRoom;
  }

  lemma DirectPlaces(s: Sys, k: Key, optionID: string, message: string, d: nat)
    requires WellFormed(s.server) && Known(s) && Places(s, k) && d !in s.directs
    requires Deliver(s.server, k, optionID, message).1 == DeliverDirectly
    ensures Places(ClientAnswered(s, k, optionID, message, d), k)
  {
    var t := ClientAnswered(s, k, optionID, message, d);
    var i := s.server.table[k];
    var c := s.server.heap[i];
    assert t.server == Update(s.server, i, c.(state := DirectDelivery, direct := MakeDone(c.direct)));
    DirectDirects(s, t, k, i, d);
    if k in s.resolvers {
      DirectResolver(s, t, k);
    }
  }

  lemma DirectDirects(s: Sys, t: Sys, k: Key, i: nat, d: nat)
    requires WellFormed(s.server) && Known(s) && DirectsOk(s, k) && k in s.server.table && s.server.table[k] == i && d !in s.directs
    requires var c := s.server.heap[i];
      c.state == NoResolver && t.server == Update(s.server, i, c.(state := DirectDelivery, direct := MakeDone(c.direct)))
    requires t.overtaken == s.overtaken && t.reopened == s.reopened
    requires t.directs == s.directs ||
             (k.scope != "" && d in t.directs && t.directs == s.directs[d := t.directs[d]] && t.directs[d].key == k && t.directs[d].inst == i)
    ensures DirectsOk(t, k)
  {
    forall e <- s.directs | s.directs[e].key == k
      ensures DirectOk(t, s.directs[e]) && (s.directs[e].inst == i ==> i in s.reopened)
    {
      assert DirectOk(s, s.directs[e]);
    }
    forall e <- s.directs
      ensures s.directs[e].inst == i ==> i in s.reopened
    {
      assert Of(s.server, s.directs[e].inst, s.directs[e].key);
    }
  }

  lemma DirectResolver(s: Sys, t: Sys, k: Key)
    requires WellFormed(s.server) && Places(s, k) && k in s.resolvers && k in s.server.table && StateOf(s.server, k) == NoResolver
    requires var i := s.server.table[k]; var c := s.server.heap[i];
      t.server == Update(s.server, i, c.(state := DirectDelivery, direct := MakeDone(c.direct)))
    requires t.resolvers == s.resolvers && t.options == s.options && t.removed == s.removed
    requires forall d <- t.directs | d !in s.directs || t.directs[d] != s.directs[d] :: t.directs[d].inst == s.server.table[k]
    ensures ResolverOk(t, k)
  {
    hide Fits;
    var r := s.resolvers[k];
    var c := s.server.heap[s.server.table[k]];
    if !r.pc.AwaitDirect? {
      FreeInPlace(r, c, t.server.heap[s.server.table[k]]);
    }
  }

  /** Among the free states a resolver's place makes no difference. */
  lemma FreeInPlace(r: Resolver, c: Claim, d: Claim)
    requires InPlace(r, c) && Free(c.state) && Free(d.state)
    ensures InPlace(r, d)
  {
  }

  lemma AnswerPlaces(s: Sys, k: Key, optionID: string, message: string, d: nat)
    requires WellFormed(s.server) && Known(s) && Places(s, k) && d !in s.directs
    ensures Places(ClientAnswered(s, k, optionID, message, d), k)
  {
    hide Places;
    var delivery := Deliver(s.server, k, optionID, message).1;
    if delivery == Delivered {
      DeliveredPlaces(s, k, optionID, message, d);
    } else if delivery == DeliverDirectly {
      DirectPlaces(s, k, optionID, message, d);
    }
  }

  /** A completion takes its delivery away and may change the claim under its key, its own or,
      struck by it, another. */
  lemma DonePlaces(s: Sys, d: nat, ok: bool)
    requires WellFormed(s.server) && Known(s) && d in s.directs && Places(s, s.directs[d].key)
    ensures Places(DirectFinished(s, d, ok), s.directs[d].key)
  {
    var k := s.directs[d].key;
    var t := DirectFinished(s, d, ok);
    DoneShape(s, d, ok);
    DoneDirects(s, t, d);
    if k in s.resolvers {
      DoneResolver(s, t, d);
    }
    hide DirectsOk, ResolverOk;
  }

  /** What a completion does to the claim under its key. */
  ghost predicate Completes(c: Claim, e: Claim) {
    && e.key == c.key && e.abandoned == c.abandoned
    && (e == c || e.state == Resolved || (c.state == DirectDelivery && e.state == NoResolver))
    && (e.state == DirectDelivery ==> e == c)
  }

  /** A completion changes at most one claim, and strikes it unless it is its own. */
  ghost predicate Completion(s: Sys, t: Sys, d: nat)
    requires WellFormed(s.server) && d in s.directs
  {
    var k := s.directs[d].key;
    && t.server.table == s.server.table && |t.server.heap| == |s.server.heap|
    && (forall i | 0 <= i < |s.server.heap| :: t.server.heap[i].key == s.server.heap[i].key)
    && (forall i | 0 <= i < |s.server.heap| && !(k in s.server.table && i == s.server.table[k]) :: t.server.heap[i] == s.server.heap[i])
    && (k in s.server.table ==> Completes(s.server.heap[s.server.table[k]], t.server.heap[s.server.table[k]]))
    && t.directs == s.directs - {d} && s.overtaken <= t.overtaken && s.reopened <= t.reopened
    && (k in s.server.table && s.server.table[k] != s.directs[d].inst && t.server.heap[s.server.table[k]] != s.server.heap[s.server.table[k]]
        ==> s.server.table[k] in if t.server.heap[s.server.table[k]].state == Resolved then t.overtaken else t.reopened)
    && t.resolvers == s.resolvers && t.options == s.options && t.removed == s.removed
  }

  lemma DoneShape(s: Sys, d: nat, ok: bool)
    requires WellFormed(s.server) && d in s.directs
    ensures Completion(s, DirectFinished(s, d, ok), d)
  {
  }

  lemma DoneDirects(s: Sys, t: Sys, d: nat)
    requires WellFormed(s.server) && Known(s) && d in s.directs && DirectsOk(s, s.directs[d].key) && Completion(s, t, d)
    ensures DirectsOk(t, s.directs[d].key)
  {
    var k := s.directs[d].key;
    forall e <- t.directs | t.directs[e].key == k
      ensures DirectOk(t, t.directs[e])
    {
      assert DirectOk(s, s.directs[e]);
      assert s.directs[e].inst == s.directs[d].inst ==> s.directs[e].inst in s.reopened;
    }
  }

  lemma DoneResolver(s: Sys, t: Sys, d: nat)
    requires WellFormed(s.server) && d in s.directs && Places(s, s.directs[d].key) && Completion(s, t, d)
    requires s.directs[d].key in s.resolvers
    ensures ResolverOk(t, s.directs[d].key)
  {
    hide Fits;
    var k := s.directs[d].key;
    var r := s.resolvers[k];
    assert DirectOk(s, s.directs[d]);
    if !r.pc.AwaitDirect? && k in s.server.table && InPlace(r, s.server.heap[r.inst]) && Free(s.server.heap[r.inst].state) {
      FreeInPlace(r, s.server.heap[r.inst], t.server.heap[r.inst]);
    }
  }

  lemma ClearedLikeRemove(s: Sys, k: Key)
    requires WellFormed(s.server)
    ensures SameFor(Remove(s, k), Cleared(s, k.scope), k)
  {
    hide End, Clear, SameClaims, SameFor;
    ClearedClaims(s.server, k);
    SameButRemovals(Remove(s, k), Cleared(s, k.scope), k);
  }

  lemma SameButRemovals(s: Sys, t: Sys, k: Key)
    requires SameClaims(s.server, t.server, k) && t == s.(server := t.server, removed := t.removed) && s.removed <= t.removed
    ensures SameFor(s, t, k)
  {
  }

  lemma ClearedClaims(s: Server, k: Key)
    requires WellFormed(s)
    ensures SameClaims(End(s, k), Clear(s, k.scope), k) && |End(s, k).heap| == |Clear(s, k.scope).heap| == |s.heap|
    ensures forall i | 0 <= i < |s.heap| :: End(s, k).heap[i].key == s.heap[i].key == Clear(s, k.scope).heap[i].key
    ensures if k in s.table then Live(s, s.table[k]) else End(s, k) == s
  {
  }

  lemma ClearPlaces(s: Sys, k: Key)
    requires WellFormed(s.server) && Known(s) && Places(s, k)
    ensures Places(Cleared(s, k.scope), k)
  {
    hide Places, SameFor, Remove, Cleared;
    RemovePlaces(s, k);
    ClearedLikeRemove(s, k);
    RemoveKnows(s, k);
    SamePlaces(Remove(s, k), Cleared(s, k.scope), k);
  }

  lemma RemoveKnows(s: Sys, k: Key)
    requires WellFormed(s.server) && Known(s)
    ensures WellFormed(Remove(s, k).server) && WellFormed(Cleared(s, k.scope).server) && Known(Cleared(s, k.scope))
  {
  }

  // ---- every step and every run

  lemma KnownStep(s: Sys, st: Step)
    requires Placed(s) && Enabled(s, st)
    ensures Known(Apply(s, st))
  {
    var t := Apply(s, st);
    KeysStay(s, st);
    DirectsStay(s, st);
    hide Apply, Sound, Places;
    forall d <- t.directs
      ensures Of(t.server, t.directs[d].inst, t.directs[d].key)
    {
      if d in s.directs && t.directs[d] == s.directs[d] {
        PlacedDirect(s, d);
      }
    }
  }

  lemma KeysStay(s: Sys, st: Step)
    requires Sound(s) && Enabled(s, st)
    ensures var t := Apply(s, st);
      |s.server.heap| <= |t.server.heap| && forall i | 0 <= i < |s.server.heap| :: t.server.heap[i].key == s.server.heap[i].key
  {
    hide Moved, PrepareOrWait, ClientAnswered, DirectFinished, Remove, Cleared, Prepare, SignalAll;
    if !st.Connect? && !st.Disconnect? {
      StepEvolves(s, st);
      assert forall i | 0 <= i < |s.server.heap| :: Ages(s.server.heap[i], Apply(s, st).server.heap[i], s.server.heap[i].key in MarkedBy(s, st));
    }
  }

  /** Only an answer of a client adds a delivery. */
  lemma DirectsStay(s: Sys, st: Step)
    requires WellFormed(s.server) && Enabled(s, st)
    ensures var t := Apply(s, st);
      forall d <- t.directs ::
        (d in s.directs && t.directs[d] == s.directs[d]) ||
        (t.directs[d].key in s.server.table && t.directs[d].inst == s.server.table[t.directs[d].key])
  {
    hide Deliver, Mark, Retry, Prepare, Handoff, Begin, End, SetState, Clear, SignalAll;
    if st.ClientAnswer? {
      DeliverKnows(s.server, st.k, st.optionID, st.message);
    }
  }

  lemma OwnPlaces(s: Sys, st: Step, k: Key)
    requires Sound(s) && Known(s) && Places(s, k) && Enabled(s, st) && Concerns(s, st, k) && WellFormed(Apply(s, st).server)
    ensures Places(Apply(s, st), k)
  {
    hide Places, Moved, PrepareOrWait, ClientAnswered, DirectFinished, Remove, Cleared, Prepare;
    match st
    case Request(_, r, sawClient, afterDirect) => RequestPlaces(s, k, r, sawClient, afterDirect);
    case IdleRequest(_, options) => IdlePlaces(s, k, options);
    case Resolving(_, m) => MovePlaces(s, k, m);
    case ClientAnswer(_, optionID, message, d) => AnswerPlaces(s, k, optionID, message, d);
    case DirectAnswer(d) => CallPlaces(s, Call(s.directs[d].inst, ByDirect, s.directs[d].answer), k);
    case DirectDone(d, ok) => DonePlaces(s, d, ok);
    case OutsideEnd(_) => RemovePlaces(s, k);
    case OutsideClear(_) => ClearPlaces(s, k);
  }

  lemma CallPlaces(s: Sys, c: Call, k: Key)
    requires WellFormed(s.server) && Places(s, k)
    ensures Places(Record(s, c), k)
  {
    hide InPlace, Fits, MakesRoom;
    forall d <- s.directs | s.directs[d].key == k
      ensures DirectOk(Record(s, c), s.directs[d])
    {
      assert DirectOk(s, s.directs[d]);
    }
  }

  /** Every step of every party keeps everybody in place. */
  lemma PlacedStep(s: Sys, st: Step)
    requires Placed(s) && Enabled(s, st)
    ensures Placed(Apply(s, st))
  {
    hide Places, SameFor;
    SoundStep(s, st);
    KnownStep(s, st);
    PlacedKnows(s);
    hide Sound, Apply;
    SoundWell(s);
    var t := Apply(s, st);
    SoundWell(t);
    forall k: Key
      ensures Places(t, k)
    {
      assert Places(s, k);
      if Concerns(s, st, k) {
        OwnPlaces(s, st, k);
      } else {
        Elsewhere(s, st, k);
        SamePlaces(s, t, k);
      }
    }
  }

  lemma PlacedKnows(s: Sys)
    requires Placed(s)
    ensures Known(s)
  {
    forall d <- s.directs
      ensures Of(s.server, s.directs[d].inst, s.directs[d].key)
    {
      PlacedDirect(s, d);
    }
  }

  lemma {:induction false} RunPlaced(trace: seq<Sys>, steps: seq<Step>, n: nat)
    requires IsRun(trace, steps) && n < |trace|
    ensures Placed(trace[n])
    decreases n
  {
    if n == 0 {
      StartPlaced();
    } else {
      hide Placed, Apply;
      RunPlaced(trace, steps, n - 1);
      PlacedStep(trace[n - 1], steps[n - 1]);
    }
  }

  lemma StartPlaced()
    ensures Placed(Init())
  {
  }

  // ---- theorems

  /** Somebody who may call the provider for a claim. */
  datatype Holder = HeldByResolver(k: Key) | HeldByDirect(d: nat)

  /** The holder may call the provider for claim `inst`. */
  predicate MayAnswer(s: Sys, h: Holder, inst: nat) {
    match h
    case HeldByResolver(k) =>
      k in s.resolvers && s.resolvers[k].inst == inst &&
      (s.resolvers[k].pc.AutoCall? || s.resolvers[k].pc.Answering? || s.resolvers[k].pc.FileCall?)
    case HeldByDirect(d) => d in s.directs && s.directs[d].inst == inst
  }

  /** In every run at most one party has the right to answer the provider for a claim: the
      automatic, control or file resolver and a direct delivery always exclude each other,
      and two deliveries do unless a late failure put the claim back. */
  lemma {:induction false} OneHolder(trace: seq<Sys>, steps: seq<Step>, n: nat, inst: nat, g: Holder, h: Holder)
    requires IsRun(trace, steps) && n < |trace|
    requires MayAnswer(trace[n], g, inst) && MayAnswer(trace[n], h, inst)
    ensures g == h || (g.HeldByDirect? && h.HeldByDirect? && inst in trace[n].reopened)
  {
    RunPlaced(trace, steps, n);
    hide IsRun, Sound;
    var s := trace[n];
    HolderKey(s, inst, g);
    HolderKey(s, inst, h);
    SameHolder(s, inst, g, h);
  }

  /** A holder's claim is of its key. */
  lemma HolderKey(s: Sys, inst: nat, h: Holder)
    requires Placed(s) && MayAnswer(s, h, inst)
    ensures Of(s.server, inst, if h.HeldByResolver? then h.k else s.directs[h.d].key)
  {
    hide Sound;
    if h.HeldByResolver? {
      PlacedResolver(s, h.k);
    } else {
      PlacedDirect(s, h.d);
    }
  }

  lemma SameHolder(s: Sys, inst: nat, g: Holder, h: Holder)
    requires Placed(s) && MayAnswer(s, g, inst) && MayAnswer(s, h, inst)
    requires Of(s.server, inst, if g.HeldByResolver? then g.k else s.directs[g.d].key)
    requires Of(s.server, inst, if h.HeldByResolver? then h.k else s.directs[h.d].key)
    ensures g == h || (g.HeldByDirect? && h.HeldByDirect? && inst in s.reopened)
  {
    var k := s.server.heap[inst].key;
    SoundWell(s);
    assert Places(s, k);
    hide Sound, InPlace, DirectOk, TableOk;
  }

  /** A late completion marked or put back the claim. */
  predicate Struck(s: Sys, i: nat) {
    i in s.overtaken || i in s.reopened
  }

  /** The step completes a delivery that finds claim `i` under its key although it delivered for
      another claim; a success marks it, and a failure puts it back if it is under delivery. */
  predicate Strikes(s: Sys, st: Step, i: nat, ok: bool)
    requires WellFormed(s.server)
  {
    && st.DirectDone? && st.ok == ok && Late(s, st.d) && s.server.table[s.directs[st.d].key] == i
    && (ok || StateOf(s.server, s.directs[st.d].key) == DirectDelivery)
  }

  /** Step `m` of the run strikes claim `i`. */
  ghost predicate StrikesAt(trace: seq<Sys>, steps: seq<Step>, m: nat, i: nat, ok: bool) {
    m < |steps| && m < |trace| && WellFormed(trace[m].server) && Strikes(trace[m], steps[m], i, ok)
  }

  /** A claim was overtaken or put back exactly if some step of the run did that. */
  lemma {:induction false} StruckOnlyWhenLate(trace: seq<Sys>, steps: seq<Step>, n: nat, i: nat)
    requires IsRun(trace, steps) && n < |trace|
    ensures i in trace[n].overtaken <==> exists m | 0 <= m < n :: StrikesAt(trace, steps, m, i, true)
    ensures i in trace[n].reopened <==> exists m | 0 <= m < n :: StrikesAt(trace, steps, m, i, false)
    decreases n
  {
    hide *;
    LengthOf(trace, steps);
    if n == 0 {
      NothingStruck(trace, steps);
    } else {
      StruckOnlyWhenLate(trace, steps, n - 1, i);
      RunStep(trace, steps, n - 1);
      StruckNow(trace, steps, n - 1, i);
    }
  }

  lemma NothingStruck(trace: seq<Sys>, steps: seq<Step>)
    requires IsRun(trace, steps)
    ensures |trace| > 0 && trace[0].overtaken == {} && trace[0].reopened == {}
  {
    hide Apply;
  }

  lemma StruckNow(trace: seq<Sys>, steps: seq<Step>, m: nat, i: nat)
    requires m < |steps| && m < |trace| && WellFormed(trace[m].server) && Enabled(trace[m], steps[m])
    ensures i in Apply(trace[m], steps[m]).overtaken <==> i in trace[m].overtaken || StrikesAt(trace, steps, m, i, true)
    ensures i in Apply(trace[m], steps[m]).reopened <==> i in trace[m].reopened || StrikesAt(trace, steps, m, i, false)
  {
    StruckBy(trace[m], steps[m]);
    hide Apply;
  }

  lemma StruckBy(s: Sys, st: Step)
    requires WellFormed(s.server) && Enabled(s, st)
    ensures Apply(s, st).overtaken == if st.DirectDone? then s.overtaken + Overtakes(s, st.d, st.ok) else s.overtaken
    ensures Apply(s, st).reopened == if st.DirectDone? then s.reopened + Reopens(s, st.d, st.ok) else s.reopened
  {
    hide Moved, Deliver, Mark, Retry, Prepare, Clear, SignalAll, Overtakes, Reopens, Discarded;
    if st.Resolving? {
      MoveStrikes(s, st.k, st.move);
    }
  }

  lemma MoveStrikes(s: Sys, k: Key, m: Move)
    requires WellFormed(s.server) && CanMove(s, k, m)
    ensures Moved(s, k, m).overtaken == s.overtaken && Moved(s, k, m).reopened == s.reopened
  {
    hide Mark, Prepare, Handoff, Begin, End, SetState, KindOf, AutoOption, Discarded;
  }

  /** A key's claim is replaced by another only when no delivery of it is under way, unless it
      was struck. */
  lemma {:induction false} ReplacedOnlyWhenDelivered(trace: seq<Sys>, steps: seq<Step>, n: nat, k: Key, d: nat)
    requires IsRun(trace, steps) && n < |steps|
    requires k in trace[n].server.table && k in trace[n + 1].server.table
    requires trace[n].server.table[k] != trace[n + 1].server.table[k]
    requires d in trace[n].directs && trace[n].directs[d].inst == trace[n].server.table[k]
    ensures Struck(trace[n], trace[n].server.table[k])
  {
    ReplacedOnlyWhenResolved(trace, steps, n, k);
    RunPlaced(trace, steps, n);
    PlacedDirect(trace[n], d);
  }

  /** A request that waited for a delivery and now gets a claim finds no delivery of the claim
      it waited for under way, unless that one was struck. */
  lemma {:induction false} WaiterFindsDeliveryOver(trace: seq<Sys>, steps: seq<Step>, n: nat, k: Key, sawClient: bool, d: nat)
    requires IsRun(trace, steps) && n < |steps| && steps[n] == Resolving(k, Resume(sawClient))
    requires |trace[n + 1].server.heap| > |trace[n].server.heap|
    requires k in trace[n].resolvers && d in trace[n].directs && trace[n].directs[d].inst == trace[n].resolvers[k].inst
    ensures Struck(trace[n], trace[n].resolvers[k].inst)
  {
    RunPlaced(trace, steps, n);
    var s := trace[n];
    PlacedDirect(s, d);
    PlacedResolver(s, k);
    assert Places(s, k);
    assert trace[n + 1] == Apply(s, steps[n]);
    PreparesOnlyOver(s, k, sawClient);
  }

  /** A request that goes on prepares a claim only if the one it waited for was not abandoned and
      the key holds no delivery. */
  lemma PreparesOnlyOver(s: Sys, k: Key, sawClient: bool)
    requires WellFormed(s.server) && CanMove(s, k, Resume(sawClient)) && TableOk(s, k)
    requires |Moved(s, k, Resume(sawClient)).server.heap| > |s.server.heap|
    ensures !s.server.heap[s.resolvers[k].inst].abandoned && (k in s.server.table ==> StateOf(s.server, k) == Resolved)
  {
  }

  /** Nobody records a second resolution on a resolved claim, unless a completion struck it. */
  lemma {:induction false} ResolvedIsFinal(trace: seq<Sys>, steps: seq<Step>, n: nat, k: Key)
    requires IsRun(trace, steps) && n < |steps|
    requires WellFormed(trace[n].server) && StateOf(trace[n].server, k) == Resolved && Enabled(trace[n], steps[n])
    requires Marks(trace[n], steps[n], k)
    ensures Struck(trace[n + 1], trace[n].server.table[k])
  {
    RunPlaced(trace, steps, n);
    assert trace[n + 1] == Apply(trace[n], steps[n]);
    hide IsRun, Apply;
    StruckBy(trace[n], steps[n]);
    MarkedAgain(trace[n], steps[n], k);
  }

  lemma MarkedAgain(s: Sys, st: Step, k: Key)
    requires Placed(s) && WellFormed(s.server) && StateOf(s.server, k) == Resolved && Enabled(s, st) && Marks(s, st, k)
    ensures Struck(s, s.server.table[k]) || (st.DirectDone? && s.server.table[k] in Overtakes(s, st.d, st.ok))
  {
    assert Places(s, k);
    hide Sound;
    if st.DirectDone? {
      PlacedDirect(s, st.d);
    }
    hide DirectsOk, TableOk, Fits;
  }
}
