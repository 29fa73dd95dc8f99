/** What becomes of an accepted answer, in every run.  An answer that a client was told is
    delivered waits in its claim's channel, is taken by the claim's resolver, and is given to
    the provider as it is; it is lost exactly when a completion of another claim's delivery
    marks the claim while the answer waits. */
module PermissionAnswers {
  import opened Common
  import opened PermissionClaims
  import opened PermissionProtocol
  import opened PermissionExclusion

  // ---- the invariant, key by key

  /** The resolver has not looked at its answer channel for the last time. */
  predicate StillListens(pc: Pc) {
    pc.Publishing? || pc.Check? || pc.BeginControl? || pc.Waiting? || pc.HandOver?
  }

  /** The answer names an option that neither allows nor rejects. */
  ghost predicate Undecided(s: Sys, e: Accepted) {
    e.inst in s.options && KindOf(e.answer.optionID, s.options[e.inst]) == OtherKind
  }

  /** The answer waits where the claim's resolver will look, or the resolver has it. */
  ghost predicate InHand(s: Sys, k: Key, e: Accepted)
    requires e.inst < |s.server.heap|
  {
    && k in s.resolvers && s.resolvers[k].inst == e.inst
    && (|| s.resolvers[k].pc == Answering(e.answer)
        || (StillListens(s.resolvers[k].pc) && s.server.heap[e.inst].answerCh.buf == [e.answer]))
  }

  /** What became of an accepted answer. */
  ghost predicate Tracked(s: Sys, k: Key, e: Accepted)
    requires e.inst < |s.server.heap|
  {
    e.inst in s.removed || Call(e.inst, ByControl, e.answer) in s.calls || Undecided(s, e) || InHand(s, k, e) || e.inst in s.drained
  }

  /** The claim's answer was taken, and no other will come. */
  predicate Spent(c: Claim) {
    (c.answerQueued || c.state == Resolved) && c.answerCh.buf == []
  }

  /** A waiting answer is an accepted one, in a claim under control. */
  ghost predicate QueuedOk(s: Sys, k: Key) {
    forall i: nat | Of(s.server, i, k) && s.server.heap[i].answerCh.buf != [] ::
      Accepted(i, s.server.heap[i].answerCh.buf[0]) in s.accepted && UnderControl(s.server.heap[i].state)
  }

  /** Accepted answers carry their request's ID, which is not empty. */
  ghost predicate NamedOk(s: Sys, k: Key) {
    && (forall i: nat | Of(s.server, i, k) :: k.requestID != "")
    && (forall e <- s.accepted | Of(s.server, e.inst, k) :: e.answer.requestID == k.requestID)
  }

  /** An answer in a resolver's hands or given to the provider was taken from its claim. */
  ghost predicate TakenOk(s: Sys, k: Key) {
    && (k in s.resolvers && s.resolvers[k].pc.Answering? && s.resolvers[k].pc.answer.requestID != "" ==>
          s.resolvers[k].inst < |s.server.heap| && Spent(s.server.heap[s.resolvers[k].inst]))
    && (forall c <- s.calls | Of(s.server, c.inst, k) && c.party == ByControl && c.answer.requestID != "" ::
          Spent(s.server.heap[c.inst]))
  }

  ghost predicate TrackedOk(s: Sys, k: Key) {
    forall e <- s.accepted | Of(s.server, e.inst, k) :: Tracked(s, k, e)
  }

  /** A discarded answer is gone: it is not with a resolver and was not given to the provider. */
  ghost predicate DrainedOk(s: Sys, k: Key) {
    && (forall i <- s.drained | Of(s.server, i, k) :: s.server.heap[i].state == Resolved)
    && (forall e <- s.accepted | Of(s.server, e.inst, k) && e.inst in s.drained :: Gone(s, k, e))
  }

  ghost predicate Gone(s: Sys, k: Key, e: Accepted) {
    && Call(e.inst, ByControl, e.answer) !in s.calls
    && (k in s.resolvers && s.resolvers[k].inst == e.inst ==> s.resolvers[k].pc != Answering(e.answer))
  }

  ghost predicate Answers(s: Sys, k: Key) {
    QueuedOk(s, k) && NamedOk(s, k) && TakenOk(s, k) && TrackedOk(s, k) && DrainedOk(s, k)
  }

  ghost predicate Accounted(s: Sys) {
    Placed(s) && Dated(s) && forall k: Key :: Answers(s, k)
  }

  // ---- calm steps

  ghost predicate CalmClaim(c: Claim, d: Claim) {
    && d.answerCh.buf == c.answerCh.buf
    && (c.answerQueued || c.state == Resolved ==> d.answerQueued || d.state == Resolved)
    && (c.answerCh.buf != [] && UnderControl(c.state) ==> UnderControl(d.state))
    && (c.state == Resolved ==> d.state == Resolved)
  }

  /** The claims of `k` keep the answers they hold; new ones have none. */
  ghost predicate CalmClaims(s: Server, t: Server, k: Key) {
    && |s.heap| <= |t.heap|
    && (forall i | 0 <= i < |s.heap| :: t.heap[i].key == s.heap[i].key)
    && (forall i: nat | Of(s, i, k) :: CalmClaim(s.heap[i], t.heap[i]))
    && (forall i | |s.heap| <= i < |t.heap| && t.heap[i].key == k :: t.heap[i].answerCh.buf == [] && k.requestID != "")
  }

  /** The resolver of `k` forgets no answer and takes none. */
  ghost predicate CalmResolver(s: Sys, t: Sys, k: Key) {
    && (k in t.resolvers && t.resolvers[k].pc.Answering? && t.resolvers[k].pc.answer.requestID != "" ==>
          k in s.resolvers && s.resolvers[k] == t.resolvers[k])
    && (k in s.resolvers ==>
          var r := s.resolvers[k];
          && (r.pc.Answering? ==> k in t.resolvers && t.resolvers[k] == r)
          && (StillListens(r.pc) && r.inst < |s.server.heap| && s.server.heap[r.inst].answerCh.buf != [] ==>
                r.inst in t.removed || (k in t.resolvers && t.resolvers[k].inst == r.inst && StillListens(t.resolvers[k].pc))))
  }

  ghost predicate CalmHistory(s: Sys, t: Sys, k: Key) {
    && (forall e <- s.accepted :: e in t.accepted)
    && (forall e <- t.accepted | Of(t.server, e.inst, k) :: e in s.accepted)
    && (forall i: nat | Of(s.server, i, k) :: i in t.drained <==> i in s.drained)
    && (forall i <- t.drained | Of(t.server, i, k) :: i in s.drained && i < |s.server.heap|)
    && s.removed <= t.removed
    && (forall i <- s.options | Of(s.server, i, k) :: i in t.options && t.options[i] == s.options[i])
    && (forall c <- s.calls :: c in t.calls)
    && (forall c <- t.calls | Of(t.server, c.inst, k) && c.party == ByControl :: c in s.calls)
  }

  /** Inst numbers in the history are of claims that exist. */
  ghost predicate Dated(s: Sys) {
    (forall e <- s.accepted :: e.inst < |s.server.heap|) && (forall c <- s.calls :: c.inst < |s.server.heap|)
    && (forall i <- s.drained :: i < |s.server.heap|)
  }

  lemma CalmAnswers(s: Sys, t: Sys, k: Key)
    requires Answers(s, k) && CalmClaims(s.server, t.server, k) && CalmResolver(s, t, k) && CalmHistory(s, t, k) && Dated(s)
    requires k in t.resolvers ==> Of(t.server, t.resolvers[k].inst, k)
    ensures Answers(t, k)
  {
    CalmTracked(s, t, k);
    CalmQueued(s, t, k);
    CalmTaken(s, t, k);
    CalmDrained(s, t, k);
  }

  lemma CalmTracked(s: Sys, t: Sys, k: Key)
    requires Answers(s, k) && CalmClaims(s.server, t.server, k) && CalmResolver(s, t, k) && CalmHistory(s, t, k) && Dated(s)
    ensures TrackedOk(t, k)
  {
    hide KindOf, Spent, QueuedOk, TakenOk, DrainedOk;
    forall e <- t.accepted | Of(t.server, e.inst, k)
      ensures Tracked(t, k, e)
    {
      assert e in s.accepted && Of(s.server, e.inst, k);
      assert Tracked(s, k, e);
      assert CalmClaim(s.server.heap[e.inst], t.server.heap[e.inst]);
    }
  }

  lemma CalmQueued(s: Sys, t: Sys, k: Key)
    requires Answers(s, k) && CalmClaims(s.server, t.server, k) && CalmHistory(s, t, k) && Dated(s)
    ensures QueuedOk(t, k) && NamedOk(t, k)
  {
    hide TrackedOk, TakenOk, DrainedOk;
    forall i: nat | Of(t.server, i, k) && t.server.heap[i].answerCh.buf != []
      ensures Accepted(i, t.server.heap[i].answerCh.buf[0]) in t.accepted && UnderControl(t.server.heap[i].state)
    {
      assert Of(s.server, i, k);
      assert CalmClaim(s.server.heap[i], t.server.heap[i]);
    }
    forall i: nat | Of(t.server, i, k)
      ensures k.requestID != ""
    {
      assert i < |s.server.heap| ==> Of(s.server, i, k);
    }
    forall e <- t.accepted | Of(t.server, e.inst, k)
      ensures e.answer.requestID == k.requestID
    {
      assert Of(s.server, e.inst, k);
    }
  }

  lemma CalmTaken(s: Sys, t: Sys, k: Key)
    requires Answers(s, k) && CalmClaims(s.server, t.server, k) && CalmResolver(s, t, k) && CalmHistory(s, t, k) && Dated(s)
    requires k in t.resolvers ==> Of(t.server, t.resolvers[k].inst, k)
    ensures TakenOk(t, k)
  {
    hide TrackedOk, QueuedOk, DrainedOk;
    forall c <- t.calls | Of(t.server, c.inst, k) && c.party == ByControl && c.answer.requestID != ""
      ensures Spent(t.server.heap[c.inst])
    {
      assert c in s.calls && Of(s.server, c.inst, k);
      assert CalmClaim(s.server.heap[c.inst], t.server.heap[c.inst]);
    }
    if k in t.resolvers && t.resolvers[k].pc.Answering? && t.resolvers[k].pc.answer.requestID != "" {
      assert Of(s.server, s.resolvers[k].inst, k);
      assert CalmClaim(s.server.heap[s.resolvers[k].inst], t.server.heap[s.resolvers[k].inst]);
    }
  }

  lemma CalmDrained(s: Sys, t: Sys, k: Key)
    requires Answers(s, k) && CalmClaims(s.server, t.server, k) && CalmResolver(s, t, k) && CalmHistory(s, t, k) && Dated(s)
    ensures DrainedOk(t, k)
  {
    hide TrackedOk, QueuedOk;
    forall i <- t.drained | Of(t.server, i, k)
      ensures t.server.heap[i].state == Resolved
    {
      assert Of(s.server, i, k);
      assert CalmClaim(s.server.heap[i], t.server.heap[i]);
    }
    forall e <- t.accepted | Of(t.server, e.inst, k) && e.inst in t.drained
      ensures Gone(t, k, e)
    {
      assert Of(s.server, e.inst, k) && e in s.accepted && e.inst in s.drained;
      assert Gone(s, k, e);
    }
  }

  /** From `s` to `t` nothing happens to the answers of `k`. */
  ghost predicate Calm(s: Sys, t: Sys, k: Key) {
    && CalmClaims(s.server, t.server, k) && CalmResolver(s, t, k) && CalmHistory(s, t, k)
    && (k in t.resolvers ==> Of(t.server, t.resolvers[k].inst, k))
  }

  lemma CalmKeeps(s: Sys, t: Sys, k: Key)
    requires Answers(s, k) && Calm(s, t, k) && Dated(s)
    ensures Answers(t, k)
  {
    hide Answers, CalmClaims, CalmResolver, CalmHistory, Dated;
    CalmAnswers(s, t, k);
  }

  lemma SameCalm(s: Sys, t: Sys, k: Key)
    requires SameFor(s, t, k) && Dated(s) && (k in t.resolvers ==> Of(t.server, t.resolvers[k].inst, k))
    requires forall i <- t.drained :: i < |s.server.heap|
    ensures Calm(s, t, k)
  {
  }

  // ---- calm steps about a key

  /** The history is the same but for removals, provider calls of other parties and strikes. */
  ghost predicate QuietHistory(s: Sys, t: Sys, k: Key) {
    && t.accepted == s.accepted && t.drained == s.drained && s.removed <= t.removed && s.calls <= t.calls
    && (forall n | |s.calls| <= n < |t.calls| :: t.calls[n].party != ByControl)
    && (forall i <- s.options | Of(s.server, i, k) :: i in t.options && t.options[i] == s.options[i])
  }

  lemma QuietCalm(s: Sys, t: Sys, k: Key)
    requires QuietHistory(s, t, k) && Dated(s)
    ensures CalmHistory(s, t, k)
  {
    assert t.calls == s.calls + t.calls[|s.calls|..];
  }

  lemma SameClaimsCalm(s: Server, k: Key)
    ensures CalmClaims(s, s, k)
  {
  }

  lemma UpdateCalm(s: Server, i: nat, c: Claim, k: Key)
    requires i < |s.heap| && c.key == s.heap[i].key && CalmClaim(s.heap[i], c)
    ensures CalmClaims(s, Update(s, i, c), k)
  {
  }

  lemma NewCalm(s: Server, t: Server, k: Key)
    requires |t.heap| == |s.heap| + 1 && t.heap[..|s.heap|] == s.heap && t.heap[|s.heap|].answerCh.buf == [] && k.requestID != ""
    ensures CalmClaims(s, t, k)
  {
    assert forall i | 0 <= i < |s.heap| :: t.heap[i] == t.heap[..|s.heap|][i];
  }

  lemma EndCalm(s: Server, k: Key)
    requires WellFormed(s)
    ensures CalmClaims(s, End(s, k), k)
  {
  }

  /** A resolver that may be listening to a waiting answer listens to its own claim, under control,
      or lost it. */
  lemma ListensInPlace(s: Sys, k: Key)
    requires WellFormed(s.server) && Places(s, k) && Answers(s, k) && k in s.resolvers && !s.resolvers[k].pc.AwaitDirect?
    requires s.server.heap[s.resolvers[k].inst].answerCh.buf != []
    ensures s.resolvers[k].inst in s.removed ||
      (k in s.server.table && s.server.table[k] == s.resolvers[k].inst && UnderControl(s.server.heap[s.resolvers[k].inst].state)
       && InPlace(s.resolvers[k], s.server.heap[s.resolvers[k].inst]))
  {
    hide InPlace, Fits, TrackedOk, TakenOk, DrainedOk, DirectsOk;
    assert Of(s.server, s.resolvers[k].inst, k);
  }

  /** A step of a resolver that has no answer to look for, or none to find. */
  lemma IdleResolverCalm(s: Sys, t: Sys, k: Key)
    requires CalmClaims(s.server, t.server, k) && QuietHistory(s, t, k) && Dated(s)
    requires k in s.resolvers ==> !s.resolvers[k].pc.Answering?
    requires k in s.resolvers && StillListens(s.resolvers[k].pc) ==>
      s.resolvers[k].inst < |s.server.heap| && (s.server.heap[s.resolvers[k].inst].answerCh.buf == [] || s.resolvers[k].inst in t.removed)
    requires k in t.resolvers ==> !t.resolvers[k].pc.Answering? && Of(t.server, t.resolvers[k].inst, k)
    ensures Calm(s, t, k)
  {
    hide CalmClaims, CalmHistory, QuietHistory, Dated, StillListens;
    QuietCalm(s, t, k);
    QuietRemovals(s, t, k);
  }

  lemma QuietRemovals(s: Sys, t: Sys, k: Key)
    requires QuietHistory(s, t, k)
    ensures s.removed <= t.removed
  {
  }

  lemma LeaveCalm(s: Sys, k: Key)
    requires WellFormed(s.server) && Places(s, k) && Dated(s)
    requires k in s.resolvers ==> !StillListens(s.resolvers[k].pc) && !s.resolvers[k].pc.Answering?
    ensures Calm(s, Leave(s, k), k)
  {
    hide Places;
    SameClaimsCalm(s.server, k);
    QuietCalm(s, Leave(s, k), k);
  }

  lemma RequestClaims(s: Sys, k: Key, r: Resolver, sawClient: bool, afterDirect: bool)
    requires WellFormed(s.server) && k.requestID != ""
    ensures var t := PrepareOrWait(s, k, r, sawClient, afterDirect);
      CalmClaims(s.server, t.server, k) && (k in t.resolvers ==> t.resolvers[k].inst < |t.server.heap| && Of(t.server, t.resolvers[k].inst, k))
  {
    hide Prepare, CalmClaims;
    var t := PrepareOrWait(s, k, r, sawClient, afterDirect);
    var st := EffectiveState(r.auto, sawClient, r.hasFile);
    SameClaimsCalm(s.server, k);
    if !(afterDirect && DeliveryInFlight(s.server, k)) && Prepare(s.server, k, st, Some(r.options)).1 {
      PrepareShape(s.server, k, st, Some(r.options));
      NewCalm(s.server, t.server, k);
    }
  }

  lemma RequestShape(s: Sys, k: Key, r: Resolver, sawClient: bool, afterDirect: bool)
    requires WellFormed(s.server)
    ensures var t := PrepareOrWait(s, k, r, sawClient, afterDirect);
      QuietHistory(s, t, k) && (k in t.resolvers ==> !t.resolvers[k].pc.Answering?)
  {
    hide Prepare;
  }

  lemma RequestCalm(s: Sys, k: Key, r: Resolver, sawClient: bool, afterDirect: bool)
    requires WellFormed(s.server) && Dated(s) && k.requestID != ""
    requires k in s.resolvers ==> s.resolvers[k].pc.AwaitDirect?
    ensures Calm(s, PrepareOrWait(s, k, r, sawClient, afterDirect), k)
  {
    var t := PrepareOrWait(s, k, r, sawClient, afterDirect);
    RequestClaims(s, k, r, sawClient, afterDirect);
    RequestShape(s, k, r, sawClient, afterDirect);
    hide CalmClaims, CalmHistory, PrepareOrWait, QuietHistory;
    QuietCalm(s, t, k);
  }

  lemma IdleCalm(s: Sys, k: Key, options: seq<OptionSpec>)
    requires WellFormed(s.server) && Dated(s) && k.requestID != "" && k !in s.resolvers
    ensures Calm(s, s.(server := Prepare(s.server, k, NoResolver, Some(options)).0), k)
  {
    hide Prepare, CalmClaims, CalmHistory;
    var t := s.(server := Prepare(s.server, k, NoResolver, Some(options)).0);
    SameClaimsCalm(s.server, k);
    if Prepare(s.server, k, NoResolver, Some(options)).1 {
      PrepareShape(s.server, k, NoResolver, Some(options));
      NewCalm(s.server, t.server, k);
    }
    QuietCalm(s, t, k);
  }

  lemma PlainCalm(s: Sys, k: Key, m: Move)
    requires WellFormed(s.server) && Places(s, k) && Answers(s, k) && Dated(s) && CanMove(s, k, m) && Plain(m) && !m.ControlAnswer?
    ensures Calm(s, Moved(s, k, m), k)
  {
    hide CalmClaims, CalmHistory, Places, Answers, KindOf, AutoOption;
    PlainMove(s, k, m);
    var t := Moved(s, k, m);
    SameClaimsCalm(s.server, k);
    QuietCalm(s, t, k);
    PlainListens(s, k, m);
    ResolverKnown(s, k);
  }

  lemma ResolverKnown(s: Sys, k: Key)
    requires WellFormed(s.server) && Places(s, k) && k in s.resolvers
    ensures Of(s.server, s.resolvers[k].inst, k)
  {
    hide InPlace, Fits, DirectsOk, TableOk;
  }

  /** A plain move does not turn away from a waiting answer. */
  lemma PlainListens(s: Sys, k: Key, m: Move)
    requires WellFormed(s.server) && Places(s, k) && Answers(s, k) && CanMove(s, k, m) && Plain(m) && !m.ControlAnswer?
    ensures var r := s.resolvers[k]; var pc := PlainNext(s, k, m);
      && !pc.Answering? && !r.pc.Answering?
      && (StillListens(r.pc) && s.server.heap[r.inst].answerCh.buf != [] ==> r.inst in s.removed || StillListens(pc))
  {
    var r := s.resolvers[k];
    if StillListens(r.pc) && s.server.heap[r.inst].answerCh.buf != [] {
      ListensInPlace(s, k);
    }
    hide Answers, DirectsOk, KindOf;
  }

  lemma RemoveCalm(s: Sys, k: Key)
    requires WellFormed(s.server) && Places(s, k) && Dated(s)
    ensures Calm(s, Remove(s, k), k)
  {
    hide CalmClaims, CalmHistory, Places;
    EndCalm(s.server, k);
    SameClaimsCalm(s.server, k);
    QuietCalm(s, Remove(s, k), k);
    if k in s.resolvers {
      ResolverKnown(s, k);
    }
  }

  lemma PublishFailedCalm(s: Sys, k: Key)
    requires WellFormed(s.server) && Places(s, k) && Dated(s) && k in s.resolvers && s.resolvers[k].pc.Publishing?
    ensures Calm(s, Remove(Leave(s, k), k), k)
  {
    hide CalmClaims, CalmHistory;
    EndCalm(s.server, k);
    SameClaimsCalm(s.server, k);
    QuietCalm(s, Remove(Leave(s, k), k), k);
    hide InPlace, Fits, DirectsOk, TableOk;
  }

  lemma EnterCalm(s: Sys, k: Key)
    requires WellFormed(s.server) && Places(s, k) && Answers(s, k) && Dated(s) && k in s.resolvers && s.resolvers[k].pc.BeginControl?
    ensures Calm(s, EnterControl(s, k), k)
  {
    var t := EnterControl(s, k);
    var r := s.resolvers[k];
    EnterClaims(s, k);
    ResolverKnown(s, k);
    if s.server.heap[r.inst].answerCh.buf != [] {
      ListensInPlace(s, k);
    }
    EnterOptions(s, k);
    QuietCalm(s, t, k);
    hide CalmClaims, CalmHistory, Answers, Places;
  }

  lemma EnterClaims(s: Sys, k: Key)
    requires WellFormed(s.server) && Places(s, k) && Answers(s, k) && k in s.resolvers
    ensures CalmClaims(s.server, EnterControl(s, k).server, k)
  {
    hide CalmClaims;
    ResolverKnown(s, k);
    SameClaimsCalm(s.server, k);
    var t := EnterControl(s, k);
    assert k.requestID != "";
    if k !in s.server.table {
      assert t.server.heap[..|s.server.heap|] == s.server.heap;
      NewCalm(s.server, t.server, k);
    } else if StateOf(s.server, k) == Reserved {
      var i := s.server.table[k];
      UpdateCalm(s.server, i, t.server.heap[i], k);
    }
  }

  lemma EnterOptions(s: Sys, k: Key)
    requires WellFormed(s.server) && Places(s, k) && k in s.resolvers && s.resolvers[k].pc.BeginControl? && Dated(s)
    ensures QuietHistory(s, EnterControl(s, k), k)
    ensures k in EnterControl(s, k).resolvers && Of(EnterControl(s, k).server, EnterControl(s, k).resolvers[k].inst, k)
  {
    hide InPlace, Fits, DirectsOk;
  }

  lemma StampClaims(s: Sys, k: Key)
    requires WellFormed(s.server) && Places(s, k) && CanMove(s, k, Stamp)
    ensures CalmClaims(s.server, Stamped(s, k).server, k)
  {
    hide CalmClaims, DirectsOk, SetState, End;
    EndCalm(s.server, k);
    SameClaimsCalm(s.server, k);
    if s.resolvers[k].pc.FileStamp? {
      StampSame(s, k, File);
    } else {
      StampSame(s, k, NoResolver);
    }
  }

  lemma StampShape(s: Sys, k: Key)
    requires WellFormed(s.server) && CanMove(s, k, Stamp)
    ensures QuietHistory(s, Stamped(s, k), k) && k in s.resolvers
    ensures k in Stamped(s, k).resolvers ==> Stamped(s, k).resolvers[k] == s.resolvers[k].(pc := FileCall)
    ensures !s.resolvers[k].pc.Answering? && !StillListens(s.resolvers[k].pc)
  {
    hide SetState, End;
  }

  lemma StampCalm(s: Sys, k: Key)
    requires WellFormed(s.server) && Places(s, k) && Dated(s) && CanMove(s, k, Stamp)
    ensures Calm(s, Stamped(s, k), k)
  {
    hide CalmClaims, CalmHistory, Places, Stamped, QuietHistory, Calm, Dated;
    var t := Stamped(s, k);
    hide CanMove;
    StampClaims(s, k);
    StampShape(s, k);
    ResolverKnown(s, k);
    CalmKeys(s.server, t.server, k);
    IdleResolverCalm(s, t, k);
  }

  lemma CalmKeys(s: Server, t: Server, k: Key)
    requires CalmClaims(s, t, k)
    ensures forall i: nat | Of(s, i, k) :: Of(t, i, k)
  {
  }

  /** A mark by the resolver itself discards nothing. */
  lemma OwnMarkDiscardsNothing(s: Sys, k: Key)
    requires WellFormed(s.server) && Places(s, k) && Answers(s, k) && k in s.resolvers
    requires s.resolvers[k].pc.AutoMark? || s.resolvers[k].pc.ControlMark? || s.resolvers[k].pc.FileMark?
    ensures k in s.server.table ==> s.server.heap[s.server.table[k]].answerCh.buf == []
  {
    if k in s.server.table {
      assert Of(s.server, s.server.table[k], k);
    }
    hide TrackedOk, TakenOk, DrainedOk, NamedOk, DirectsOk, Fits;
  }

  lemma MarkCalm(s: Server, k: Key, res: Resolution)
    requires WellFormed(s) && (k in s.table ==> s.heap[s.table[k]].answerCh.buf == [])
    ensures CalmClaims(s, Mark(s, k, res).0, k)
  {
    SameClaimsCalm(s, k);
    if k in s.table {
      UpdateCalm(s, s.table[k], Resolve(s.heap[s.table[k]], res), k);
    }
  }

  lemma FinishCalm(s: Sys, k: Key)
    requires WellFormed(s.server) && Places(s, k) && Answers(s, k) && Dated(s) && CanMove(s, k, Finish)
    ensures Calm(s, Moved(s, k, Finish), k)
  {
    var r := s.resolvers[k];
    var t := Moved(s, k, Finish);
    EndCalm(s.server, k);
    if !r.pc.Ending? {
      OwnMarkDiscardsNothing(s, k);
      MarkCalm(s.server, k, ResolutionOf(r));
    }
    hide CalmClaims, CalmHistory, Places, Answers, End, Mark;
    assert s.drained + {} == s.drained;
    QuietCalm(s, t, k);
  }

  lemma GiveNothingCalm(s: Sys, k: Key)
    requires WellFormed(s.server) && Places(s, k) && Answers(s, k) && Dated(s) && k in s.resolvers && s.resolvers[k].pc.HandOver?
    requires k in s.server.table && StateOf(s.server, k) == Control ==> s.server.heap[s.resolvers[k].inst].answerCh.buf == []
    ensures Calm(s, GiveUpControl(s, k), k)
  {
    var t := GiveUpControl(s, k);
    var r := s.resolvers[k];
    GiveNothingClaims(s, k);
    ResolverKnown(s, k);
    if s.server.heap[r.inst].answerCh.buf != [] {
      ListensInPlace(s, k);
    }
    GiveShape(s, k);
    hide CalmClaims, CalmHistory, Places, Answers, Handoff, GiveUpControl, QuietHistory, Calm, InPlace;
    CalmKeys(s.server, t.server, k);
    QuietRemovals(s, t, k);
    IdleResolverCalm(s, t, k);
  }

  lemma GiveShape(s: Sys, k: Key)
    requires WellFormed(s.server) && k in s.resolvers && s.resolvers[k].pc.HandOver?
    ensures QuietHistory(s, GiveUpControl(s, k), k)
  {
    hide Handoff;
  }

  lemma GiveNothingClaims(s: Sys, k: Key)
    requires WellFormed(s.server) && Places(s, k) && k in s.resolvers && s.resolvers[k].pc.HandOver?
    requires k in s.server.table && StateOf(s.server, k) == Control ==> s.server.heap[s.resolvers[k].inst].answerCh.buf == []
    ensures CalmClaims(s.server, GiveUpControl(s, k).server, k) && GiveUpControl(s, k).resolvers.Keys <= s.resolvers.Keys
    ensures k in GiveUpControl(s, k).resolvers ==>
      GiveUpControl(s, k).resolvers[k] == s.resolvers[k].(pc := Fallback(s.resolvers[k]))
    ensures InPlace(s.resolvers[k], s.server.heap[s.resolvers[k].inst]) && k in s.server.table && s.server.table[k] == s.resolvers[k].inst
      ==> s.server.heap[s.resolvers[k].inst].answerCh.buf == []
  {
    var r := s.resolvers[k];
    var c := s.server.heap[r.inst];
    hide DirectsOk, Fits, CalmClaims;
    SameClaimsCalm(s.server, k);
    UpdateCalm(s.server, r.inst, if c.answerCh.buf == [] then c.(state := if c.state == Resolved then Resolved else NextOwner(r)) else c, k);
    TableCalm(s.server, s.server.table - {k}, k);
  }

  lemma TableCalm(s: Server, table: map<Key, nat>, k: Key)
    ensures CalmClaims(s, s.(table := table), k)
  {
  }

  lemma ReceiveNothingCalm(s: Sys, k: Key)
    requires WellFormed(s.server) && Places(s, k) && Dated(s) && k in s.resolvers && s.resolvers[k].pc.Waiting?
    requires s.server.heap[s.resolvers[k].inst].answerCh.buf == []
    ensures Calm(s, TakeAnswer(s, k), k)
  {
    ResolverKnown(s, k);
    hide CalmClaims, CalmHistory, Places;
    SameClaimsCalm(s.server, k);
    QuietCalm(s, TakeAnswer(s, k), k);
  }

  lemma RefusedClaims(s: Server, k: Key, optionID: string, message: string)
    requires WellFormed(s) && Deliver(s, k, optionID, message).1 != Delivered
    ensures CalmClaims(s, Deliver(s, k, optionID, message).0, k)
  {
    hide CalmClaims;
    SameClaimsCalm(s, k);
    if Deliver(s, k, optionID, message).1 == DeliverDirectly {
      var c := s.heap[s.table[k]];
      UpdateCalm(s, s.table[k], c.(state := DirectDelivery, direct := MakeDone(c.direct)), k);
    }
  }

  lemma RefusedShape(s: Sys, k: Key, optionID: string, message: string, d: nat)
    requires WellFormed(s.server) && Deliver(s.server, k, optionID, message).1 != Delivered
    ensures var t := ClientAnswered(s, k, optionID, message, d);
      t == s.(server := Deliver(s.server, k, optionID, message).0, directs := t.directs)
  {
    hide Deliver;
  }

  lemma RefusedCalm(s: Sys, k: Key, optionID: string, message: string, d: nat)
    requires WellFormed(s.server) && Places(s, k) && Dated(s) && Deliver(s.server, k, optionID, message).1 != Delivered
    ensures Calm(s, ClientAnswered(s, k, optionID, message, d), k)
  {
    var t := ClientAnswered(s, k, optionID, message, d);
    ResolverKnownIf(s, k);
    RefusedClaims(s.server, k, optionID, message);
    RefusedShape(s, k, optionID, message, d);
    hide CalmClaims, CalmHistory, Places, Deliver, ClientAnswered;
    CalmKeys(s.server, t.server, k);
    QuietCalm(s, t, k);
  }

  lemma CallCalm(s: Sys, d: nat, k: Key)
    requires WellFormed(s.server) && Places(s, k) && Dated(s) && d in s.directs
    ensures Calm(s, Record(s, Call(s.directs[d].inst, ByDirect, s.directs[d].answer)), k)
  {
    if k in s.resolvers {
      ResolverKnown(s, k);
    }
    hide CalmClaims, CalmHistory, Places;
    SameClaimsCalm(s.server, k);
    QuietCalm(s, Record(s, Call(s.directs[d].inst, ByDirect, s.directs[d].answer)), k);
  }

  lemma DoneCalm(s: Sys, d: nat, ok: bool)
    requires WellFormed(s.server) && d in s.directs && Places(s, s.directs[d].key) && Dated(s)
    requires Discarded(s, s.directs[d].key, ok) == {}
    ensures Calm(s, DirectFinished(s, d, ok), s.directs[d].key)
  {
    var e := s.directs[d];
    var k := e.key;
    if k in s.resolvers {
      ResolverKnown(s, k);
    }
    SameClaimsCalm(s.server, k);
    if ok {
      MarkCalm(s.server, k, Resolution("direct", e.answer.optionID, e.answer.message));
    } else {
      RetryCalm(s.server, k);
    }
    hide CalmClaims, CalmHistory, Places, Mark, Retry;
    assert s.drained + {} == s.drained;
    QuietCalm(s, DirectFinished(s, d, ok), k);
    DoneKeepsResolvers(s, d, ok);
  }

  lemma RetryCalm(s: Server, k: Key)
    requires WellFormed(s)
    ensures CalmClaims(s, Retry(s, k).0, k)
  {
    SameClaimsCalm(s, k);
    if StateOf(s, k) == DirectDelivery {
      UpdateCalm(s, s.table[k], FinishDirect(s.heap[s.table[k]].(state := NoResolver)), k);
    }
  }

  lemma DoneKeepsResolvers(s: Sys, d: nat, ok: bool)
    requires WellFormed(s.server) && d in s.directs
    ensures var t := DirectFinished(s, d, ok);
      t.resolvers == s.resolvers && |t.server.heap| == |s.server.heap| &&
      forall i | 0 <= i < |s.server.heap| :: t.server.heap[i].key == s.server.heap[i].key
  {
  }

  lemma ClearCalm(s: Sys, k: Key)
    requires WellFormed(s.server) && Places(s, k) && Dated(s)
    ensures Calm(s, Cleared(s, k.scope), k)
  {
    if k in s.resolvers {
      ResolverKnown(s, k);
    }
    ClearClaimsCalm(s.server, k);
    hide CalmClaims, CalmHistory, Places, Clear;
    QuietCalm(s, Cleared(s, k.scope), k);
  }

  lemma ClearClaimsCalm(s: Server, k: Key)
    requires WellFormed(s)
    ensures CalmClaims(s, Clear(s, k.scope), k)
    ensures |Clear(s, k.scope).heap| == |s.heap|
  {
  }

  // ---- steps that move an answer

  /** The resolver takes the waiting answer. */
  lemma TakeAnswers(s: Sys, k: Key)
    requires WellFormed(s.server) && ClaimsOk(s) && Places(s, k) && Answers(s, k) && k in s.resolvers
    requires s.resolvers[k].pc.Waiting? || s.resolvers[k].pc.HandOver?
    requires s.server.heap[s.resolvers[k].inst].answerCh.buf != []
    ensures Answers(TakeAnswer(s, k), k)
  {
    var i := s.resolvers[k].inst;
    ResolverKnown(s, k);
    hide Places;
    assert ClaimOk(s.server.heap[i]);
    TakeTracked(s, k);
    TakeRest(s, k);
  }

  lemma TakeTracked(s: Sys, k: Key)
    requires Answers(s, k) && k in s.resolvers && Of(s.server, s.resolvers[k].inst, k)
    requires |s.server.heap[s.resolvers[k].inst].answerCh.buf| == 1
    ensures TrackedOk(TakeAnswer(s, k), k)
  {
    var t := TakeAnswer(s, k);
    forall e <- t.accepted | Of(t.server, e.inst, k)
      ensures Tracked(t, k, e)
    {
      assert Tracked(s, k, e);
    }
  }

  lemma TakeRest(s: Sys, k: Key)
    requires Answers(s, k) && k in s.resolvers && Of(s.server, s.resolvers[k].inst, k)
    requires var c := s.server.heap[s.resolvers[k].inst]; |c.answerCh.buf| == 1 && c.answerQueued
    ensures var t := TakeAnswer(s, k); QueuedOk(t, k) && NamedOk(t, k) && TakenOk(t, k) && DrainedOk(t, k)
  {
    hide TrackedOk;
    var t := TakeAnswer(s, k);
    assert UnderControl(s.server.heap[s.resolvers[k].inst].state);
    forall e <- t.accepted | Of(t.server, e.inst, k) && e.inst in t.drained
      ensures Gone(t, k, e)
    {
      assert Gone(s, k, e);
    }
  }

  /** The answer in hand is given to the provider, or names no decision. */
  lemma GiveAnswers(s: Sys, k: Key, ok: bool)
    requires WellFormed(s.server) && Places(s, k) && Answers(s, k) && CanMove(s, k, ControlAnswer(ok))
    ensures Answers(Moved(s, k, ControlAnswer(ok)), k)
  {
    var r := s.resolvers[k];
    ResolverKnown(s, k);
    ResolverOptions(s, k);
    hide Places, Answers, KindOf;
    PlainMove(s, k, ControlAnswer(ok));
    GivenAnswers(s, k, PlainNext(s, k, ControlAnswer(ok)), PlainCalls(s, k, ControlAnswer(ok)));
  }

  lemma ResolverOptions(s: Sys, k: Key)
    requires WellFormed(s.server) && Places(s, k) && k in s.resolvers && !s.resolvers[k].pc.AwaitDirect?
    ensures s.resolvers[k].inst in s.options && s.options[s.resolvers[k].inst] == s.resolvers[k].options
  {
    hide InPlace, Fits, DirectsOk, TableOk;
  }

  /** The resolver lets go of its answer: it gives it to the provider unless the answer names no
      decision. */
  ghost predicate LetsGo(s: Sys, k: Key, pc: Pc, calls: seq<Call>) {
    && k in s.resolvers && Of(s.server, s.resolvers[k].inst, k) && s.resolvers[k].pc.Answering? && !pc.Answering?
    && var r := s.resolvers[k];
    && r.inst in s.options && s.options[r.inst] == r.options
    && calls == if KindOf(r.pc.answer.optionID, r.options) == OtherKind then [] else [Call(r.inst, ByControl, r.pc.answer)]
  }

  lemma GivenAnswers(s: Sys, k: Key, pc: Pc, calls: seq<Call>)
    requires Answers(s, k) && LetsGo(s, k, pc, calls)
    ensures Answers(Onward(s, k, pc, calls), k)
  {
    hide KindOf;
    GivenTracked(s, k, pc, calls);
    GivenRest(s, k, pc, calls);
  }

  lemma GivenTracked(s: Sys, k: Key, pc: Pc, calls: seq<Call>)
    requires Answers(s, k) && LetsGo(s, k, pc, calls)
    ensures TrackedOk(Onward(s, k, pc, calls), k)
  {
    hide KindOf, QueuedOk, TakenOk, DrainedOk, NamedOk;
    var t := Onward(s, k, pc, calls);
    forall e <- t.accepted | Of(t.server, e.inst, k)
      ensures Tracked(t, k, e)
    {
      assert Tracked(s, k, e);
    }
  }

  lemma GivenRest(s: Sys, k: Key, pc: Pc, calls: seq<Call>)
    requires Answers(s, k) && LetsGo(s, k, pc, calls)
    ensures var t := Onward(s, k, pc, calls); QueuedOk(t, k) && NamedOk(t, k) && TakenOk(t, k) && DrainedOk(t, k)
  {
    hide KindOf, TrackedOk;
    var t := Onward(s, k, pc, calls);
    forall e <- t.accepted | Of(t.server, e.inst, k) && e.inst in t.drained
      ensures Gone(t, k, e)
    {
      assert Gone(s, k, e);
    }
  }

  /** A client's answer is accepted: the claim's resolver is there and will look. */
  lemma AcceptAnswers(s: Sys, k: Key, optionID: string, message: string, d: nat)
    requires WellFormed(s.server) && AcceptedOk(s) && Places(s, k) && Answers(s, k) && Dated(s)
    requires Deliver(s.server, k, optionID, message).1 == Delivered
    ensures Answers(ClientAnswered(s, k, optionID, message, d), k)
  {
    var t := ClientAnswered(s, k, optionID, message, d);
    var i := s.server.table[k];
    var a := Answer(k.requestID, optionID, message);
    AcceptingListens(s, k);
    NotYetAccepted(s, i);
    assert t == s.(server := Update(s.server, i, t.server.heap[i]), accepted := s.accepted + [Accepted(i, a)]);
    AcceptTracked(s, t, k, i, a);
    AcceptRest(s, t, k, i, a);
  }

  lemma AcceptingListens(s: Sys, k: Key)
    requires WellFormed(s.server) && Places(s, k) && k in s.server.table
    requires var c := s.server.heap[s.server.table[k]]; UnderControl(c.state) && !c.answerQueued
    ensures k in s.resolvers && s.resolvers[k].inst == s.server.table[k] && StillListens(s.resolvers[k].pc)
  {
    hide DirectsOk, Fits;
  }

  lemma NotYetAccepted(s: Sys, i: nat)
    requires AcceptedOk(s) && i < |s.server.heap| && !s.server.heap[i].answerQueued && s.server.heap[i].state != Resolved
    ensures forall e <- s.accepted :: e.inst != i
  {
  }

  /** The claim gets its answer. */
  ghost predicate Gets(c: Claim, d: Claim, a: Answer) {
    && d.key == c.key && d.state == c.state && UnderControl(c.state) && !c.answerQueued && d.answerQueued
    && c.answerCh.buf == [] && d.answerCh.buf == [a]
  }

  lemma AcceptTracked(s: Sys, t: Sys, k: Key, i: nat, a: Answer)
    requires Answers(s, k) && Of(s.server, i, k) && i < |t.server.heap| && Gets(s.server.heap[i], t.server.heap[i], a)
    requires t == s.(server := Update(s.server, i, t.server.heap[i]), accepted := s.accepted + [Accepted(i, a)])
    requires k in s.resolvers && s.resolvers[k].inst == i && StillListens(s.resolvers[k].pc)
    requires forall e <- s.accepted :: e.inst != i
    ensures TrackedOk(t, k)
  {
    hide KindOf, QueuedOk, TakenOk, DrainedOk, NamedOk;
    forall e <- t.accepted | Of(t.server, e.inst, k)
      ensures Tracked(t, k, e)
    {
      if e in s.accepted {
        assert Tracked(s, k, e);
      }
    }
  }

  lemma AcceptRest(s: Sys, t: Sys, k: Key, i: nat, a: Answer)
    requires Answers(s, k) && Of(s.server, i, k) && i < |t.server.heap| && Gets(s.server.heap[i], t.server.heap[i], a)
    requires t == s.(server := Update(s.server, i, t.server.heap[i]), accepted := s.accepted + [Accepted(i, a)])
    requires a.requestID == k.requestID
    ensures QueuedOk(t, k) && NamedOk(t, k) && TakenOk(t, k) && DrainedOk(t, k)
  {
    hide TrackedOk;
    assert t.accepted[|s.accepted|] == Accepted(i, a);
    assert i !in s.drained;
    forall e <- t.accepted | Of(t.server, e.inst, k) && e.inst in t.drained
      ensures Gone(t, k, e)
    {
      assert Gone(s, k, e);
    }
  }

  /** A completion discards the waiting answer of the claim it finds. */
  lemma DrainAnswers(s: Sys, d: nat)
    requires WellFormed(s.server) && ClaimsOk(s) && d in s.directs && Answers(s, s.directs[d].key)
    requires Discarded(s, s.directs[d].key, true) != {}
    requires s.directs[d].key in s.resolvers ==> Of(s.server, s.resolvers[s.directs[d].key].inst, s.directs[d].key)
    ensures Answers(DirectFinished(s, d, true), s.directs[d].key)
  {
    var k := s.directs[d].key;
    var t := DirectFinished(s, d, true);
    var i := s.server.table[k];
    assert ClaimOk(s.server.heap[i]);
    assert Of(s.server, i, k);
    DrainTracked(s, t, k, i);
    DrainRest(s, t, k, i);
  }

  /** The claim loses its waiting answer to a resolution. */
  ghost predicate Loses(s: Sys, t: Sys, k: Key, i: nat) {
    && Of(s.server, i, k) && |s.server.heap[i].answerCh.buf| == 1 && i < |t.server.heap|
    && t.server.heap[i].key == k && t.server.heap[i].state == Resolved && t.server.heap[i].answerCh.buf == []
    && t.server == Update(s.server, i, t.server.heap[i])
    && t.accepted == s.accepted && t.calls == s.calls && t.resolvers == s.resolvers && t.options == s.options
    && t.removed == s.removed && t.drained == s.drained + {i}
  }

  lemma DrainTracked(s: Sys, t: Sys, k: Key, i: nat)
    requires Answers(s, k) && Loses(s, t, k, i)
    ensures TrackedOk(t, k)
  {
    hide KindOf, QueuedOk, TakenOk, DrainedOk, NamedOk;
    forall e <- t.accepted | Of(t.server, e.inst, k)
      ensures Tracked(t, k, e)
    {
      assert Tracked(s, k, e);
    }
  }

  lemma DrainRest(s: Sys, t: Sys, k: Key, i: nat)
    requires Answers(s, k) && Loses(s, t, k, i)
    ensures QueuedOk(t, k) && NamedOk(t, k) && TakenOk(t, k) && DrainedOk(t, k)
  {
    hide TrackedOk;
    forall e <- t.accepted | Of(t.server, e.inst, k) && e.inst in t.drained
      ensures Gone(t, k, e)
    {
      if e.inst in s.drained {
        assert Gone(s, k, e);
      }
    }
  }

  // ---- every step and every run

  lemma KeyNamed(s: Sys, k: Key)
    requires WellFormed(s.server) && Places(s, k) && Answers(s, k) && k in s.resolvers
    ensures k.requestID != ""
  {
    ResolverKnown(s, k);
  }

  lemma MoveAnswers(s: Sys, k: Key, m: Move)
    requires WellFormed(s.server) && ClaimsOk(s) && Places(s, k) && Answers(s, k) && Dated(s) && CanMove(s, k, m)
    ensures Answers(Moved(s, k, m), k)
  {
    hide Places, Answers, Calm, Dated, PrepareOrWait, EnterControl, TakeAnswer, GiveUpControl, Stamped, Remove;
    if m.ControlAnswer? {
      GiveAnswers(s, k, m.ok);
    } else if m.Receive? && s.server.heap[s.resolvers[k].inst].answerCh.buf != [] {
      TakeAnswers(s, k);
    } else if m.Give? {
      GiveUpAnswers(s, k);
    } else {
      CalmMove(s, k, m);
      CalmKeeps(s, Moved(s, k, m), k);
    }
  }

  lemma GiveUpAnswers(s: Sys, k: Key)
    requires WellFormed(s.server) && ClaimsOk(s) && Places(s, k) && Answers(s, k) && Dated(s) && CanMove(s, k, Give)
    ensures Answers(GiveUpControl(s, k), k)
  {
    hide Answers, Calm, Dated;
    if k in s.server.table && StateOf(s.server, k) == Control && s.server.heap[s.resolvers[k].inst].answerCh.buf != [] {
      TakeAnswers(s, k);
      GiveTakes(s, k);
    } else {
      GiveNothingCalm(s, k);
      CalmKeeps(s, GiveUpControl(s, k), k);
    }
  }

  lemma GiveTakes(s: Sys, k: Key)
    requires WellFormed(s.server) && Places(s, k) && CanMove(s, k, Give)
    requires k in s.server.table && StateOf(s.server, k) == Control && s.server.heap[s.resolvers[k].inst].answerCh.buf != []
    ensures GiveUpControl(s, k) == TakeAnswer(s, k)
  {
    hide DirectsOk, Fits, InPlace;
  }

  lemma CalmMove(s: Sys, k: Key, m: Move)
    requires WellFormed(s.server) && ClaimsOk(s) && Places(s, k) && Answers(s, k) && Dated(s) && CanMove(s, k, m)
    requires !m.ControlAnswer? && !m.Give? && (m.Receive? ==> s.server.heap[s.resolvers[k].inst].answerCh.buf == [])
    ensures Calm(s, Moved(s, k, m), k)
  {
    hide Places, Answers, Calm, Dated, PrepareOrWait, EnterControl, TakeAnswer, Stamped, Remove;
    if Plain(m) {
      PlainCalm(s, k, m);
    } else {
      match m
      case Resume(sawClient) =>
        LeaveCalm(s, k);
        KeyNamed(s, k);
        RequestCalm(s, k, s.resolvers[k], sawClient, true);
      case GiveUp => LeaveCalm(s, k);
      case PublishFailed => PublishFailedCalm(s, k);
      case Enter => EnterCalm(s, k);
      case Receive => ReceiveNothingCalm(s, k);
      case Stamp => StampCalm(s, k);
      case Finish => FinishCalm(s, k);
    }
  }

  lemma OwnAnswers(s: Sys, st: Step, k: Key)
    requires Sound(s) && Places(s, k) && Answers(s, k) && Dated(s) && Enabled(s, st) && Concerns(s, st, k)
    ensures Answers(Apply(s, st), k)
  {
    hide Places, Answers, Calm, Dated, Moved, PrepareOrWait, ClientAnswered, DirectFinished, Remove, Cleared, Prepare;
    match st
    case Request(_, r, sawClient, afterDirect) =>
      RequestCalm(s, k, r, sawClient, afterDirect);
      CalmKeeps(s, Apply(s, st), k);
    case IdleRequest(_, options) =>
      IdleCalm(s, k, options);
      CalmKeeps(s, Apply(s, st), k);
    case Resolving(_, m) => MoveAnswers(s, k, m);
    case ClientAnswer(_, optionID, message, d) =>
      if Deliver(s.server, k, optionID, message).1 == Delivered {
        AcceptAnswers(s, k, optionID, message, d);
      } else {
        RefusedCalm(s, k, optionID, message, d);
        CalmKeeps(s, Apply(s, st), k);
      }
    case DirectAnswer(d) =>
      CallCalm(s, d, k);
      CalmKeeps(s, Apply(s, st), k);
    case DirectDone(d, ok) =>
      if Discarded(s, k, ok) == {} {
        DoneCalm(s, d, ok);
        CalmKeeps(s, Apply(s, st), k);
      } else {
        ResolverKnownIf(s, k);
        DrainAnswers(s, d);
      }
    case OutsideEnd(_) =>
      RemoveCalm(s, k);
      CalmKeeps(s, Apply(s, st), k);
    case OutsideClear(_) =>
      ClearCalm(s, k);
      CalmKeeps(s, Apply(s, st), k);
  }

  lemma ResolverKnownIf(s: Sys, k: Key)
    requires WellFormed(s.server) && Places(s, k)
    ensures k in s.resolvers ==> Of(s.server, s.resolvers[k].inst, k)
  {
    if k in s.resolvers {
      ResolverKnown(s, k);
    }
  }

  /** A mark discards only an answer of a claim that exists. */
  lemma DrainedBy(s: Sys, st: Step)
    requires WellFormed(s.server) && Enabled(s, st)
    ensures Apply(s, st).drained == s.drained +
      if st.DirectDone? then Discarded(s, s.directs[st.d].key, st.ok)
      else if st.Resolving? && st.move == Finish then Discarded(s, st.k, !s.resolvers[st.k].pc.Ending?) else {}
  {
    hide Moved, Deliver, Mark, Retry, Prepare, Clear, SignalAll, Overtakes, Reopens, Discarded;
    if st.Resolving? {
      MoveDrains(s, st.k, st.move);
    }
  }

  lemma MoveDrains(s: Sys, k: Key, m: Move)
    requires WellFormed(s.server) && CanMove(s, k, m)
    ensures Moved(s, k, m).drained == s.drained + if m == Finish then Discarded(s, k, !s.resolvers[k].pc.Ending?) else {}
  {
    hide Mark, Prepare, Handoff, Begin, End, SetState, KindOf, AutoOption, Discarded;
  }

  /** A resolver calls the provider for its own claim. */
  lemma MoveCalls(s: Sys, k: Key, m: Move)
    requires WellFormed(s.server) && CanMove(s, k, m)
    ensures forall c <- Moved(s, k, m).calls :: c in s.calls || c.inst == s.resolvers[k].inst
  {
    hide Mark, Prepare, Handoff, Begin, End, SetState, KindOf, AutoOption;
  }

  lemma CallsBy(s: Sys, st: Step)
    requires Placed(s) && Dated(s) && Enabled(s, st)
    ensures forall c <- Apply(s, st).calls :: c.inst < |s.server.heap|
  {
    hide Moved, Deliver, Mark, Retry, Prepare, Clear, SignalAll, Places, Sound, Overtakes, Reopens, Discarded;
    SoundWell(s);
    if st.DirectAnswer? {
      PlacedDirect(s, st.d);
    } else if st.Resolving? {
      MoveCalls(s, st.k, st.move);
    }
  }

  lemma DatedStep(s: Sys, st: Step)
    requires Placed(s) && Dated(s) && Enabled(s, st)
    ensures Dated(Apply(s, st)) && forall i <- Apply(s, st).drained :: i < |s.server.heap|
  {
    CallsBy(s, st);
    SoundStep(s, st);
    KeysStay(s, st);
    SoundWell(s);
    DrainedBy(s, st);
    hide Apply, Places;
    assert AcceptedOk(Apply(s, st));
  }

  /** Every step of every party keeps every accepted answer accounted for. */
  lemma AccountedStep(s: Sys, st: Step)
    requires Accounted(s) && Enabled(s, st)
    ensures Accounted(Apply(s, st))
  {
    hide Placed, Answers, SameFor, Calm, Dated, Apply;
    PlacedStep(s, st);
    DatedStep(s, st);
    PlacedSound(s);
    PlacedSound(Apply(s, st));
    var t := Apply(s, st);
    forall k: Key
      ensures Answers(t, k)
    {
      PlacedPlaces(s, k);
      if Concerns(s, st, k) {
        OwnAnswers(s, st, k);
      } else {
        Elsewhere(s, st, k);
        PlacedPlaces(t, k);
        ResolverKnownIf(t, k);
        SameCalm(s, t, k);
        CalmKeeps(s, t, k);
      }
    }
  }

  lemma PlacedSound(s: Sys)
    requires Placed(s)
    ensures Sound(s) && WellFormed(s.server)
  {
  }

  lemma PlacedPlaces(s: Sys, k: Key)
    requires Placed(s)
    ensures WellFormed(s.server) && Places(s, k)
  {
  }

  lemma {:induction false} RunAccounted(trace: seq<Sys>, steps: seq<Step>, n: nat)
    requires IsRun(trace, steps) && n < |trace|
    ensures Accounted(trace[n])
    decreases n
  {
    if n == 0 {
      StartPlaced();
    } else {
      hide Accounted, Apply;
      RunAccounted(trace, steps, n - 1);
      AccountedStep(trace[n - 1], steps[n - 1]);
    }
  }

  // ---- theorems

  /** In every run an accepted answer is in the channel its resolver still listens to, in the
      resolver's hands, or given to the provider, unless it names no decision, its claim was
      removed from outside, or a mark discarded it. */
  lemma {:induction false} AcceptedAnswerInHand(trace: seq<Sys>, steps: seq<Step>, n: nat, e: Accepted)
    requires IsRun(trace, steps) && n < |trace| && e in trace[n].accepted
    ensures e.inst < |trace[n].server.heap| && Tracked(trace[n], trace[n].server.heap[e.inst].key, e)
  {
    RunAccounted(trace, steps, n);
    hide IsRun, Placed;
    assert Answers(trace[n], trace[n].server.heap[e.inst].key);
  }

  /** Once its resolver is gone, a decided answer of a claim that was not removed from outside
      was given to the provider exactly as it was accepted, if and only if no mark discarded
      it. */
  lemma {:induction false} AcceptedAnswerReachesProvider(trace: seq<Sys>, steps: seq<Step>, n: nat, e: Accepted)
    requires IsRun(trace, steps) && n < |trace| && e in trace[n].accepted && e.inst !in trace[n].removed && !Undecided(trace[n], e)
    requires forall k <- trace[n].resolvers :: trace[n].resolvers[k].inst != e.inst
    ensures Call(e.inst, ByControl, e.answer) in trace[n].calls <==> e.inst !in trace[n].drained
  {
    RunAccounted(trace, steps, n);
    hide IsRun, Placed;
    var k := trace[n].server.heap[e.inst].key;
    assert Answers(trace[n], k);
    assert Tracked(trace[n], k, e);
    assert e.inst in trace[n].drained ==> Gone(trace[n], k, e);
  }

  /** A mark discards an answer exactly when it is the mark of a delivery that finds, under its
      key, another claim than its own with an answer waiting. */
  lemma {:induction false} DiscardedOnlyWhenLate(trace: seq<Sys>, steps: seq<Step>, n: nat, i: nat)
    requires IsRun(trace, steps) && n < |steps| && i !in trace[n].drained
    ensures i in trace[n + 1].drained <==>
      && steps[n].DirectDone? && steps[n].ok && Late(trace[n], steps[n].d)
      && trace[n].server.table[trace[n].directs[steps[n].d].key] == i
      && i < |trace[n].server.heap| && trace[n].server.heap[i].answerCh.buf != []
  {
    var s, st := trace[n], steps[n];
    RunAccounted(trace, steps, n);
    PlacedSound(s);
    DrainedBy(s, st);
    assert trace[n + 1] == Apply(s, st);
    hide IsRun, Apply, Placed;
    if st.DirectDone? && Discarded(s, s.directs[st.d].key, st.ok) != {} {
      OwnCompletionDiscardsNothing(s, st.d);
    } else if st.Resolving? && st.move == Finish && !s.resolvers[st.k].pc.Ending? {
      PlacedPlaces(s, st.k);
      OwnMarkDiscardsNothing(s, st.k);
    }
  }

  /** A delivery's own claim has no answer waiting. */
  lemma OwnCompletionDiscardsNothing(s: Sys, d: nat)
    requires Accounted(s) && WellFormed(s.server) && d in s.directs && s.directs[d].key in s.server.table
    requires s.server.heap[s.server.table[s.directs[d].key]].answerCh.buf != []
    ensures Late(s, d)
  {
    var k := s.directs[d].key;
    PlacedDirect(s, d);
    assert Answers(s, k);
    hide Placed;
    assert Of(s.server, s.server.table[k], k);
  }

  lemma DrainedGrows(s: Sys, st: Step)
    requires WellFormed(s.server) && Enabled(s, st)
    ensures s.drained <= Apply(s, st).drained
  {
    hide Apply, Discarded;
    DrainedBy(s, st);
  }

  lemma {:induction false} DrainedStays(trace: seq<Sys>, steps: seq<Step>, m: nat, n: nat)
    requires IsRun(trace, steps) && m <= n < |trace|
    ensures trace[m].drained <= trace[n].drained
    decreases n
  {
    hide *;
    if m < n {
      LengthOf(trace, steps);
      DrainedStays(trace, steps, m, n - 1);
      RunStep(trace, steps, n - 1);
      DrainedGrows(trace[n - 1], steps[n - 1]);
    }
  }

  /** An answer that was discarded is lost for good: no continuation gives it to the provider. */
  lemma {:induction false} DiscardedIsLost(trace: seq<Sys>, steps: seq<Step>, m: nat, n: nat, e: Accepted)
    requires IsRun(trace, steps) && m <= n < |trace| && e in trace[n].accepted && e.inst in trace[m].drained
    ensures Call(e.inst, ByControl, e.answer) !in trace[n].calls
  {
    DrainedStays(trace, steps, m, n);
    RunAccounted(trace, steps, n);
    hide IsRun, Placed;
    var k := trace[n].server.heap[e.inst].key;
    assert Answers(trace[n], k);
    assert Gone(trace[n], k, e);
  }
}
