/** What an answer to a permission request comes to (`deliverPendingPermission` in
    `internal/control/server.go`), told by what happened before: the options the request was
    made with, the answers accepted so far and who the request was left to. */
module PermissionDelivery {
  import opened Common
  import opened PermissionClaims
  import opened PermissionProtocol

  // ---- offered options

  /** Entry `j` is an option with this ID. */
  predicate Names(options: seq<OptionSpec>, j: nat, optionID: string) {
    j < |options| && !options[j].Malformed? && options[j].optionID == optionID != ""
  }

  /** Entry `j` is the last option with this ID. */
  ghost predicate LastNames(options: seq<OptionSpec>, j: nat, optionID: string) {
    Names(options, j, optionID) && forall later: nat | j < later < |options| :: !Names(options, later, optionID)
  }

  /** The answer is one of those that the options ask for: it names an option, and has a message
      if the last option of that name requires one. */
  ghost predicate Answers(options: seq<OptionSpec>, optionID: string, message: string) {
    exists j: nat :: LastNames(options, j, optionID) && (options[j].requiresMessage ==> message != "")
  }

  lemma {:induction false} RequiredIs(options: seq<OptionSpec>, optionID: string)
    ensures optionID in RequiredMessages(options) <==> exists j: nat :: LastNames(options, j, optionID)
    ensures forall j: nat | LastNames(options, j, optionID) :: RequiredMessages(options)[optionID] == options[j].requiresMessage
    decreases |options|
  {
    if options != [] {
      var n := |options| - 1;
      var before := options[..n];
      RequiredIs(before, optionID);
      if Names(options, n, optionID) {
        assert LastNames(options, n, optionID);
      } else {
        forall j: nat
          ensures LastNames(options, j, optionID) <==> LastNames(before, j, optionID)
        {
          NamesBefore(options, j, optionID);
        }
      }
    }
  }

  lemma NamesBefore(options: seq<OptionSpec>, j: nat, optionID: string)
    requires options != [] && !Names(options, |options| - 1, optionID)
    ensures LastNames(options, j, optionID) <==> LastNames(options[..|options| - 1], j, optionID)
  {
    var n := |options| - 1;
    forall i: nat
      ensures Names(options, i, optionID) <==> Names(options[..n], i, optionID)
    {
    }
  }

  lemma AcceptableIs(c: Claim, options: seq<OptionSpec>, optionID: string, message: string)
    requires c.requiresMessage == Some(RequiredMessages(options))
    ensures Acceptable(c, optionID, message) <==> Answers(options, optionID, message)
  {
    hide RequiredMessages;
    RequiredIs(options, optionID);
  }

  // ---- what each claim was offered with

  /** The options that a step makes a claim with. */
  function OfferedBy(s: Sys, st: Step): Option<seq<OptionSpec>> {
    match st
    case Request(_, r, _, _) => Some(r.options)
    case IdleRequest(_, options) => Some(options)
    case Resolving(k, Resume(_)) => if k in s.resolvers then Some(s.resolvers[k].options) else None
    case _ => None
  }

  /** A claim made otherwise, by a resolver that entered control after its claim was removed,
      has no options. */
  ghost function OffersAfter(s: Sys, st: Step, t: Sys, offers: map<nat, seq<OptionSpec>>): map<nat, seq<OptionSpec>> {
    if |s.server.heap| < |t.server.heap| && OfferedBy(s, st).Some? then offers[|s.server.heap| := OfferedBy(s, st).value] else offers
  }

  /** The options of every claim, from the steps of the run alone. */
  ghost function Offers(trace: seq<Sys>, steps: seq<Step>, n: nat): map<nat, seq<OptionSpec>>
    requires |trace| == |steps| + 1 && n < |trace|
    decreases n
  {
    if n == 0 then map[] else OffersAfter(trace[n - 1], steps[n - 1], trace[n], Offers(trace, steps, n - 1))
  }

  /** A claim that is not resolved goes by its options, and holds an answer only if one was
      accepted for it. */
  ghost predicate GoesBy(c: Claim, i: nat, offers: map<nat, seq<OptionSpec>>, accepted: seq<Accepted>) {
    && (c.state != Resolved ==> c.requiresMessage == if i in offers then Some(RequiredMessages(offers[i])) else None)
    && (c.answerQueued ==> WasAccepted(accepted, i))
  }

  ghost predicate WasAccepted(accepted: seq<Accepted>, i: nat) {
    exists a <- accepted :: a.inst == i
  }

  ghost predicate AllGoBy(s: Sys, offers: map<nat, seq<OptionSpec>>) {
    && (forall i | 0 <= i < |s.server.heap| :: GoesBy(s.server.heap[i], i, offers, s.accepted))
    && (forall i <- offers :: i < |s.server.heap|)
  }

  /** What any operation leaves of a claim's options and answer. */
  predicate Carries(c: Claim, d: Claim) {
    (d.state != Resolved ==> c.state != Resolved && d.requiresMessage == c.requiresMessage) && (d.answerQueued ==> c.answerQueued)
  }

  ghost predicate Carried(s: Server, t: Server) {
    |s.heap| <= |t.heap| && forall i | 0 <= i < |s.heap| :: Carries(s.heap[i], t.heap[i])
  }

  /** At most one claim is new, and it has these options and no answer. */
  ghost predicate AddsWith(s: Server, t: Server, requires_: Option<map<string, bool>>) {
    |t.heap| <= |s.heap| + 1 && (|s.heap| < |t.heap| ==> t.heap[|s.heap|].requiresMessage == requires_ && !t.heap[|s.heap|].answerQueued)
  }

  lemma PrepareCarries(s: Server, k: Key, st: ResolverState, options: Option<seq<OptionSpec>>)
    requires WellFormed(s)
    ensures var t := Prepare(s, k, st, options).0;
      Carried(s, t) && AddsWith(s, t, if options.None? then None else Some(RequiredMessages(options.value)))
  {
    hide RequiredMessages;
  }

  lemma BeginCarries(s: Server, k: Key)
    requires WellFormed(s)
    ensures Carried(s, Begin(s, k).0) && AddsWith(s, Begin(s, k).0, None)
  {
  }

  lemma SetCarries(s: Server, k: Key, st: ResolverState)
    requires WellFormed(s)
    ensures Carried(s, SetState(s, k, st)) && |SetState(s, k, st).heap| == |s.heap|
  {
  }

  lemma MarkCarries(s: Server, k: Key, res: Resolution)
    requires WellFormed(s)
    ensures Carried(s, Mark(s, k, res).0) && |Mark(s, k, res).0.heap| == |s.heap|
  {
  }

  lemma RetryCarries(s: Server, k: Key)
    requires WellFormed(s)
    ensures Carried(s, Retry(s, k).0) && |Retry(s, k).0.heap| == |s.heap|
  {
  }

  lemma EndCarries(s: Server, k: Key)
    requires WellFormed(s)
    ensures Carried(s, End(s, k)) && |End(s, k).heap| == |s.heap|
  {
  }

  lemma HandoffCarries(s: Server, k: Key, st: ResolverState)
    requires WellFormed(s)
    ensures Carried(s, Handoff(s, k, st).0) && |Handoff(s, k, st).0.heap| == |s.heap|
  {
  }

  lemma ScopesCarry(s: Server, scope: string)
    requires WellFormed(s)
    ensures Carried(s, Clear(s, scope)) && |Clear(s, scope).heap| == |s.heap|
    ensures Carried(s, SignalAll(s)) && |SignalAll(s).heap| == |s.heap|
  {
  }

  /** An answer changes nothing but the claim it is for, which it marks as answered only if it is
      delivered. */
  lemma DeliverCarries(s: Server, k: Key, optionID: string, message: string)
    requires WellFormed(s)
    ensures var (t, delivery) := Deliver(s, k, optionID, message);
      && |t.heap| == |s.heap|
      && if delivery == Delivered then
           k in s.table && forall i | 0 <= i < |s.heap| :: Carries(s.heap[i].(answerQueued := s.heap[i].answerQueued || i == s.table[k]), t.heap[i])
         else Carried(s, t)
  {
    hide Acceptable;
  }

  /** No claim is touched by a step of which this holds. */
  lemma CarriedGoBy(s: Sys, t: Sys, offers: map<nat, seq<OptionSpec>>)
    requires AllGoBy(s, offers) && Carried(s.server, t.server) && |t.server.heap| == |s.server.heap|
    requires t.accepted == s.accepted
    ensures AllGoBy(t, offers)
  {
    hide WasAccepted;
  }

  /** A step that makes a claim. */
  lemma AddedGoBy(s: Sys, t: Sys, options: Option<seq<OptionSpec>>, offers: map<nat, seq<OptionSpec>>)
    requires AllGoBy(s, offers) && Carried(s.server, t.server) && t.accepted == s.accepted
    requires AddsWith(s.server, t.server, if options.None? then None else Some(RequiredMessages(options.value)))
    ensures AllGoBy(t, if |s.server.heap| < |t.server.heap| && options.Some? then offers[|s.server.heap| := options.value] else offers)
  {
    hide RequiredMessages, WasAccepted;
  }

  lemma PrepareGoBy(s: Sys, k: Key, r: Resolver, sawClient: bool, afterDirect: bool, offers: map<nat, seq<OptionSpec>>)
    requires WellFormed(s.server) && AllGoBy(s, offers)
    ensures var t := PrepareOrWait(s, k, r, sawClient, afterDirect);
      AllGoBy(t, if |s.server.heap| < |t.server.heap| then offers[|s.server.heap| := r.options] else offers)
  {
    hide AllGoBy, Carried, AddsWith, Prepare, EffectiveState;
    var t := PrepareOrWait(s, k, r, sawClient, afterDirect);
    PrepareCarries(s.server, k, EffectiveState(r.auto, sawClient, r.hasFile), Some(r.options));
    SameCarries(s.server);
    if t.server == s.server {
      CarriedGoBy(s, t, offers);
    } else {
      AddedGoBy(s, t, Some(r.options), offers);
    }
  }

  lemma SameCarries(s: Server)
    ensures Carried(s, s) && forall conns :: Carried(s, s.(conns := conns))
  {
  }

  lemma EnterGoBy(s: Sys, k: Key, offers: map<nat, seq<OptionSpec>>)
    requires WellFormed(s.server) && AllGoBy(s, offers) && k in s.resolvers
    ensures AllGoBy(EnterControl(s, k), offers)
  {
    hide AllGoBy, Carried, AddsWith, Begin;
    BeginCarries(s.server, k);
    SameCarries(s.server);
    var t := EnterControl(s, k);
    if t.server == s.server {
      CarriedGoBy(s, t, offers);
    } else {
      AddedGoBy(s, t, None, offers);
    }
  }

  lemma TakeCarries(s: Sys, k: Key)
    requires k in s.resolvers && s.resolvers[k].inst < |s.server.heap|
    ensures var t := TakeAnswer(s, k); Carried(s.server, t.server) && |t.server.heap| == |s.server.heap| && t.accepted == s.accepted
  {
  }

  lemma MoveGoBy(s: Sys, k: Key, m: Move, offers: map<nat, seq<OptionSpec>>)
    requires WellFormed(s.server) && CanMove(s, k, m) && AllGoBy(s, offers) && !m.Resume? && !m.Enter?
    ensures AllGoBy(Moved(s, k, m), offers) && |Moved(s, k, m).server.heap| == |s.server.heap|
  {
    hide AllGoBy, Carried, End, SetState, Mark, Handoff, TakeAnswer, KindOf, AutoOption, Discarded;
    var r, t := s.resolvers[k], Moved(s, k, m);
    SameCarries(s.server);
    HandoffCarries(s.server, k, if m.Give? && r.pc.HandOver? then NextOwner(r) else File);
    SetCarries(s.server, k, File);
    SetCarries(s.server, k, NoResolver);
    MarkCarries(s.server, k, ResolutionOf(r));
    EndCarries(s.server, k);
    TakeCarries(s, k);
    CarriedGoBy(s, t, offers);
  }

  lemma AnswerGoBy(s: Sys, k: Key, optionID: string, message: string, d: nat, offers: map<nat, seq<OptionSpec>>)
    requires WellFormed(s.server) && AllGoBy(s, offers)
    ensures var t := ClientAnswered(s, k, optionID, message, d); AllGoBy(t, offers) && |t.server.heap| == |s.server.heap|
  {
    hide Deliver;
    var t := ClientAnswered(s, k, optionID, message, d);
    DeliverCarries(s.server, k, optionID, message);
    if Deliver(s.server, k, optionID, message).1 == Delivered {
      var i := s.server.table[k];
      hide RequiredMessages;
      forall j | 0 <= j < |t.server.heap|
        ensures GoesBy(t.server.heap[j], j, offers, t.accepted)
      {
        assert GoesBy(s.server.heap[j], j, offers, s.accepted);
        AcceptedMore(s.accepted, Accepted(i, Answer(k.requestID, optionID, message)), j);
      }
    } else {
      hide AllGoBy, Carried;
      CarriedGoBy(s, t, offers);
    }
  }

  lemma AcceptedMore(accepted: seq<Accepted>, a: Accepted, i: nat)
    ensures WasAccepted(accepted + [a], i) <==> WasAccepted(accepted, i) || a.inst == i
  {
    assert (accepted + [a])[|accepted|] == a;
    if WasAccepted(accepted, i) {
      var b :| b in accepted && b.inst == i;
      assert b in accepted + [a];
    }
  }

  lemma StepGoBy(s: Sys, st: Step, offers: map<nat, seq<OptionSpec>>)
    requires WellFormed(s.server) && Enabled(s, st) && AllGoBy(s, offers)
    ensures AllGoBy(Apply(s, st), OffersAfter(s, st, Apply(s, st), offers))
  {
    hide AllGoBy, Carried, AddsWith, Prepare, PrepareOrWait, EnterControl, ClientAnswered, SignalAll, Clear, End, Mark, Retry;
    var t := Apply(s, st);
    SameCarries(s.server);
    match st
    case Request(k, r, sawClient, afterDirect) => PrepareGoBy(s, k, r, sawClient, afterDirect, offers);
    case IdleRequest(k, options) =>
      PrepareCarries(s.server, k, NoResolver, Some(options));
      AddedGoBy(s, t, Some(options), offers);
    case Resolving(k, m) => ResolvingGoBy(s, k, m, offers);
    case ClientAnswer(k, optionID, message, d) => AnswerGoBy(s, k, optionID, message, d, offers);
    case Scan =>
      ScopesCarry(s.server, "");
      CarriedGoBy(s, t, offers);
    case DirectDone(d, _) =>
      var e := s.directs[d];
      MarkCarries(s.server, e.key, Resolution("direct", e.answer.optionID, e.answer.message));
      RetryCarries(s.server, e.key);
      CarriedGoBy(s, t, offers);
    case OutsideEnd(k) =>
      EndCarries(s.server, k);
      CarriedGoBy(s, t, offers);
    case OutsideClear(scope) =>
      ScopesCarry(s.server, scope);
      CarriedGoBy(s, t, offers);
    case _ => CarriedGoBy(s, t, offers);
  }

  lemma ResolvingGoBy(s: Sys, k: Key, m: Move, offers: map<nat, seq<OptionSpec>>)
    requires WellFormed(s.server) && CanMove(s, k, m) && AllGoBy(s, offers)
    ensures AllGoBy(Moved(s, k, m), OffersAfter(s, Resolving(k, m), Moved(s, k, m), offers))
  {
    if m.Resume? {
      hide AllGoBy, PrepareOrWait, Carried;
      PrepareGoBy(s, k, s.resolvers[k], m.sawClient, true, offers);
      SameCarries(s.server);
      if s.server.heap[s.resolvers[k].inst].abandoned {
        CarriedGoBy(s, Leave(s, k), offers);
      }
    } else if m.Enter? {
      hide AllGoBy, EnterControl;
      EnterGoBy(s, k, offers);
    } else {
      hide AllGoBy, Moved, CanMove;
      MoveGoBy(s, k, m, offers);
    }
  }

  lemma {:induction false} RunGoBy(trace: seq<Sys>, steps: seq<Step>, n: nat)
    requires IsRun(trace, steps) && n < |trace|
    ensures AllGoBy(trace[n], Offers(trace, steps, n))
    decreases n
  {
    if n > 0 {
      hide AllGoBy, Apply, Enabled, OffersAfter, IsRun;
      LengthOf(trace, steps);
      RunStep(trace, steps, n - 1);
      RunGoBy(trace, steps, n - 1);
      StepGoBy(trace[n - 1], steps[n - 1], Offers(trace, steps, n - 1));
    }
  }

  // ---- what an answer comes to

  /** The answer does not suit the options that claim `i` was made with. */
  ghost predicate Unsuitable(offers: map<nat, seq<OptionSpec>>, i: nat, optionID: string, message: string) {
    i in offers && !Answers(offers[i], optionID, message)
  }

  /** The reply to an answer for a claim that is not resolved. */
  ghost predicate RepliedAs(c: Claim, unsuitable: bool, accepted: bool, r: Delivery) {
    if unsuitable then r == Invalid
    else match c.state
         case NoResolver => r == DeliverDirectly
         case Reserved => r == if accepted then ChannelFull else Delivered
         case Control => r == if accepted then ChannelFull else Delivered
         case _ => r == ResolverOwned
  }

  lemma DeliverReplies(s: Sys, offers: map<nat, seq<OptionSpec>>, k: Key, optionID: string, message: string)
    requires Sound(s) && AllGoBy(s, offers) && k in s.server.table && StateOf(s.server, k) != Resolved
    ensures var i := s.server.table[k];
      RepliedAs(s.server.heap[i], Unsuitable(offers, i, optionID, message), WasAccepted(s.accepted, i),
                Deliver(s.server, k, optionID, message).1)
  {
    var i := s.server.table[k];
    var c := s.server.heap[i];
    assert GoesBy(c, i, offers, s.accepted) && ClaimOk(c);
    if i in offers {
      AcceptableIs(c, offers[i], optionID, message);
    }
    if WasAccepted(s.accepted, i) {
      var a :| a in s.accepted && a.inst == i;
      var n :| 0 <= n < |s.accepted| && s.accepted[n] == a;
    }
    hide RequiredMessages, Answers, AllGoBy, HandedOk, NoneStranded, ClaimsOk;
  }

  /** What every answer in every run comes to.  Where no claim is pending it finds none.  For a
      claim that is not resolved it is invalid exactly if the claim was made with options and
      none of them has the answer's ID, or the last one that has it requires a message and there
      is none.  Otherwise it makes its caller deliver it if the claim has no resolver; it is
      delivered if the claim is under control and no answer was accepted for it before, and
      finds the channel full if one was; and it is refused if another resolver owns the claim. */
  lemma AnswerOutcome(trace: seq<Sys>, steps: seq<Step>, n: nat, k: Key, optionID: string, message: string)
    requires IsRun(trace, steps) && n < |trace|
    ensures WellFormed(trace[n].server)
    ensures var s, r := trace[n], Deliver(trace[n].server, k, optionID, message).1;
      && (r == NotFound <==> k !in s.server.table)
      && (k in s.server.table && s.server.heap[s.server.table[k]].state != Resolved ==>
            var i := s.server.table[k];
            RepliedAs(s.server.heap[i], Unsuitable(Offers(trace, steps, n), i, optionID, message), WasAccepted(s.accepted, i), r))
  {
    RunSound(trace, steps, n);
    RunGoBy(trace, steps, n);
    var s := trace[n];
    if k in s.server.table && s.server.heap[s.server.table[k]].state != Resolved {
      hide AllGoBy, Deliver, IsRun;
      DeliverReplies(s, Offers(trace, steps, n), k, optionID, message);
    } else {
      hide AllGoBy, Sound, Acceptable;
    }
  }

  // ---- answers that were accepted or are being delivered

  ghost predicate Suits(offers: map<nat, seq<OptionSpec>>, heap: nat, i: nat, a: Answer) {
    i < heap && (i in offers ==> Answers(offers[i], a.optionID, a.message))
  }

  ghost predicate AllSuit(s: Sys, offers: map<nat, seq<OptionSpec>>) {
    && (forall a <- s.accepted :: Suits(offers, |s.server.heap|, a.inst, a.answer))
    && (forall d <- s.directs :: Suits(offers, |s.server.heap|, s.directs[d].inst, s.directs[d].answer))
  }

  /** Nothing is said anew about the first so many claims. */
  ghost predicate Extends(offers: map<nat, seq<OptionSpec>>, count: nat, more: map<nat, seq<OptionSpec>>) {
    forall i | 0 <= i < count :: (i in more <==> i in offers) && (i in more ==> more[i] == offers[i])
  }

  lemma SuitStays(s: Sys, t: Sys, offers: map<nat, seq<OptionSpec>>, more: map<nat, seq<OptionSpec>>)
    requires AllSuit(s, offers) && |s.server.heap| <= |t.server.heap|
    requires Extends(offers, |s.server.heap|, more)
    requires t.accepted == s.accepted && t.directs.Keys <= s.directs.Keys && forall d <- t.directs :: t.directs[d] == s.directs[d]
    ensures AllSuit(t, more)
  {
    hide Answers;
    forall a <- t.accepted
      ensures Suits(more, |t.server.heap|, a.inst, a.answer)
    {
      assert Suits(offers, |s.server.heap|, a.inst, a.answer);
    }
    forall d <- t.directs
      ensures Suits(more, |t.server.heap|, t.directs[d].inst, t.directs[d].answer)
    {
      assert Suits(offers, |s.server.heap|, s.directs[d].inst, s.directs[d].answer);
    }
  }

  lemma DeliveredToUnresolved(s: Server, k: Key, optionID: string, message: string)
    requires WellFormed(s)
    ensures Deliver(s, k, optionID, message).1 in {Delivered, DeliverDirectly} ==> k in s.table && StateOf(s, k) != Resolved
  {
    hide Acceptable;
  }

  lemma AnswerSuits(s: Sys, offers: map<nat, seq<OptionSpec>>, k: Key, optionID: string, message: string, d: nat)
    requires Sound(s) && AllGoBy(s, offers) && AllSuit(s, offers)
    ensures AllSuit(ClientAnswered(s, k, optionID, message, d), offers)
  {
    hide Deliver, Answers, AllGoBy, Sound, Carried;
    SoundIsWellFormed(s);
    DeliveredToUnresolved(s.server, k, optionID, message);
    var t := ClientAnswered(s, k, optionID, message, d);
    var (u, delivery) := Deliver(s.server, k, optionID, message);
    DeliverCarries(s.server, k, optionID, message);
    if delivery == Delivered || (delivery == DeliverDirectly && k.scope != "") {
      var i := s.server.table[k];
      DeliverReplies(s, offers, k, optionID, message);
      assert Suits(offers, |s.server.heap|, i, Answer(k.requestID, optionID, message));
    } else {
      hide AllSuit;
      SuitStays(s, t, offers, offers);
    }
  }

  lemma MoveHistory(s: Sys, k: Key, m: Move)
    requires WellFormed(s.server) && CanMove(s, k, m)
    ensures Moved(s, k, m).accepted == s.accepted && Moved(s, k, m).directs == s.directs
  {
    hide KindOf, AutoOption, Discarded, Stamped, GiveUpControl, TakeAnswer, EnterControl, PrepareOrWait, Remove, NoneStarts;
    CallsQuietly(s, k);
    if m.Resume? {
      PrepareHistory(s, k, s.resolvers[k], m.sawClient, true);
    } else if m.PublishFailed? {
      RemoveQuietly(Leave(s, k), k);
    }
  }

  lemma PrepareHistory(s: Sys, k: Key, r: Resolver, sawClient: bool, afterDirect: bool)
    requires WellFormed(s.server)
    ensures var t := PrepareOrWait(s, k, r, sawClient, afterDirect); t.accepted == s.accepted && t.directs == s.directs && t.calls == s.calls
  {
    hide Prepare, EffectiveState;
  }

  // The parts of a resolver's moves that neither start it nor call the provider.

  lemma EnterQuietly(s: Sys, k: Key)
    requires WellFormed(s.server) && k in s.resolvers
    ensures Quietly(s, EnterControl(s, k))
  {
    hide Begin;
  }

  lemma TakeQuietly(s: Sys, k: Key)
    requires k in s.resolvers && s.resolvers[k].inst < |s.server.heap|
    ensures Quietly(s, TakeAnswer(s, k))
  {
    hide Update;
  }

  lemma StampQuietly(s: Sys, k: Key)
    requires WellFormed(s.server) && k in s.resolvers
    ensures Quietly(s, Stamped(s, k))
  {
    hide SetState, End;
  }

  lemma GiveQuietly(s: Sys, k: Key)
    requires WellFormed(s.server) && k in s.resolvers && s.resolvers[k].pc.HandOver?
    ensures Quietly(s, GiveUpControl(s, k))
  {
    hide Handoff, NextOwner, StateOf;
  }

  lemma CallsQuietly(s: Sys, k: Key)
    requires WellFormed(s.server) && k in s.resolvers && s.resolvers[k].inst < |s.server.heap|
    ensures Quietly(s, EnterControl(s, k))
    ensures Quietly(s, TakeAnswer(s, k))
    ensures Quietly(s, Stamped(s, k))
    ensures s.resolvers[k].pc.HandOver? ==> Quietly(s, GiveUpControl(s, k))
  {
    hide *;
    EnterQuietly(s, k);
    TakeQuietly(s, k);
    StampQuietly(s, k);
    if s.resolvers[k].pc.HandOver? {
      GiveQuietly(s, k);
    }
  }

  lemma AtStarts(s: Sys, k: Key, pc: Pc)
    requires k in s.resolvers
    ensures !(pc.Publishing? || pc.AutoCall?) || Starting(s.resolvers[k]) ==> NoneStarts(s, At(s, k, pc))
    ensures NoneStarts(s, Leave(s, k))
  {
  }

  /** Only the resolvers matter. */
  lemma SameResolvers(s: Sys, t: Sys, u: Sys)
    requires t.resolvers == u.resolvers && NoneStarts(s, t)
    ensures NoneStarts(s, u)
  {
  }

  lemma RemoveQuietly(s: Sys, k: Key)
    requires WellFormed(s.server)
    ensures Quietly(s, Remove(s, k))
  {
    hide End;
  }

  ghost predicate Quietly(s: Sys, t: Sys) {
    t.accepted == s.accepted && t.directs == s.directs && t.calls == s.calls && NoneStarts(s, t)
  }

  lemma StepHistory(s: Sys, st: Step)
    requires WellFormed(s.server) && Enabled(s, st) && !st.ClientAnswer?
    ensures var t := Apply(s, st);
      t.accepted == s.accepted && t.directs.Keys <= s.directs.Keys && forall d <- t.directs :: t.directs[d] == s.directs[d]
  {
    hide Moved, CanMove, Prepare, Mark, Retry, SignalAll, Clear, End, Overtakes, Reopens, Discarded, EffectiveState;
    if st.Resolving? {
      MoveHistory(s, st.k, st.move);
    }
  }

  lemma StepSuits(s: Sys, st: Step, offers: map<nat, seq<OptionSpec>>)
    requires Sound(s) && Enabled(s, st) && AllGoBy(s, offers) && AllSuit(s, offers)
    ensures AllSuit(Apply(s, st), OffersAfter(s, st, Apply(s, st), offers))
  {
    if st.ClientAnswer? {
      SoundIsWellFormed(s);
      hide Sound, AllGoBy, AllSuit, ClientAnswered;
      AnswerGoBy(s, st.k, st.optionID, st.message, st.d, offers);
      AnswerSuits(s, offers, st.k, st.optionID, st.message, st.d);
    } else {
      hide Sound, AllGoBy, AllSuit, Apply, Enabled, OffersAfter, Extends;
      SoundIsWellFormed(s);
      StepHistory(s, st);
      StepGrowsHeap(s, st);
      ExtendsAfter(s, st, Apply(s, st), offers);
      SuitStays(s, Apply(s, st), offers, OffersAfter(s, st, Apply(s, st), offers));
    }
  }

  lemma StepGrowsHeap(s: Sys, st: Step)
    requires Sound(s) && Enabled(s, st)
    ensures |s.server.heap| <= |Apply(s, st).server.heap|
    ensures forall i | 0 <= i < |s.server.heap| :: Apply(s, st).server.heap[i].key == s.server.heap[i].key
  {
    if !st.Connect? && !st.Disconnect? {
      hide Apply, Sound;
      StepEvolves(s, st);
    }
  }

  lemma {:induction false} RunSuits(trace: seq<Sys>, steps: seq<Step>, n: nat)
    requires IsRun(trace, steps) && n < |trace|
    ensures AllSuit(trace[n], Offers(trace, steps, n))
    decreases n
  {
    if n > 0 {
      hide AllGoBy, AllSuit, Apply, Enabled, OffersAfter, Sound, IsRun;
      LengthOf(trace, steps);
      RunStep(trace, steps, n - 1);
      RunSuits(trace, steps, n - 1);
      RunGoBy(trace, steps, n - 1);
      RunSound(trace, steps, n - 1);
      StepSuits(trace[n - 1], steps[n - 1], Offers(trace, steps, n - 1));
    }
  }

  /** Every answer that was accepted for a claim made with options, and every answer that is
      delivered directly for one, names one of those options and has a message if the last
      option of that name requires one. */
  lemma OnlySuitableAnswers(trace: seq<Sys>, steps: seq<Step>, n: nat)
    requires IsRun(trace, steps) && n < |trace|
    ensures forall a <- trace[n].accepted :: a.inst in Offers(trace, steps, n) ==>
      Answers(Offers(trace, steps, n)[a.inst], a.answer.optionID, a.answer.message)
    ensures forall d <- trace[n].directs :: trace[n].directs[d].inst in Offers(trace, steps, n) ==>
      Answers(Offers(trace, steps, n)[trace[n].directs[d].inst], trace[n].directs[d].answer.optionID, trace[n].directs[d].answer.message)
  {
    RunSuits(trace, steps, n);
    hide Answers, IsRun;
  }

  // ---- who a request is left to

  /** A request that gets its claim leaves it to the automatic resolver if there is one, else to
      a connected client, else to the file handler, else to whoever answers; the claim has the
      request's options. */
  lemma RequestOwner(trace: seq<Sys>, steps: seq<Step>, n: nat, k: Key, r: Resolver, sawClient: bool, afterDirect: bool)
    requires IsRun(trace, steps) && n < |steps| && steps[n] == Request(k, r, sawClient, afterDirect)
    requires k !in trace[n].server.table || trace[n].server.heap[trace[n].server.table[k]].state == Resolved
    ensures var t, i := trace[n + 1], |trace[n].server.heap|;
      && k in t.server.table && t.server.table[k] == i < |t.server.heap| && k in t.resolvers && t.resolvers[k].inst == i
      && t.server.heap[i].key == k && i in Offers(trace, steps, n + 1) && Offers(trace, steps, n + 1)[i] == r.options
      && t.server.heap[i].state == (if r.auto then Automatic else if sawClient then Reserved else if r.hasFile then File else NoResolver)
  {
    RunSound(trace, steps, n);
    RunStep(trace, steps, n);
    hide IsRun, Sound;
  }

  // ---- the end of a direct delivery

  /** A direct delivery that ends while its claim is still the one under its key: a success
      resolves the claim with the answer it gave, a failure leaves the claim to whoever answers
      next, which is told to deliver directly. */
  lemma DeliveryEnds(trace: seq<Sys>, steps: seq<Step>, n: nat, d: nat, ok: bool, optionID: string, message: string)
    requires IsRun(trace, steps) && n < |steps| && steps[n] == DirectDone(d, ok)
    requires d in trace[n].directs && trace[n].directs[d].key in trace[n].server.table
    requires trace[n].server.table[trace[n].directs[d].key] == trace[n].directs[d].inst
    requires StateOf(trace[n].server, trace[n].directs[d].key) == DirectDelivery
    ensures var e, t := trace[n].directs[d], trace[n + 1];
      && d !in t.directs && WellFormed(t.server) && e.key in t.server.table && t.server.table[e.key] == e.inst
      && (ok ==> t.server.heap[e.inst].state == Resolved
                 && t.server.heap[e.inst].resolution == Resolution("direct", e.answer.optionID, e.answer.message))
      && (!ok ==> t.server.heap[e.inst].state == NoResolver
                  && (!Unsuitable(Offers(trace, steps, n + 1), e.inst, optionID, message) ==>
                        Deliver(t.server, e.key, optionID, message).1 == DeliverDirectly))
  {
    RunSound(trace, steps, n);
    RunStep(trace, steps, n);
    var e, t := trace[n].directs[d], trace[n + 1];
    AnswerOutcome(trace, steps, n + 1, e.key, optionID, message);
    hide IsRun, Deliver, Offers, Unsuitable;
  }

  // ---- what the automatic resolver answers

  /** The first option that allows. */
  ghost predicate FirstAllows(options: seq<OptionSpec>, optionID: string) {
    if exists j: nat :: Allows(options, j) then
      exists j: nat :: Allows(options, j) && options[j].optionID == optionID && forall i: nat | i < j :: !Allows(options, i)
    else optionID == ""
  }

  predicate Allows(options: seq<OptionSpec>, j: nat) {
    j < |options| && !options[j].Malformed? && options[j].kind == Allow
  }

  lemma {:induction false} AutoOptionIs(options: seq<OptionSpec>)
    ensures FirstAllows(options, AutoOption(options))
    decreases |options|
  {
    if options != [] {
      if Allows(options, 0) {
        assert options[0].optionID == AutoOption(options);
      } else {
        var rest := options[1..];
        AutoOptionIs(rest);
        assert forall j: nat :: Allows(rest, j) ==> Allows(options, j + 1);
        assert forall j: nat :: Allows(options, j) ==> j > 0 && Allows(rest, j - 1);
        if exists j: nat :: Allows(rest, j) {
          var j: nat :| Allows(rest, j) && rest[j].optionID == AutoOption(rest) && forall i: nat | i < j :: !Allows(rest, i);
          assert Allows(options, j + 1) && options[j + 1].optionID == AutoOption(options);
        }
      }
    }
  }

  /** A resolver that publishes its request or calls the provider by itself. */
  predicate Starting(r: Resolver) {
    r.pc.Publishing? || r.pc.AutoCall?
  }

  /** It is at work on the claim made for its request. */
  ghost predicate AutoAt(s: Sys, offers: map<nat, seq<OptionSpec>>, k: Key)
    requires k in s.resolvers
  {
    var r := s.resolvers[k];
    Starting(r) ==>
      r.inst in offers && offers[r.inst] == r.options && r.inst < |s.server.heap| && s.server.heap[r.inst].key == k
  }

  ghost predicate AutoCalled(offers: map<nat, seq<OptionSpec>>, heap: seq<Claim>, c: Call) {
    c.party == ByAuto ==>
      && c.inst in offers && c.inst < |heap| && FirstAllows(offers[c.inst], c.answer.optionID)
      && c.answer.requestID == heap[c.inst].key.requestID && c.answer.message == ""
  }

  ghost predicate AutoOk(s: Sys, offers: map<nat, seq<OptionSpec>>) {
    && (forall k <- s.resolvers :: AutoAt(s, offers, k))
    && (forall c <- s.calls :: AutoCalled(offers, s.server.heap, c))
  }

  /** Resolvers that are starting were starting before, on the same claim. */
  ghost predicate NoneStarts(s: Sys, t: Sys) {
    forall k <- t.resolvers :: Starting(t.resolvers[k]) ==>
      k in s.resolvers && Starting(s.resolvers[k]) && t.resolvers[k] == s.resolvers[k].(pc := t.resolvers[k].pc)
  }

  /** The provider calls made by a step. */
  ghost predicate NewCalls(s: Sys, t: Sys) {
    && s.calls <= t.calls
    && forall c <- t.calls[|s.calls|..] :: c.party == ByAuto ==>
         exists k: Key :: k in s.resolvers && s.resolvers[k].pc.AutoCall? &&
           c == Call(s.resolvers[k].inst, ByAuto, Answer(k.requestID, AutoOption(s.resolvers[k].options), ""))
  }

  lemma MoveResolvers(s: Sys, k: Key, m: Move)
    requires WellFormed(s.server) && CanMove(s, k, m) && !m.Resume?
    ensures NoneStarts(s, Moved(s, k, m))
  {
    hide KindOf, AutoOption, Discarded, Stamped, GiveUpControl, TakeAnswer, EnterControl, PrepareOrWait, Finished, StateOf, NoneStarts, End;
    var t := Moved(s, k, m);
    AtStarts(s, k, if k in t.resolvers then t.resolvers[k].pc else Ending);
    if m.Enter? || m.Receive? || m.Stamp? || m.Give? {
      CallsQuietly(s, k);
    } else if k in t.resolvers {
      SameResolvers(s, At(s, k, t.resolvers[k].pc), t);
    } else {
      SameResolvers(s, Leave(s, k), t);
    }
  }

  lemma MoveCalls(s: Sys, k: Key, m: Move)
    requires WellFormed(s.server) && CanMove(s, k, m)
    ensures NewCalls(s, Moved(s, k, m))
  {
    hide KindOf, AutoOption, Discarded, Stamped, GiveUpControl, TakeAnswer, EnterControl, PrepareOrWait, Remove, NoneStarts, Finished, StateOf;
    var t := Moved(s, k, m);
    CallsQuietly(s, k);
    if m.AutoAnswer? || m.ControlAnswer? || m.FileAnswer? {
      assert t.calls == s.calls || t.calls[|s.calls|..] == [t.calls[|s.calls|]];
      assert m.AutoAnswer? ==> s.resolvers[k].pc.AutoCall?;
    } else {
      RemoveQuietly(Leave(s, k), k);
      if m.Resume? {
        PrepareHistory(s, k, s.resolvers[k], m.sawClient, true);
      }
      assert t.calls == s.calls && t.calls[|s.calls|..] == [];
    }
  }

  /** Any other step leaves the resolvers alone. */
  lemma PlainStep(s: Sys, st: Step)
    requires WellFormed(s.server) && Enabled(s, st) && !st.Request? && !st.Resolving?
    ensures var t := Apply(s, st);
      && t.resolvers == s.resolvers
      && t.calls == if st.DirectAnswer? then s.calls + [Call(s.directs[st.d].inst, ByDirect, s.directs[st.d].answer)] else s.calls
  {
    hide Prepare, Mark, Retry, SignalAll, Clear, End, Overtakes, Reopens, Discarded, Deliver;
  }

  lemma OtherStarts(s: Sys, st: Step)
    requires WellFormed(s.server) && Enabled(s, st) && !st.Request? && !(st.Resolving? && st.move.Resume?)
    ensures NoneStarts(s, Apply(s, st)) && NewCalls(s, Apply(s, st))
  {
    if st.Resolving? {
      hide Moved, CanMove, NoneStarts, NewCalls;
      MoveResolvers(s, st.k, st.move);
      MoveCalls(s, st.k, st.move);
    } else {
      hide Apply, Enabled;
      PlainStep(s, st);
      var t := Apply(s, st);
      assert t.calls == s.calls || t.calls[|s.calls|..] == [t.calls[|s.calls|]];
    }
  }

  lemma AutoStays(s: Sys, t: Sys, offers: map<nat, seq<OptionSpec>>, more: map<nat, seq<OptionSpec>>)
    requires AutoOk(s, offers) && Extends(offers, |s.server.heap|, more) && NoneStarts(s, t) && NewCalls(s, t)
    requires |s.server.heap| <= |t.server.heap| && forall i | 0 <= i < |s.server.heap| :: t.server.heap[i].key == s.server.heap[i].key
    ensures AutoOk(t, more)
  {
    hide FirstAllows, AutoOption;
    forall k <- t.resolvers
      ensures AutoAt(t, more, k)
    {
      if Starting(t.resolvers[k]) {
        assert AutoAt(s, offers, k);
      }
    }
    forall c <- t.calls
      ensures AutoCalled(more, t.server.heap, c)
    {
      if c in s.calls {
        assert AutoCalled(offers, s.server.heap, c);
      } else if c.party == ByAuto {
        assert t.calls == s.calls + t.calls[|s.calls|..];
        var k: Key :| k in s.resolvers && s.resolvers[k].pc.AutoCall? &&
          c == Call(s.resolvers[k].inst, ByAuto, Answer(k.requestID, AutoOption(s.resolvers[k].options), ""));
        assert AutoAt(s, offers, k);
        AutoOptionIs(s.resolvers[k].options);
      }
    }
  }

  /** A request that gets its claim starts on it; any other does not start. */
  lemma PrepareShape(s: Sys, k: Key, r: Resolver, sawClient: bool, afterDirect: bool)
    requires WellFormed(s.server)
    ensures var t, i := PrepareOrWait(s, k, r, sawClient, afterDirect), |s.server.heap|;
      && t.calls == s.calls && s.server.heap <= t.server.heap
      && (forall l <- t.resolvers :: l != k ==> l in s.resolvers && t.resolvers[l] == s.resolvers[l])
      && (k in t.resolvers && Starting(t.resolvers[k]) ==>
            i < |t.server.heap| && t.server.heap[i].key == k && t.resolvers[k].inst == i && t.resolvers[k].options == r.options)
      && (k in t.resolvers ==> !Marking(t.resolvers[k]))
  {
    hide EffectiveState, RequiredMessages;
  }

  lemma PrepareStarts(s: Sys, k: Key, r: Resolver, sawClient: bool, afterDirect: bool, offers: map<nat, seq<OptionSpec>>)
    requires WellFormed(s.server) && AutoOk(s, offers)
    ensures var t := PrepareOrWait(s, k, r, sawClient, afterDirect);
      AutoOk(t, if |s.server.heap| < |t.server.heap| then offers[|s.server.heap| := r.options] else offers)
  {
    hide FirstAllows, PrepareOrWait;
    var t := PrepareOrWait(s, k, r, sawClient, afterDirect);
    var more := if |s.server.heap| < |t.server.heap| then offers[|s.server.heap| := r.options] else offers;
    PrepareShape(s, k, r, sawClient, afterDirect);
    forall l <- t.resolvers
      ensures AutoAt(t, more, l)
    {
      if l != k {
        assert AutoAt(s, offers, l);
      }
    }
    forall c <- t.calls
      ensures AutoCalled(more, t.server.heap, c)
    {
      assert AutoCalled(offers, s.server.heap, c);
    }
  }

  lemma ExtendsAfter(s: Sys, st: Step, t: Sys, offers: map<nat, seq<OptionSpec>>)
    ensures Extends(offers, |s.server.heap|, OffersAfter(s, st, t, offers))
  {
  }

  lemma ResumeAuto(s: Sys, k: Key, sawClient: bool, offers: map<nat, seq<OptionSpec>>)
    requires Sound(s) && CanMove(s, k, Resume(sawClient)) && AutoOk(s, offers)
    ensures var t := Moved(s, k, Resume(sawClient)); AutoOk(t, OffersAfter(s, Resolving(k, Resume(sawClient)), t, offers))
  {
    if s.server.heap[s.resolvers[k].inst].abandoned {
      var t := Leave(s, k);
      assert NoneStarts(s, t);
      assert t.calls[|s.calls|..] == [];
      AutoStays(s, t, offers, offers);
    } else {
      SoundIsWellFormed(s);
      hide AutoOk, PrepareOrWait, Sound;
      PrepareStarts(s, k, s.resolvers[k], sawClient, true, offers);
    }
  }

  lemma StepAuto(s: Sys, st: Step, offers: map<nat, seq<OptionSpec>>)
    requires Sound(s) && Enabled(s, st) && AutoOk(s, offers)
    ensures AutoOk(Apply(s, st), OffersAfter(s, st, Apply(s, st), offers))
  {
    var t := Apply(s, st);
    if st.Request? {
      SoundIsWellFormed(s);
      hide AutoOk, PrepareOrWait, Sound;
      PrepareStarts(s, st.k, st.r, st.sawClient, st.afterDirect, offers);
    } else if st.Resolving? && st.move.Resume? {
      hide AutoOk, Moved, CanMove, Sound, OffersAfter;
      ResumeAuto(s, st.k, st.move.sawClient, offers);
    } else {
      StepGrowsHeap(s, st);
      hide AutoOk, Apply, Enabled, Sound, OffersAfter, NoneStarts, NewCalls, Extends;
      SoundIsWellFormed(s);
      OtherStarts(s, st);
      ExtendsAfter(s, st, t, offers);
      AutoStays(s, t, offers, OffersAfter(s, st, t, offers));
    }
  }

  lemma SoundIsWellFormed(s: Sys)
    requires Sound(s)
    ensures WellFormed(s.server)
  {
  }

  lemma {:induction false} RunAuto(trace: seq<Sys>, steps: seq<Step>, n: nat)
    requires IsRun(trace, steps) && n < |trace|
    ensures AutoOk(trace[n], Offers(trace, steps, n))
    decreases n
  {
    if n > 0 {
      hide AutoOk, Apply, Enabled, OffersAfter, Sound, IsRun;
      LengthOf(trace, steps);
      RunStep(trace, steps, n - 1);
      RunAuto(trace, steps, n - 1);
      RunSound(trace, steps, n - 1);
      StepAuto(trace[n - 1], steps[n - 1], Offers(trace, steps, n - 1));
    }
  }

  /** Every call of the provider by the automatic resolver gives, for the request it was made
      for and without a message, the first offered option that allows, or the empty one if none
      does. */
  lemma AutoGivesFirstAllowed(trace: seq<Sys>, steps: seq<Step>, n: nat, c: Call)
    requires IsRun(trace, steps) && n < |trace| && c in trace[n].calls && c.party == ByAuto
    ensures c.inst in Offers(trace, steps, n) && FirstAllows(Offers(trace, steps, n)[c.inst], c.answer.optionID)
    ensures c.inst < |trace[n].server.heap| && c.answer == Answer(trace[n].server.heap[c.inst].key.requestID, c.answer.optionID, "")
  {
    RunAuto(trace, steps, n);
    hide IsRun, FirstAllows;
    assert AutoCalled(Offers(trace, steps, n), trace[n].server.heap, c);
  }

  // ---- what a resolver records

  /** A resolver whose answer the provider has taken. */
  predicate Marking(r: Resolver) {
    r.pc.AutoMark? || r.pc.ControlMark? || r.pc.FileMark?
  }

  function Source(p: Party): string {
    match p
    case ByAuto => "avenor"
    case ByControl => "control"
    case ByFile => "file"
    case ByDirect => "direct"
  }

  /** It is about to record what it gave the provider. */
  ghost predicate Gave(r: Resolver, calls: seq<Call>) {
    Marking(r) ==> exists c <- calls :: c.inst == r.inst && ResolutionOf(r) == Resolution(Source(c.party), c.answer.optionID, c.answer.message)
  }

  ghost predicate AllGave(s: Sys) {
    forall k <- s.resolvers :: Gave(s.resolvers[k], s.calls)
  }

  lemma GaveStays(r: Resolver, calls: seq<Call>, more: seq<Call>)
    requires Gave(r, calls) && calls <= more
    ensures Gave(r, more)
  {
    if Marking(r) {
      var c :| c in calls && c.inst == r.inst && ResolutionOf(r) == Resolution(Source(c.party), c.answer.optionID, c.answer.message);
      assert c in more;
    }
  }

  lemma EnterMarks(s: Sys, k: Key)
    requires WellFormed(s.server) && k in s.resolvers
    ensures var t := EnterControl(s, k); OnlyOwn(s, t, k) && (k in t.resolvers ==> !Marking(t.resolvers[k]))
  {
    hide Begin;
  }

  lemma TakeMarks(s: Sys, k: Key)
    requires k in s.resolvers && s.resolvers[k].inst < |s.server.heap|
    ensures var t := TakeAnswer(s, k); OnlyOwn(s, t, k) && (k in t.resolvers ==> !Marking(t.resolvers[k]))
  {
    hide Update;
  }

  lemma StampMarks(s: Sys, k: Key)
    requires WellFormed(s.server) && k in s.resolvers
    ensures var t := Stamped(s, k); OnlyOwn(s, t, k) && (k in t.resolvers ==> !Marking(t.resolvers[k]))
  {
    hide SetState, End;
  }

  lemma GiveMarks(s: Sys, k: Key)
    requires WellFormed(s.server) && k in s.resolvers && s.resolvers[k].pc.HandOver?
    ensures var t := GiveUpControl(s, k); OnlyOwn(s, t, k) && (k in t.resolvers ==> !Marking(t.resolvers[k]))
  {
    hide Handoff, NextOwner, StateOf;
  }

  /** Only the resolver of this key changes. */
  ghost predicate OnlyOwn(s: Sys, t: Sys, k: Key) {
    forall l <- t.resolvers :: l != k ==> l in s.resolvers && t.resolvers[l] == s.resolvers[l]
  }

  lemma AnswerMarks(s: Sys, k: Key, m: Move)
    requires WellFormed(s.server) && CanMove(s, k, m) && (m.AutoAnswer? || m.ControlAnswer? || m.FileAnswer?)
    ensures var t := Moved(s, k, m); OnlyOwn(s, t, k) && k in t.resolvers && Gave(t.resolvers[k], t.calls)
  {
    hide KindOf, AutoOption, Discarded, Stamped, GiveUpControl, TakeAnswer, EnterControl, PrepareOrWait, Finished, StateOf, End;
    var t := Moved(s, k, m);
    if Marking(t.resolvers[k]) {
      var c := t.calls[|s.calls|];
      assert c in t.calls && c.inst == t.resolvers[k].inst;
      assert ResolutionOf(t.resolvers[k]) == Resolution(Source(c.party), c.answer.optionID, c.answer.message);
    }
  }

  lemma MoveMarks(s: Sys, k: Key, m: Move)
    requires WellFormed(s.server) && CanMove(s, k, m)
    ensures var t := Moved(s, k, m); OnlyOwn(s, t, k) && (k in t.resolvers ==> Gave(t.resolvers[k], t.calls))
  {
    if m.AutoAnswer? || m.ControlAnswer? || m.FileAnswer? {
      hide Moved, CanMove;
      AnswerMarks(s, k, m);
    } else {
      hide KindOf, AutoOption, Discarded, Stamped, GiveUpControl, TakeAnswer, EnterControl, PrepareOrWait, Finished, StateOf, End, ResolutionOf;
      if m.Enter? {
        EnterMarks(s, k);
      } else if m.Receive? {
        TakeMarks(s, k);
      } else if m.Stamp? {
        StampMarks(s, k);
      } else if m.Give? {
        GiveMarks(s, k);
      } else if m.Resume? {
        PrepareShape(s, k, s.resolvers[k], m.sawClient, true);
      }
    }
  }

  lemma StepGave(s: Sys, st: Step)
    requires WellFormed(s.server) && Enabled(s, st) && AllGave(s)
    ensures AllGave(Apply(s, st))
  {
    var t := Apply(s, st);
    var k := if st.Resolving? || st.Request? then st.k else Key("", "");
    if st.Resolving? {
      hide Moved, CanMove, Gave, NewCalls;
      MoveMarks(s, k, st.move);
      MoveCalls(s, k, st.move);
      CallsGrow(s, t);
    } else if st.Request? {
      hide PrepareOrWait, ResolutionOf;
      PrepareShape(s, k, st.r, st.sawClient, st.afterDirect);
    } else {
      hide Apply, Enabled, Gave;
      PlainStep(s, st);
    }
    hide Apply, Enabled, Gave;
    forall l <- t.resolvers
      ensures Gave(t.resolvers[l], t.calls)
    {
      if l in s.resolvers && t.resolvers[l] == s.resolvers[l] {
        GaveStays(s.resolvers[l], s.calls, t.calls);
      }
    }
  }

  lemma CallsGrow(s: Sys, t: Sys)
    requires NewCalls(s, t)
    ensures s.calls <= t.calls
  {
  }

  lemma {:induction false} RunGave(trace: seq<Sys>, steps: seq<Step>, n: nat)
    requires IsRun(trace, steps) && n < |trace|
    ensures AllGave(trace[n])
    decreases n
  {
    if n > 0 {
      hide AllGave, Apply, Enabled, Sound, IsRun;
      LengthOf(trace, steps);
      RunStep(trace, steps, n - 1);
      RunGave(trace, steps, n - 1);
      RunSound(trace, steps, n - 1);
      StepGave(trace[n - 1], steps[n - 1]);
    }
  }

  /** A resolver that has had an answer taken records just that answer: when it marks the claim
      under its key as resolved, the resolution names the option and the message of a call of
      the provider that it made, and who made it. */
  lemma RecordsWhatItGave(trace: seq<Sys>, steps: seq<Step>, n: nat, k: Key)
    requires IsRun(trace, steps) && n < |steps| && steps[n] == Resolving(k, Finish)
    requires k in trace[n].resolvers && !trace[n].resolvers[k].pc.Ending? && k in trace[n].server.table
    ensures var t, i := trace[n + 1].server, trace[n].server.table[k];
      && k in t.table && t.table[k] == i < |t.heap| && t.heap[i].state == Resolved && k !in trace[n + 1].resolvers
      && exists c <- trace[n].calls :: c.inst == trace[n].resolvers[k].inst &&
           t.heap[i].resolution == Resolution(Source(c.party), c.answer.optionID, c.answer.message)
  {
    RunGave(trace, steps, n);
    RunSound(trace, steps, n);
    RunStep(trace, steps, n);
    assert Gave(trace[n].resolvers[k], trace[n].calls);
    hide IsRun, Sound, ResolutionOf, AllGave;
  }

  // ---- when a claim leaves the table

  /** The steps by which the claim under `k` may leave: it is removed by key or with its scope,
      its resolver fails or gives up, or it is resolved and makes room for a new request. */
  predicate MayLeave(s: Sys, st: Step, k: Key)
    requires WellFormed(s.server)
  {
    match st
    case OutsideEnd(l) => l == k
    case OutsideClear(scope) => k.scope == scope
    case Request(l, _, _, _) => l == k && StateOf(s.server, k) == Resolved
    case IdleRequest(l, _) => l == k && StateOf(s.server, k) == Resolved
    case Resolving(l, m) => l == k && k in s.resolvers && ResolverMayLeave(s, k, m)
    case _ => false
  }

  predicate ResolverMayLeave(s: Sys, k: Key, m: Move)
    requires WellFormed(s.server) && k in s.resolvers
  {
    var pc := s.resolvers[k].pc;
    match m
    case Resume(_) => StateOf(s.server, k) == Resolved
    case PublishFailed => true
    case Finish => pc.Ending?
    case Stamp => pc.NoneStamp? && k.scope == ""
    case Give => pc.HandOver? && pc.cancelled && UnderControl(StateOf(s.server, k))
    case _ => false
  }

  /** Every claim is still under its key, except that the one under `k` may leave. */
  ghost predicate TableChange(before: map<Key, nat>, after: map<Key, nat>, k: Key, mayLeave: bool) {
    forall l <- before :: (l in after && after[l] == before[l]) || (l == k && mayLeave)
  }

  lemma SameTables(s: Server, k: Key, st: ResolverState, res: Resolution)
    requires WellFormed(s)
    ensures SetState(s, k, st).table == s.table && Mark(s, k, res).0.table == s.table && Retry(s, k).0.table == s.table
    ensures End(s, k).table == s.table - {k}
  {
  }

  lemma PrepareTable(s: Server, k: Key, st: ResolverState, options: Option<seq<OptionSpec>>)
    requires WellFormed(s)
    ensures Prepare(s, k, st, options).0.table ==
      if k !in s.table || StateOf(s, k) == Resolved then s.table[k := |s.heap|] else s.table
  {
    hide RequiredMessages;
  }

  lemma HandoffTable(s: Server, k: Key, st: ResolverState)
    requires WellFormed(s)
    ensures var t := Handoff(s, k, st).0; t.table == s.table || (t.table == s.table - {k} && st == Resolved && UnderControl(StateOf(s, k)))
  {
  }

  lemma DeliverKeepsTable(s: Server, k: Key, optionID: string, message: string)
    requires WellFormed(s)
    ensures Deliver(s, k, optionID, message).0.table == s.table
  {
    hide Acceptable;
  }

  lemma RequestTable(s: Sys, k: Key, r: Resolver, sawClient: bool, afterDirect: bool)
    requires WellFormed(s.server)
    ensures var t := PrepareOrWait(s, k, r, sawClient, afterDirect);
      TableChange(s.server.table, t.server.table, k, StateOf(s.server, k) == Resolved)
  {
    hide Prepare, EffectiveState, StateOf;
    PrepareTable(s.server, k, EffectiveState(r.auto, sawClient, r.hasFile), Some(r.options));
  }

  lemma EnterTable(s: Sys, k: Key, mayLeave: bool)
    requires WellFormed(s.server) && k in s.resolvers
    ensures TableChange(s.server.table, EnterControl(s, k).server.table, k, mayLeave)
  {
    var t := EnterControl(s, k);
    assert t.server.table == s.server.table || (k !in s.server.table && t.server.table == s.server.table[k := |s.server.heap|]);
  }

  lemma GiveTable(s: Sys, k: Key)
    requires WellFormed(s.server) && k in s.resolvers && s.resolvers[k].pc.HandOver?
    ensures TableChange(s.server.table, GiveUpControl(s, k).server.table, k,
                        s.resolvers[k].pc.cancelled && UnderControl(StateOf(s.server, k)))
  {
    hide Handoff, StateOf, UnderControl;
    HandoffTable(s.server, k, NextOwner(s.resolvers[k]));
  }

  lemma StampTable(s: Sys, k: Key)
    requires WellFormed(s.server) && k in s.resolvers
    ensures TableChange(s.server.table, Stamped(s, k).server.table, k, !s.resolvers[k].pc.FileStamp? && k.scope == "")
  {
    hide SetState, End;
    SameTables(s.server, k, File, Resolution("", "", ""));
    SameTables(s.server, k, NoResolver, Resolution("", "", ""));
  }

  lemma FinishTable(s: Server, k: Key, r: Resolver)
    requires WellFormed(s)
    ensures Finished(s, k, r).table == if r.pc.Ending? then s.table - {k} else s.table
  {
    hide End, Mark, ResolutionOf;
    SameTables(s, k, File, ResolutionOf(r));
  }

  lemma TakeTable(s: Sys, k: Key)
    requires k in s.resolvers && s.resolvers[k].inst < |s.server.heap|
    ensures TakeAnswer(s, k).server.table == s.server.table
  {
  }

  lemma MoveTable(s: Sys, k: Key, m: Move)
    requires WellFormed(s.server) && CanMove(s, k, m)
    ensures TableChange(s.server.table, Moved(s, k, m).server.table, k, ResolverMayLeave(s, k, m))
    ensures m.PublishFailed? ==> k !in Moved(s, k, m).server.table
  {
    hide KindOf, AutoOption, Discarded, PrepareOrWait, EnterControl, GiveUpControl, Stamped, Finished, End, StateOf, TableChange, TakeAnswer;
    var t := Moved(s, k, m);
    TakeTable(s, k);
    NoChange(s.server.table, t.server.table, k, ResolverMayLeave(s, k, m));
    match m
    case Resume(sawClient) => RequestTable(s, k, s.resolvers[k], sawClient, true);
    case Enter => EnterTable(s, k, false);
    case Give => GiveTable(s, k);
    case Stamp => StampTable(s, k);
    case Finish => FinishTable(s.server, k, s.resolvers[k]);
    case PublishFailed => SameTables(s.server, k, File, Resolution("", "", ""));
    case _ =>
  }

  lemma NoChange(before: map<Key, nat>, after: map<Key, nat>, k: Key, mayLeave: bool)
    ensures after == before ==> TableChange(before, after, k, mayLeave)
    ensures after == before - {k} && (mayLeave || k !in before) ==> TableChange(before, after, k, mayLeave)
  {
    if after == before - {k} && k !in before {
      assert after == before;
    }
  }

  /** A claim leaves the table only by a step that is for its key or its scope, and only by one
      of those named above; and the removal of a key or a scope takes away exactly its claims. */
  lemma LeavesOnlyWhen(trace: seq<Sys>, steps: seq<Step>, n: nat, k: Key)
    requires IsRun(trace, steps) && n < |steps| && k in trace[n].server.table
    ensures WellFormed(trace[n].server)
    ensures k !in trace[n + 1].server.table || trace[n + 1].server.table[k] != trace[n].server.table[k] ==> MayLeave(trace[n], steps[n], k)
    ensures steps[n] == OutsideEnd(k) || steps[n] == OutsideClear(k.scope) || steps[n] == Resolving(k, PublishFailed) ==> k !in trace[n + 1].server.table
  {
    RunSound(trace, steps, n);
    RunStep(trace, steps, n);
    hide IsRun, Sound;
    var s, st := trace[n], steps[n];
    SoundIsWellFormed(s);
    StepLeaves(s, st, k);
  }

  lemma Unchanged(before: map<Key, nat>, after: map<Key, nat>, k: Key, l: Key, mayLeave: bool)
    requires TableChange(before, after, l, mayLeave) && k in before
    ensures k !in after || after[k] != before[k] ==> k == l && mayLeave
  {
  }

  lemma ResolvingLeaves(s: Sys, l: Key, m: Move, k: Key)
    requires WellFormed(s.server) && CanMove(s, l, m) && k in s.server.table
    ensures var t := Moved(s, l, m);
      && (k !in t.server.table || t.server.table[k] != s.server.table[k] ==> l == k && k in s.resolvers && ResolverMayLeave(s, k, m))
      && (l == k && m == PublishFailed ==> k !in t.server.table)
  {
    hide Moved, ResolverMayLeave, TableChange;
    MoveTable(s, l, m);
    Unchanged(s.server.table, Moved(s, l, m).server.table, k, l, ResolverMayLeave(s, l, m));
  }

  lemma RequestLeaves(s: Sys, st: Step, k: Key)
    requires WellFormed(s.server) && Enabled(s, st) && k in s.server.table && (st.Request? || st.IdleRequest?)
    ensures var t := Apply(s, st);
      k !in t.server.table || t.server.table[k] != s.server.table[k] ==> st.k == k && StateOf(s.server, k) == Resolved
  {
    hide PrepareOrWait, Prepare, StateOf, TableChange;
    if st.Request? {
      RequestTable(s, st.k, st.r, st.sawClient, st.afterDirect);
      Unchanged(s.server.table, Apply(s, st).server.table, k, st.k, StateOf(s.server, st.k) == Resolved);
    } else {
      PrepareTable(s.server, st.k, NoResolver, Some(st.options));
    }
  }

  lemma OutsideLeaves(s: Sys, st: Step, k: Key)
    requires WellFormed(s.server) && k in s.server.table && (st.OutsideEnd? || st.OutsideClear?)
    ensures k in Apply(s, st).server.table <==> if st.OutsideEnd? then k != st.k else k.scope != st.scope
    ensures k in Apply(s, st).server.table ==> Apply(s, st).server.table[k] == s.server.table[k]
  {
  }

  lemma OthersLeaveNone(s: Sys, st: Step)
    requires WellFormed(s.server) && Enabled(s, st)
    requires !st.Resolving? && !st.Request? && !st.IdleRequest? && !st.OutsideEnd? && !st.OutsideClear?
    ensures Apply(s, st).server.table == s.server.table
  {
    hide Deliver, Mark, Retry, Overtakes, Reopens, Discarded;
    if st.ClientAnswer? {
      DeliverKeepsTable(s.server, st.k, st.optionID, st.message);
    } else if st.DirectDone? {
      var e := s.directs[st.d];
      SameTables(s.server, e.key, File, Resolution("direct", e.answer.optionID, e.answer.message));
    }
  }

  lemma StepLeaves(s: Sys, st: Step, k: Key)
    requires WellFormed(s.server) && Enabled(s, st) && k in s.server.table
    ensures var t := Apply(s, st);
      && (k !in t.server.table || t.server.table[k] != s.server.table[k] ==> MayLeave(s, st, k))
      && (st == OutsideEnd(k) || st == OutsideClear(k.scope) || st == Resolving(k, PublishFailed) ==> k !in t.server.table)
  {
    if st.Resolving? {
      hide Moved, CanMove, ResolverMayLeave, StateOf;
      ResolvingLeaves(s, st.k, st.move, k);
    } else {
      hide Apply, Enabled, StateOf;
      if st.Request? || st.IdleRequest? {
        RequestLeaves(s, st, k);
      } else if st.OutsideEnd? || st.OutsideClear? {
        OutsideLeaves(s, st, k);
      } else {
        OthersLeaveNone(s, st);
      }
    }
  }
}
