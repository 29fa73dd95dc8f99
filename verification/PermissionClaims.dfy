/** The table of pending permission requests kept by the control server
    (`internal/control/server.go`): one claim per (scope, request ID), saying who may
    answer the provider for that request.

    Every operation is one critical section of the server.  The functions give its
    effect on a value of type `Server`; class `ControlServer` carries the operations out
    on fields and is proved to have exactly that effect. */
module PermissionClaims {
  import opened Common

  datatype Key = Key(scope: string, requestID: string)

  datatype ResolverState =
    | Unknown | Reserved | Control | Automatic | File | NoResolver | DirectDelivery | Resolved

  datatype Answer = Answer(requestID: string, optionID: string, message: string)

  /** One element of a request's option list; anything that is not an object is `Malformed`. */
  datatype OptionSpec =
    | Malformed
    | OptionSpec(optionID: string, kind: Decision, requiresMessage: bool)

  datatype Resolution = Resolution(source: string, optionID: string, message: string)

  /** An answer channel of capacity one, together with whether the claim's field that
      held it is nil by now; a resolver may still hold the channel itself.  `fault`
      records that it was closed twice or sent on after its close. */
  datatype AnswerCh = AnswerCh(buf: seq<Answer>, closed: bool, isNil: bool, fault: bool)

  /** A channel that only ever gets closed; `fault` records a second close. */
  datatype Signal = Signal(closed: bool, isNil: bool, fault: bool)

  /** The completion channels of direct deliveries: how many were made, whether the last one
      is closed, and whether the field that held it is nil.  `fault` records a second close
      and `dropped` that a channel somebody may wait on was replaced while open. */
  datatype Deliveries = Deliveries(made: nat, closed: bool, isNil: bool, fault: bool, dropped: bool)

  datatype Claim = Claim(
    key: Key,
    state: ResolverState,
    resolution: Resolution,
    answerCh: AnswerCh,
    answerQueued: bool,
    disconnectCh: Signal,
    requiresMessage: Option<map<string, bool>>,
    direct: Deliveries,
    abandoned: bool
  )

  /** `heap` holds every claim ever made, so an index is a claim's identity; `table` is
      the map of pending claims. */
  datatype Server = Server(table: map<Key, nat>, heap: seq<Claim>, conns: set<nat>)

  datatype Delivery =
    | NotFound | Delivered | AlreadyResolved | AlreadyResolvedSame
    | ChannelFull | ResolverOwned | DeliverDirectly | Invalid

  ghost predicate WellFormed(s: Server) {
    forall k <- s.table :: s.table[k] < |s.heap| && s.heap[s.table[k]].key == k
  }

  predicate Live(s: Server, i: nat) {
    i < |s.heap| && s.heap[i].key in s.table && s.table[s.heap[i].key] == i
  }

  predicate UnderControl(st: ResolverState) {
    st == Reserved || st == Control
  }

  // ---- options

  /** Which offered options need a message; a later entry for an option wins. */
  function RequiredMessages(options: seq<OptionSpec>): map<string, bool> {
    if options == [] then map[]
    else
      var m := RequiredMessages(options[..|options| - 1]);
      var o := options[|options| - 1];
      if o.Malformed? || o.optionID == "" then m else m[o.optionID := o.requiresMessage]
  }

  /** The kind of the first option with this ID; an ID that is not offered has no kind. */
  function KindOf(optionID: string, options: seq<OptionSpec>): Decision {
    if options == [] then OtherKind
    else if !options[0].Malformed? && options[0].optionID == optionID then options[0].kind
    else KindOf(optionID, options[1..])
  }

  predicate Acceptable(c: Claim, optionID: string, message: string) {
    c.requiresMessage.None? ||
    (optionID in c.requiresMessage.value &&
     (c.requiresMessage.value[optionID] ==> message != ""))
  }

  // ---- claims

  function NewClaim(key: Key, st: ResolverState, requires_: Option<map<string, bool>>): Claim {
    Claim(key, st, Resolution("", "", ""), AnswerCh([], false, false, false), false,
          Signal(false, false, false), requires_, Deliveries(0, true, true, false, false), false)
  }

  /** The close itself, which faults on a channel that is closed. */
  function CloseSignal(s: Signal): Signal {
    s.(closed := true, fault := s.fault || s.closed)
  }

  function CloseDone(d: Deliveries): Deliveries {
    d.(closed := true, fault := d.fault || d.closed)
  }

  function MakeDone(d: Deliveries): Deliveries {
    d.(made := d.made + 1, closed := false, isNil := false, dropped := d.dropped || !d.closed)
  }

  /** Closes the channel unless it is nil or closed already. */
  function Signalled(s: Signal): Signal {
    if s.isNil || s.closed then s else CloseSignal(s)
  }

  /** Closes the completion channel and lets go of it, unless that was done. */
  function Done(d: Deliveries): Deliveries {
    if d.isNil then d else CloseDone(d).(isNil := true)
  }

  function SignalDisconnect(c: Claim): Claim {
    c.(disconnectCh := Signalled(c.disconnectCh))
  }

  function FinishDirect(c: Claim): Claim {
    c.(direct := Done(c.direct))
  }

  function Abandon(c: Claim): Claim {
    FinishDirect(c.(abandoned := true))
  }

  /** Drains and closes the channel and lets go of it. */
  function RetireAnswers(ch: AnswerCh): AnswerCh {
    if ch.isNil then ch
    else AnswerCh(if ch.buf == [] then [] else ch.buf[1..], true, true, ch.fault || ch.closed)
  }

  function SendAnswer(ch: AnswerCh, a: Answer): AnswerCh {
    ch.(buf := ch.buf + [a], fault := ch.fault || ch.closed)
  }

  function Resolve(c: Claim, r: Resolution): Claim {
    c.(state := Resolved, resolution := r, direct := Done(c.direct), answerCh := RetireAnswers(c.answerCh), answerQueued := false,
       disconnectCh := Signalled(c.disconnectCh).(isNil := true), requiresMessage := None)
  }

  predicate MatchesResolution(c: Claim, optionID: string, message: string) {
    c.resolution.optionID != "" && c.resolution.optionID == optionID && c.resolution.message == message
  }

  // ---- operations on the table

  function Update(s: Server, i: nat, c: Claim): Server
    requires i < |s.heap|
  {
    s.(heap := s.heap[i := c])
  }

  function StateOf(s: Server, k: Key): ResolverState
    requires WellFormed(s)
  {
    if k in s.table then s.heap[s.table[k]].state else Unknown
  }

  function Prepare(s: Server, k: Key, st: ResolverState, options: Option<seq<OptionSpec>>): (r: (Server, bool))
    requires WellFormed(s)
    ensures WellFormed(r.0) && r.0.conns == s.conns
    ensures r.1 <==> k !in s.table || StateOf(s, k) == Resolved
    ensures !r.1 ==> r.0 == s
    ensures r.1 ==> StateOf(r.0, k) == st && k in r.0.table && r.0.table[k] == |s.heap|
  {
    if k in s.table && s.heap[s.table[k]].state != Resolved then (s, false)
    else
      var req := if options.None? then None else Some(RequiredMessages(options.value));
      var c := NewClaim(k, st, req);
      var d := if st == Reserved && s.conns == {} then SignalDisconnect(c) else c;
      (s.(table := s.table[k := |s.heap|], heap := s.heap + [d]), true)
  }

  /** A direct delivery holds the key: the caller waits for it instead of preparing. */
  predicate DeliveryInFlight(s: Server, k: Key)
    requires WellFormed(s)
  {
    k in s.table && s.heap[s.table[k]].state == DirectDelivery && !s.heap[s.table[k]].direct.isNil
  }

  function SetState(s: Server, k: Key, st: ResolverState): (r: Server)
    requires WellFormed(s)
    ensures WellFormed(r)
  {
    if k !in s.table || StateOf(s, k) == Resolved || StateOf(s, k) == DirectDelivery then s
    else Update(s, s.table[k], s.heap[s.table[k]].(state := st))
  }

  function Mark(s: Server, k: Key, res: Resolution): (r: (Server, bool))
    requires WellFormed(s)
    ensures WellFormed(r.0)
  {
    if k !in s.table then (s, false)
    else (Update(s, s.table[k], Resolve(s.heap[s.table[k]], res)), true)
  }

  function Retry(s: Server, k: Key): (r: (Server, bool))
    requires WellFormed(s)
    ensures WellFormed(r.0)
  {
    if StateOf(s, k) != DirectDelivery then (s, false)
    else (Update(s, s.table[k], FinishDirect(s.heap[s.table[k]].(state := NoResolver))), true)
  }

  /** Takes a queued answer, or else gives control ownership up to `next`. */
  function Handoff(s: Server, k: Key, next: ResolverState): (r: (Server, Option<Answer>))
    requires WellFormed(s)
    ensures WellFormed(r.0)
  {
    if !UnderControl(StateOf(s, k)) then (s, None)
    else
      var c := s.heap[s.table[k]];
      if c.answerCh.buf != [] then
        (Update(s, s.table[k], c.(answerCh := c.answerCh.(buf := c.answerCh.buf[1..]))), Some(c.answerCh.buf[0]))
      else if next == Resolved then (s.(table := s.table - {k}), None)
      else (Update(s, s.table[k], c.(state := next)), None)
  }

  function Begin(s: Server, k: Key): (r: (Server, bool))
    requires WellFormed(s)
    ensures WellFormed(r.0)
    ensures r.1 <==> k !in s.table || StateOf(s, k) == Reserved
    ensures r.1 ==> StateOf(r.0, k) == Control
  {
    if k in s.table && s.heap[s.table[k]].state != Reserved then (s, false)
    else
      var t := if k in s.table then s
               else s.(table := s.table[k := |s.heap|], heap := s.heap + [NewClaim(k, Unknown, None)]);
      var c := t.heap[t.table[k]].(state := Control);
      (Update(t, t.table[k], if s.conns == {} then SignalDisconnect(c) else c), true)
  }

  function End(s: Server, k: Key): (r: Server)
    requires WellFormed(s)
    ensures WellFormed(r)
  {
    if k !in s.table then s
    else Update(s, s.table[k], Abandon(s.heap[s.table[k]])).(table := s.table - {k})
  }

  function Clear(s: Server, scope: string): (r: Server)
    requires WellFormed(s)
    ensures WellFormed(r)
  {
    Server(map k | k in s.table && k.scope != scope :: s.table[k],
           seq(|s.heap|, i requires 0 <= i < |s.heap| =>
             if Live(s, i) && s.heap[i].key.scope == scope then Abandon(s.heap[i]) else s.heap[i]),
           s.conns)
  }

  /** The last-client scan: signals every claim that waits for a client. */
  function SignalAll(s: Server): (r: Server)
    requires WellFormed(s)
    ensures WellFormed(r)
  {
    if s.conns != {} then s
    else s.(heap := seq(|s.heap|, i requires 0 <= i < |s.heap| =>
              if Live(s, i) && UnderControl(s.heap[i].state) then SignalDisconnect(s.heap[i]) else s.heap[i]))
  }

  function Deliver(s: Server, k: Key, optionID: string, message: string): (r: (Server, Delivery))
    requires WellFormed(s)
    ensures WellFormed(r.0)
  {
    if k !in s.table then (s, NotFound)
    else
      var c := s.heap[s.table[k]];
      if c.state == Resolved then
        (s, if MatchesResolution(c, optionID, message) then AlreadyResolvedSame else AlreadyResolved)
      else if !Acceptable(c, optionID, message) then (s, Invalid)
      else if c.state == NoResolver then
        (Update(s, s.table[k], c.(state := DirectDelivery, direct := MakeDone(c.direct))),
         DeliverDirectly)
      else if !UnderControl(c.state) then (s, ResolverOwned)
      else if c.answerQueued || c.answerCh.isNil || |c.answerCh.buf| >= 1 then (s, ChannelFull)
      else
        (Update(s, s.table[k], c.(answerCh := SendAnswer(c.answerCh, Answer(k.requestID, optionID, message)),
                                  answerQueued := true)),
         Delivered)
  }

  // ---- the server object

  class ControlServer {
    var pendingClaims: map<Key, nat>
    var claims: seq<Claim>
    var conns: set<nat>

    ghost function Model(): Server
      reads this
    {
      Server(pendingClaims, claims, conns)
    }

    ghost predicate Valid()
      reads this
    {
      WellFormed(Model())
    }

    constructor ()
      ensures Valid() && Model() == Server(map[], [], {})
    {
      pendingClaims, claims, conns := map[], [], {};
    }

    method PreparePermissionClaim(k: Key, st: ResolverState, options: Option<seq<OptionSpec>>)
      returns (prepared: bool)
      requires Valid()
      modifies this
      ensures Valid()
      ensures (Model(), prepared) == Prepare(old(Model()), k, st, options)
    {
      if k in pendingClaims && claims[pendingClaims[k]].state != Resolved {
        return false;
      }
      var req := None;
      if options.Some? {
        var m := OfferedOptions(options.value);
        req := Some(m);
      }
      var claim := NewClaim(k, st, req);
      if st == Reserved && conns == {} {
        claim := SignalDisconnect(claim);
      }
      pendingClaims := pendingClaims[k := |claims|];
      claims := claims + [claim];
      prepared := true;
    }

    static method OfferedOptions(options: seq<OptionSpec>) returns (m: map<string, bool>)
      ensures m == RequiredMessages(options)
    {
      m := map[];
      for i := 0 to |options|
        invariant m == RequiredMessages(options[..i])
      {
        var o := options[i];
        assert options[..i + 1][..i] == options[..i];
        if !o.Malformed? && o.optionID != "" {
          m := m[o.optionID := o.requiresMessage];
        }
      }
      assert options[..|options|] == options;
    }

    method SetPermissionResolverState(k: Key, st: ResolverState)
      requires Valid()
      modifies this`claims
      ensures Valid() && Model() == SetState(old(Model()), k, st)
    {
      if k !in pendingClaims {
        return;
      }
      var claim := claims[pendingClaims[k]];
      if claim.state == Resolved || claim.state == DirectDelivery {
        return;
      }
      claims := claims[pendingClaims[k] := claim.(state := st)];
    }

    method MarkPermissionClaimResolved(k: Key, res: Resolution) returns (marked: bool)
      requires Valid()
      modifies this`claims
      ensures Valid() && (Model(), marked) == Mark(old(Model()), k, res)
    {
      if k !in pendingClaims {
        return false;
      }
      var claim := FinishDirect(claims[pendingClaims[k]]).(state := Resolved, resolution := res);
      var answers := claim.answerCh;
      if !answers.isNil {
        if answers.buf != [] {
          answers := answers.(buf := answers.buf[1..]);
        }
        answers := answers.(fault := answers.fault || answers.closed, closed := true);
      }
      var disconnect := claim.disconnectCh;
      if !disconnect.isNil && !disconnect.closed {
        disconnect := CloseSignal(disconnect);
      }
      claim := claim.(answerCh := answers.(isNil := true), answerQueued := false,
                      disconnectCh := disconnect.(isNil := true), requiresMessage := None);
      claims := claims[pendingClaims[k] := claim];
      marked := true;
    }

    method ResolvedPermissionMatches(k: Key, optionID: string, message: string)
      returns (resolved: bool, matches: bool)
      requires Valid()
      ensures resolved <==> StateOf(Model(), k) == Resolved
      ensures matches <==> Deliver(Model(), k, optionID, message).1 == AlreadyResolvedSame
    {
      if k !in pendingClaims || claims[pendingClaims[k]].state != Resolved {
        return false, false;
      }
      return true, MatchesResolution(claims[pendingClaims[k]], optionID, message);
    }

    method RetryDirectPermissionDelivery(k: Key) returns (retried: bool)
      requires Valid()
      modifies this`claims
      ensures Valid() && (Model(), retried) == Retry(old(Model()), k)
    {
      if k !in pendingClaims || claims[pendingClaims[k]].state != DirectDelivery {
        return false;
      }
      claims := claims[pendingClaims[k] := FinishDirect(claims[pendingClaims[k]].(state := NoResolver))];
      retried := true;
    }

    method HandoffPermissionClaim(k: Key, next: ResolverState) returns (answer: Option<Answer>)
      requires Valid()
      modifies this`claims, this`pendingClaims
      ensures Valid() && (Model(), answer) == Handoff(old(Model()), k, next)
    {
      answer := None;
      if k !in pendingClaims {
        return;
      }
      var i := pendingClaims[k];
      var claim := claims[i];
      if claim.state != Reserved && claim.state != Control {
        return;
      }
      var queue := claim.answerCh.buf;
      if queue != [] {
        answer := Some(queue[0]);
        claims := claims[i := claim.(answerCh := claim.answerCh.(buf := queue[1..]))];
      } else if next == Resolved {
        pendingClaims := pendingClaims - {k};
      } else {
        claims := claims[i := claim.(state := next)];
      }
    }

    method BeginPermissionClaim(k: Key) returns (ok: bool)
      requires Valid()
      modifies this`claims, this`pendingClaims
      ensures Valid() && (Model(), ok) == Begin(old(Model()), k)
    {
      if k !in pendingClaims {
        pendingClaims := pendingClaims[k := |claims|];
        claims := claims + [NewClaim(k, Unknown, None)];
      } else if claims[pendingClaims[k]].state != Reserved {
        return false;
      }
      var claim := claims[pendingClaims[k]].(state := Control);
      if conns == {} {
        claim := SignalDisconnect(claim);
      }
      claims := claims[pendingClaims[k] := claim];
      ok := true;
    }

    method EndPermissionClaim(k: Key)
      requires Valid()
      modifies this`claims, this`pendingClaims
      ensures Valid() && Model() == End(old(Model()), k)
    {
      if k in pendingClaims {
        claims := claims[pendingClaims[k] := Abandon(claims[pendingClaims[k]])];
        pendingClaims := pendingClaims - {k};
      }
    }

    method ClearPermissionClaims(scope: string)
      requires Valid()
      modifies this`claims, this`pendingClaims
      ensures Valid() && Model() == Clear(old(Model()), scope)
    {
      ghost var s := Model();
      var todo := set k | k in pendingClaims && k.scope == scope;
      while todo != {}
        invariant todo <= s.table.Keys && forall k <- todo :: k.scope == scope
        invariant conns == s.conns && |claims| == |s.heap|
        invariant pendingClaims.Keys <= s.table.Keys
        invariant forall k <- s.table :: k in pendingClaims <==> k.scope != scope || k in todo
        invariant forall k <- pendingClaims :: pendingClaims[k] == s.table[k]
        invariant forall i | 0 <= i < |claims| ::
            claims[i] == if Live(s, i) && s.heap[i].key.scope == scope && s.heap[i].key !in todo
                         then Abandon(s.heap[i]) else s.heap[i]
      {
        var k :| k in todo;
        claims := claims[pendingClaims[k] := Abandon(claims[pendingClaims[k]])];
        pendingClaims := pendingClaims - {k};
        todo := todo - {k};
      }
      assert pendingClaims == Clear(s, scope).table;
      assert claims == Clear(s, scope).heap;
    }

    method SignalClientDisconnect()
      requires Valid()
      modifies this`claims
      ensures Valid() && Model() == SignalAll(old(Model()))
    {
      if conns != {} {
        return;
      }
      ghost var s := Model();
      var todo := pendingClaims.Keys;
      while todo != {}
        invariant todo <= pendingClaims.Keys && |claims| == |s.heap|
        invariant forall i | 0 <= i < |claims| ::
            claims[i] == if Live(s, i) && UnderControl(s.heap[i].state) && s.heap[i].key !in todo
                         then SignalDisconnect(s.heap[i]) else s.heap[i]
      {
        var k :| k in todo;
        var claim := claims[pendingClaims[k]];
        if claim.state == Reserved || claim.state == Control {
          claims := claims[pendingClaims[k] := SignalDisconnect(claim)];
        }
        todo := todo - {k};
      }
      assert claims == SignalAll(s).heap;
    }

    method HasPendingPermission() returns (pending: bool)
      requires Valid()
      ensures pending <==> exists k :: k in pendingClaims && UnderControl(StateOf(Model(), k))
    {
      var todo := pendingClaims.Keys;
      while todo != {}
        invariant todo <= pendingClaims.Keys
        invariant forall k <- pendingClaims.Keys - todo :: !UnderControl(StateOf(Model(), k))
      {
        var k :| k in todo;
        if claims[pendingClaims[k]].state == Reserved || claims[pendingClaims[k]].state == Control {
          assert UnderControl(StateOf(Model(), k));
          return true;
        }
        todo := todo - {k};
      }
      return false;
    }

    method DeliverPendingPermission(k: Key, optionID: string, message: string) returns (d: Delivery)
      requires Valid()
      modifies this`claims
      ensures Valid() && (Model(), d) == Deliver(old(Model()), k, optionID, message)
    {
      if k !in pendingClaims {
        return NotFound;
      }
      var i := pendingClaims[k];
      var claim := claims[i];
      if claim.state == Resolved {
        if MatchesResolution(claim, optionID, message) {
          return AlreadyResolvedSame;
        }
        return AlreadyResolved;
      }
      if claim.requiresMessage.Some? {
        var offered := optionID in claim.requiresMessage.value;
        if !offered || (claim.requiresMessage.value[optionID] && message == "") {
          return Invalid;
        }
      }
      match claim.state {
        case Reserved =>
        case Control =>
        case NoResolver =>
          claims := claims[i := claim.(state := DirectDelivery, direct := MakeDone(claim.direct))];
          return DeliverDirectly;
        case _ =>
          return ResolverOwned;
      }
      if claim.answerQueued || claim.answerCh.isNil || |claim.answerCh.buf| >= 1 {
        return ChannelFull;
      }
      claims := claims[i := claim.(answerCh := SendAnswer(claim.answerCh, Answer(k.requestID, optionID, message)),
                                   answerQueued := true)];
      return Delivered;
    }
  }
}
