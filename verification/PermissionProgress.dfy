/** An accepted answer can always be given (`resolvePermission` in `internal/cli/cli.go`): from
    wherever the resolver of its claim is, a few moves of that resolver alone take the answer to
    the provider. */
module PermissionProgress {
  import opened Common
  import opened PermissionClaims
  import opened PermissionProtocol
  import opened PermissionExclusion
  import opened PermissionAnswers

  /** The resolver of `k` makes these moves, one after another, and nobody else does anything. */
  ghost predicate Goes(s: Sys, k: Key, moves: seq<Move>, t: Sys)
    decreases |moves|
  {
    if moves == [] then s == t
    else WellFormed(s.server) && CanMove(s, k, moves[0]) && Goes(Moved(s, k, moves[0]), k, moves[1..], t)
  }

  lemma Prepend(s: Sys, k: Key, m: Move, moves: seq<Move>, t: Sys)
    requires WellFormed(s.server) && CanMove(s, k, m) && Goes(Moved(s, k, m), k, moves, t)
    ensures Goes(s, k, [m] + moves, t)
  {
    assert ([m] + moves)[1..] == moves;
  }

  /** The resolver of `k` is at work on claim `i`, which is the one under its key. */
  predicate Holds(s: Sys, k: Key, i: nat) {
    && k in s.resolvers && s.resolvers[k].inst == i < |s.server.heap| && s.server.heap[i].key == k
    && k in s.server.table && s.server.table[k] == i
  }

  /** The answer waits in the channel of that claim and decides something. */
  predicate Waits(s: Sys, k: Key, i: nat, a: Answer) {
    Holds(s, k, i) && s.server.heap[i].answerCh.buf == [a] && KindOf(a.optionID, s.resolvers[k].options) != OtherKind
  }

  lemma FromAnswering(s: Sys, k: Key, i: nat, a: Answer) returns (moves: seq<Move>, t: Sys)
    requires WellFormed(s.server) && Holds(s, k, i) && s.resolvers[k].pc == Answering(a)
    requires KindOf(a.optionID, s.resolvers[k].options) != OtherKind
    ensures Goes(s, k, moves, t) && Call(i, ByControl, a) in t.calls
  {
    t := Moved(s, k, ControlAnswer(true));
    moves := [ControlAnswer(true)] + [];
    Prepend(s, k, ControlAnswer(true), [], t);
    assert t.calls[|s.calls|] == Call(i, ByControl, a);
  }

  lemma FromWaiting(s: Sys, k: Key, i: nat, a: Answer) returns (moves: seq<Move>, t: Sys)
    requires WellFormed(s.server) && Waits(s, k, i, a) && s.resolvers[k].pc.Waiting?
    ensures Goes(s, k, moves, t) && Call(i, ByControl, a) in t.calls
  {
    hide KindOf;
    var u := Moved(s, k, Receive);
    moves, t := FromAnswering(u, k, i, a);
    Prepend(s, k, Receive, moves, t);
    moves := [Receive] + moves;
  }

  lemma FromHandOver(s: Sys, k: Key, i: nat, a: Answer) returns (moves: seq<Move>, t: Sys)
    requires WellFormed(s.server) && Waits(s, k, i, a) && s.resolvers[k].pc.HandOver? && UnderControl(s.server.heap[i].state)
    ensures Goes(s, k, moves, t) && Call(i, ByControl, a) in t.calls
  {
    hide KindOf;
    var u := Moved(s, k, Give);
    moves, t := FromAnswering(u, k, i, a);
    Prepend(s, k, Give, moves, t);
    moves := [Give] + moves;
  }

  lemma FromBeginControl(s: Sys, k: Key, i: nat, a: Answer) returns (moves: seq<Move>, t: Sys)
    requires WellFormed(s.server) && Waits(s, k, i, a) && s.resolvers[k].pc.BeginControl? && s.server.heap[i].state == Reserved
    ensures Goes(s, k, moves, t) && Call(i, ByControl, a) in t.calls
  {
    hide KindOf;
    var u := Moved(s, k, Enter);
    moves, t := FromWaiting(u, k, i, a);
    Prepend(s, k, Enter, moves, t);
    moves := [Enter] + moves;
  }

  lemma FromCheck(s: Sys, k: Key, i: nat, a: Answer) returns (moves: seq<Move>, t: Sys)
    requires WellFormed(s.server) && Waits(s, k, i, a) && s.resolvers[k].pc.Check? && s.server.heap[i].state == Reserved
    ensures Goes(s, k, moves, t) && Call(i, ByControl, a) in t.calls
  {
    hide KindOf;
    var u := Moved(s, k, Look);
    moves, t := FromBeginControl(u, k, i, a);
    Prepend(s, k, Look, moves, t);
    moves := [Look] + moves;
  }

  lemma FromPublishing(s: Sys, k: Key, i: nat, a: Answer) returns (moves: seq<Move>, t: Sys)
    requires WellFormed(s.server) && Waits(s, k, i, a) && s.resolvers[k].pc.Publishing? && !s.resolvers[k].auto
    requires s.server.heap[i].state == Reserved
    ensures Goes(s, k, moves, t) && Call(i, ByControl, a) in t.calls
  {
    hide KindOf;
    var u := Moved(s, k, Published);
    moves, t := FromCheck(u, k, i, a);
    Prepend(s, k, Published, moves, t);
    moves := [Published] + moves;
  }

  /** Where a resolver that still listens is, given that its claim holds an answer. */
  lemma Listening(s: Sys, k: Key, e: Accepted)
    requires Accounted(s) && e in s.accepted && Of(s.server, e.inst, k) && e.inst !in s.removed && InHand(s, k, e)
    ensures Holds(s, k, e.inst) && e.inst in s.options && s.options[e.inst] == s.resolvers[k].options
    ensures s.resolvers[k].pc != Answering(e.answer) ==>
      var r, st := s.resolvers[k], s.server.heap[e.inst].state;
      && (r.pc.Waiting? || (r.pc.HandOver? && UnderControl(st)) || (st == Reserved && (r.pc.BeginControl? || r.pc.Check? || (r.pc.Publishing? && !r.auto))))
      && s.server.heap[e.inst].answerCh.buf == [e.answer]
  {
    assert Places(s, k) && ResolverOk(s, k) && Answers(s, k);
    assert Charged(s, k, s.resolvers[k]);
    if s.resolvers[k].pc != Answering(e.answer) {
      assert QueuedOk(s, k);
      assert UnderControl(s.server.heap[e.inst].state);
    }
    hide Placed, Answers, Dated, KindOf, DirectsOk, TableOk, NamedOk, TakenOk, TrackedOk, DrainedOk;
  }

  lemma AccountedBasics(s: Sys, k: Key, e: Accepted)
    requires Accounted(s) && e in s.accepted && Of(s.server, e.inst, k)
    ensures WellFormed(s.server) && Tracked(s, k, e)
  {
    assert Answers(s, k);
    hide Dated, KindOf;
  }

  /** An answer that a client was told is delivered, for a claim that was not removed and whose
      answer was not discarded, has been given to the provider, or names an option that neither
      allows nor rejects, or a few moves of the claim's resolver alone give it: the answer just
      as it was accepted, for that very claim. */
  lemma AcceptedAnswerCanBeGiven(trace: seq<Sys>, steps: seq<Step>, n: nat, e: Accepted) returns (k: Key, moves: seq<Move>, t: Sys)
    requires IsRun(trace, steps) && n < |trace| && e in trace[n].accepted
    requires e.inst !in trace[n].removed && e.inst !in trace[n].drained
    requires !(e.inst in trace[n].options && KindOf(e.answer.optionID, trace[n].options[e.inst]) == OtherKind)
    ensures Goes(trace[n], k, moves, t) && Call(e.inst, ByControl, e.answer) in t.calls
  {
    hide KindOf;
    var s := trace[n];
    RunAccounted(trace, steps, n);
    hide IsRun, Accounted, InHand;
    AcceptedExists(s, e);
    var i, a := e.inst, e.answer;
    k := s.server.heap[i].key;
    AccountedBasics(s, k, e);
    if Call(i, ByControl, a) in s.calls {
      return k, [], s;
    }
    Listening(s, k, e);
    var pc := s.resolvers[k].pc;
    if pc == Answering(a) {
      moves, t := FromAnswering(s, k, i, a);
    } else if pc.Waiting? {
      moves, t := FromWaiting(s, k, i, a);
    } else if pc.HandOver? {
      moves, t := FromHandOver(s, k, i, a);
    } else if pc.BeginControl? {
      moves, t := FromBeginControl(s, k, i, a);
    } else if pc.Check? {
      moves, t := FromCheck(s, k, i, a);
    } else {
      moves, t := FromPublishing(s, k, i, a);
    }
  }

  lemma AcceptedExists(s: Sys, e: Accepted)
    requires Accounted(s) && e in s.accepted
    ensures e.inst < |s.server.heap|
  {
    var n :| 0 <= n < |s.accepted| && s.accepted[n] == e;
    assert AcceptedOk(s);
    hide Placed, Dated, Answers;
  }

  // ---- what a resolver that gives up leaves behind

  /** A resolver in control whose claim was neither removed nor overtaken. */
  lemma InControl(s: Sys, k: Key)
    requires Placed(s) && k in s.resolvers && s.resolvers[k].pc.Waiting?
    requires s.resolvers[k].inst !in s.removed && s.resolvers[k].inst !in s.overtaken
    ensures WellFormed(s.server) && Holds(s, k, s.resolvers[k].inst) && s.server.heap[s.resolvers[k].inst].state == Control
  {
    assert Places(s, k) && ResolverOk(s, k);
    hide DirectsOk, TableOk;
  }

  lemma GiveUp(s: Sys, k: Key, m: Move)
    requires WellFormed(s.server) && k in s.resolvers && s.resolvers[k].pc.Waiting? && Holds(s, k, s.resolvers[k].inst)
    requires s.server.heap[s.resolvers[k].inst].state == Control && s.server.heap[s.resolvers[k].inst].answerCh.buf == []
    requires (m.TimedOut? || m.SawDisconnect? || m.Cancelled?) && CanMove(s, k, m)
    ensures var u, r := Moved(s, k, m), s.resolvers[k];
      && WellFormed(u.server) && CanMove(u, k, Give)
      && var t := Moved(u, k, Give);
      && WellFormed(t.server)
      && if m.Cancelled? then k !in t.server.table && k !in t.resolvers
         else
           && Holds(t, k, r.inst)
           && StateOf(t.server, k) == (if r.hasFile then File else NoResolver) && t.resolvers[k].pc == if r.hasFile then FileStamp else NoneStamp
  {
  }

  /** A resolver that waits in control of a claim, and that no answer reached, gives up as it
      must: after a timeout or the loss of the last client its claim is the file handler's if
      there is one, and otherwise anybody's who answers; after a cancellation the claim and the
      resolver are gone. */
  lemma GivesUpTo(trace: seq<Sys>, steps: seq<Step>, n: nat, k: Key, m: Move)
    requires IsRun(trace, steps) && n < |trace|
    requires var s := trace[n];
      && k in s.resolvers && s.resolvers[k].pc.Waiting? && CanMove(s, k, m) && (m.TimedOut? || m.SawDisconnect? || m.Cancelled?)
      && s.resolvers[k].inst !in s.removed && s.resolvers[k].inst !in s.overtaken && s.server.heap[s.resolvers[k].inst].answerCh.buf == []
    ensures WellFormed(trace[n].server)
    ensures var u, r := Moved(trace[n], k, m), trace[n].resolvers[k];
      && WellFormed(u.server) && CanMove(u, k, Give)
      && var t := Moved(u, k, Give);
      && WellFormed(t.server)
      && if m.Cancelled? then k !in t.server.table && k !in t.resolvers
         else
           && Holds(t, k, r.inst)
           && StateOf(t.server, k) == (if r.hasFile then File else NoResolver) && t.resolvers[k].pc == if r.hasFile then FileStamp else NoneStamp
  {
    RunPlaced(trace, steps, n);
    InControl(trace[n], k);
    GiveUp(trace[n], k, m);
    hide IsRun, Placed, Moved;
  }
}
