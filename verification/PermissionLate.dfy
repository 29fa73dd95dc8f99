/** What a late completion does.  A delivery is completed by key: if its claim was removed and
    the key was used again, the completion marks or puts back the claim it finds there.  For
    each promise that a struck claim loses, a lemma shows from every such state how it is
    lost, and a run from the start leads to such a state. */
module PermissionLate {
  import opened Common
  import opened PermissionClaims
  import opened PermissionProtocol
  import opened PermissionExclusion
  import opened PermissionAnswers

  // ---- from every state in which a completion is late

  /** Delivery `d` is late, and finds a claim with a delivery of its own, `other`. */
  ghost predicate LateOnDelivery(s: Sys, d: nat, other: nat) {
    && WellFormed(s.server) && Late(s, d) && other in s.directs && s.directs[other].key == s.directs[d].key
    && s.directs[other].inst == s.server.table[s.directs[d].key] && StateOf(s.server, s.directs[d].key) == DirectDelivery
  }

  /** A late failure puts the claim back although its delivery goes on: the next acceptable answer
      makes a second holder. */
  lemma LateFailureAdmitsSecond(s: Sys, d: nat, other: nat, optionID: string, message: string, second: nat)
    requires LateOnDelivery(s, d, other) && s.directs[d].key.scope != "" && second !in s.directs
    requires Acceptable(s.server.heap[s.server.table[s.directs[d].key]], optionID, message)
    ensures var k := s.directs[d].key;
      var t := DirectFinished(s, d, false);
      var u := ClientAnswered(t, k, optionID, message, second);
      var i := s.server.table[k];
      && Enabled(s, DirectDone(d, false)) && WellFormed(t.server) && Enabled(t, ClientAnswer(k, optionID, message, second))
      && MayAnswer(u, HeldByDirect(other), i) && MayAnswer(u, HeldByDirect(second), i) && other != second
      && u.directs[second].answer == Answer(k.requestID, optionID, message)
  {
    var k := s.directs[d].key;
    var i := s.server.table[k];
    var t := DirectFinished(s, d, false);
    assert t.server.table[k] == i && t.server.heap[i].state == NoResolver;
    assert Deliver(t.server, k, optionID, message).1 == DeliverDirectly;
  }

  /** A late success resolves the claim although its delivery goes on: a request that uses the key
      again replaces it under that delivery. */
  lemma LateSuccessReplacesUnderDelivery(s: Sys, d: nat, other: nat, options: seq<OptionSpec>)
    requires LateOnDelivery(s, d, other) && s.directs[d].key !in s.resolvers && s.directs[d].key.requestID != ""
    ensures var k := s.directs[d].key;
      var t := DirectFinished(s, d, true);
      var i := s.server.table[k];
      && Enabled(s, DirectDone(d, true)) && WellFormed(t.server) && Enabled(t, IdleRequest(k, options))
      && var u := Apply(t, IdleRequest(k, options));
      k in u.server.table && u.server.table[k] != i && other in u.directs && u.directs[other].inst == i && u.removed == s.removed
  {
    var k := s.directs[d].key;
    var t := DirectFinished(s, d, true);
    assert StateOf(t.server, k) == Resolved;
    hide Prepare;
  }

  /** A late success discards an answer that waits in the claim it finds. */
  lemma LateSuccessDiscards(s: Sys, d: nat)
    requires WellFormed(s.server) && Late(s, d) && s.server.heap[s.server.table[s.directs[d].key]].answerCh.buf != []
    ensures s.server.table[s.directs[d].key] in DirectFinished(s, d, true).drained
  {
  }

  // ---- runs that lead there

  lemma ExtendRun(trace: seq<Sys>, steps: seq<Step>, st: Step) returns (trace': seq<Sys>, steps': seq<Step>)
    requires IsRun(trace, steps) && WellFormed(trace[|steps|].server) && Enabled(trace[|steps|], st)
    ensures trace' == trace + [Apply(trace[|steps|], st)] && steps' == steps + [st] && IsRun(trace', steps')
    ensures trace'[|steps'|] == Apply(trace[|steps|], st)
  {
    hide Apply;
    trace', steps' := trace + [Apply(trace[|steps|], st)], steps + [st];
  }

  const K := Key("rt_1", "req")
  const OPTIONS := [OptionSpec("yes", Allow, false), OptionSpec("no", Reject, false)]
  const FIRST := Direct(K, 0, Answer("req", "yes", ""))
  const SECOND := Direct(K, 1, Answer("req", "yes", ""))
  const NEW_RESOLVER := Resolver(1, false, false, OPTIONS, Publishing)

  lemma OptionsOffered()
    ensures RequiredMessages(OPTIONS) == map["yes" := false, "no" := false]
    ensures KindOf("no", OPTIONS) == Reject
  {
    assert OPTIONS[..1] == [OPTIONS[0]] && OPTIONS[..1][..0] == [];
    assert RequiredMessages(OPTIONS[..1]) == map["yes" := false];
    assert KindOf("no", OPTIONS[1..]) == Reject;
  }

  /** One claim of the key, or none, and nothing else but deliveries. */
  ghost predicate Quiet(s: Sys, i: nat, st: ResolverState) {
    && WellFormed(s.server) && |s.server.heap| == i + 1 && s.server.conns == {}
    && (st == Unknown || (s.server.table == map[K := i] && s.server.heap[i].state == st
                          && s.server.heap[i].requiresMessage == Some(map["yes" := false, "no" := false])))
    && (st == Unknown ==> s.server.table == map[])
    && s.resolvers == map[] && s.accepted == [] && s.calls == [] && s.drained == {} && s.options == map[]
  }

  lemma FirstRequest(s: Sys)
    requires s == Init()
    ensures Quiet(Apply(s, IdleRequest(K, OPTIONS)), 0, NoResolver) && Apply(s, IdleRequest(K, OPTIONS)).directs == map[]
    ensures Apply(s, IdleRequest(K, OPTIONS)).removed == {}
  {
    OptionsOffered();
  }

  lemma NextRequest(s: Sys, i: nat)
    requires Quiet(s, i, Unknown)
    ensures var t := Apply(s, IdleRequest(K, OPTIONS)); Quiet(t, i + 1, NoResolver) && t.directs == s.directs && t.removed == s.removed
  {
    OptionsOffered();
  }

  lemma DirectlyDelivered(s: Sys, i: nat, d: nat)
    requires Quiet(s, i, NoResolver) && d !in s.directs
    ensures var t := Apply(s, ClientAnswer(K, "yes", "", d));
      Quiet(t, i, DirectDelivery) && t.directs == s.directs[d := Direct(K, i, Answer("req", "yes", ""))] && t.removed == s.removed
  {
  }

  lemma Ended(s: Sys)
    requires Quiet(s, 0, DirectDelivery)
    ensures var t := Apply(s, OutsideEnd(K)); Quiet(t, 0, Unknown) && t.directs == s.directs && t.removed == s.removed + {0}
  {
    assert s.server.table - {K} == map[];
  }

  /** A delivery whose claim was ended. */
  lemma Orphaned() returns (trace: seq<Sys>, steps: seq<Step>)
    ensures IsRun(trace, steps) && Quiet(trace[|steps|], 0, Unknown) && trace[|steps|].directs == map[0 := FIRST] && trace[|steps|].removed == {0}
  {
    hide Apply, Quiet;
    QuietWell(Init());
    trace, steps := ExtendRun([Init()], [], IdleRequest(K, OPTIONS));
    FirstRequest(Init());
    QuietWell(trace[|steps|]);
    var s := trace[|steps|];
    trace, steps := ExtendRun(trace, steps, ClientAnswer(K, "yes", "", 0));
    DirectlyDelivered(s, 0, 0);
    QuietWell(trace[|steps|]);
    s := trace[|steps|];
    trace, steps := ExtendRun(trace, steps, OutsideEnd(K));
    Ended(s);
  }

  lemma QuietWell(s: Sys)
    requires s == Init() || Quiet(s, 0, NoResolver) || Quiet(s, 0, DirectDelivery) || Quiet(s, 0, Unknown) || Quiet(s, 1, NoResolver) || Quiet(s, 1, DirectDelivery)
    ensures WellFormed(s.server) && s.resolvers == map[]
  {
  }

  /** The key was used again, and its new claim has a delivery too. */
  lemma TwoDeliveries() returns (trace: seq<Sys>, steps: seq<Step>)
    ensures IsRun(trace, steps) && Quiet(trace[|steps|], 1, DirectDelivery) && trace[|steps|].directs == map[0 := FIRST, 1 := SECOND]
    ensures trace[|steps|].removed == {0}
  {
    hide Apply, Quiet;
    trace, steps := Orphaned();
    var s := trace[|steps|];
    QuietWell(s);
    trace, steps := ExtendRun(trace, steps, IdleRequest(K, OPTIONS));
    NextRequest(s, 0);
    s := trace[|steps|];
    QuietWell(s);
    trace, steps := ExtendRun(trace, steps, ClientAnswer(K, "yes", "", 1));
    DirectlyDelivered(s, 1, 1);
  }

  lemma TwoDeliveriesLate(s: Sys)
    requires Quiet(s, 1, DirectDelivery) && s.directs == map[0 := FIRST, 1 := SECOND]
    ensures LateOnDelivery(s, 0, 1) && Acceptable(s.server.heap[1], "no", "") && s.server.table[K] == 1
  {
  }

  /** A run in which two deliveries, with different answers, hold the same claim, which nobody
      removed. */
  lemma TwoHolders() returns (trace: seq<Sys>, steps: seq<Step>)
    ensures IsRun(trace, steps)
    ensures var s := trace[|steps|];
      && MayAnswer(s, HeldByDirect(1), 1) && MayAnswer(s, HeldByDirect(2), 1)
      && s.directs[1].answer != s.directs[2].answer && s.removed == {0}
  {
    hide Apply, Quiet;
    trace, steps := TwoDeliveries();
    var s := trace[|steps|];
    TwoDeliveriesLate(s);
    LateFailureAdmitsSecond(s, 0, 1, "no", "", 2);
    trace, steps := ExtendRun(trace, steps, DirectDone(0, false));
    var t := trace[|steps|];
    DoneIs(s, 0, false);
    trace, steps := ExtendRun(trace, steps, ClientAnswer(K, "no", "", 2));
    AnswerIs(t, "no", 2);
    FirstStays(s, t, 1, "no", 2);
  }

  lemma DoneIs(s: Sys, d: nat, ok: bool)
    requires WellFormed(s.server) && d in s.directs
    ensures Apply(s, DirectDone(d, ok)) == DirectFinished(s, d, ok)
  {
  }

  lemma AnswerIs(s: Sys, optionID: string, d: nat)
    requires WellFormed(s.server) && d !in s.directs
    ensures Apply(s, ClientAnswer(K, optionID, "", d)) == ClientAnswered(s, K, optionID, "", d)
  {
  }

  lemma FirstStays(s: Sys, t: Sys, other: nat, optionID: string, second: nat)
    requires WellFormed(s.server) && 0 in s.directs && other in s.directs && other != 0 && t == DirectFinished(s, 0, false) && second != other
    ensures WellFormed(t.server) && var u := ClientAnswered(t, K, optionID, "", second);
      other in u.directs && u.directs[other] == s.directs[other] && u.removed == s.removed
  {
    hide Retry, Deliver;
  }

  /** A run in which a claim that nobody removed is replaced while its delivery is under way. */
  lemma ReplacedUnderDelivery() returns (trace: seq<Sys>, steps: seq<Step>)
    ensures IsRun(trace, steps) && |steps| > 0
    ensures var s, t := trace[|steps| - 1], trace[|steps|];
      && K in s.server.table && K in t.server.table && s.server.table[K] == 1 != t.server.table[K]
      && 1 in t.directs && t.directs[1].inst == 1 && t.removed == {0}
  {
    hide Apply, Quiet;
    trace, steps := TwoDeliveries();
    var s := trace[|steps|];
    TwoDeliveriesLate(s);
    QuietWell(s);
    LateSuccessReplacesUnderDelivery(s, 0, 1, OPTIONS);
    trace, steps := ExtendRun(trace, steps, DirectDone(0, true));
    DoneIs(s, 0, true);
    MarkKeepsTable(s, 0);
    trace, steps := ExtendRun(trace, steps, IdleRequest(K, OPTIONS));
  }

  lemma MarkKeepsTable(s: Sys, d: nat)
    requires WellFormed(s.server) && d in s.directs
    ensures DirectFinished(s, d, true).server.table == s.server.table
  {
  }

  // ---- an accepted answer is lost

  /** The key has a new claim and resolver. */
  ghost predicate Reused(s: Sys) {
    && WellFormed(s.server) && s.server.table == map[K := 1] && |s.server.heap| == 2
    && s.server.heap[1] == SignalDisconnect(NewClaim(K, Reserved, Some(map["yes" := false, "no" := false])))
    && s.resolvers == map[K := NEW_RESOLVER] && s.directs == map[0 := FIRST] && s.options == map[1 := OPTIONS]
    && s.accepted == [] && s.removed == {0} && s.drained == {}
  }

  lemma RequestedAgain(s: Sys)
    requires Quiet(s, 0, Unknown) && s.directs == map[0 := FIRST] && s.removed == {0}
    ensures Reused(Apply(s, Request(K, NEW_RESOLVER, true, true)))
  {
    OptionsOffered();
  }

  const LOST := Accepted(1, Answer("req", "no", ""))

  lemma AnsweredAgain(s: Sys)
    requires Reused(s)
    ensures var t := Apply(s, ClientAnswer(K, "no", "", 1));
      && WellFormed(t.server) && t.accepted == [LOST] && t.server.table == map[K := 1] && t.directs == map[0 := FIRST]
      && t.server.heap[1].answerCh.buf != [] && t.removed == {0} && t.options == map[1 := OPTIONS]
  {
  }

  /** A run that accepts an answer which no continuation gives to the provider, although it
      decides and nobody removed its claim. */
  lemma LateDirectLosesAnswer() returns (trace: seq<Sys>, steps: seq<Step>)
    ensures IsRun(trace, steps)
    ensures var s := trace[|steps|]; LOST in s.accepted && LOST.inst !in s.removed && !Undecided(s, LOST) && LOST.inst in s.drained
  {
    hide Apply, Quiet;
    trace, steps := Orphaned();
    var s := trace[|steps|];
    QuietWell(s);
    trace, steps := ExtendRun(trace, steps, Request(K, NEW_RESOLVER, true, true));
    RequestedAgain(s);
    s := trace[|steps|];
    trace, steps := ExtendRun(trace, steps, ClientAnswer(K, "no", "", 1));
    AnsweredAgain(s);
    s := trace[|steps|];
    LateSuccessDiscards(s, 0);
    trace, steps := ExtendRun(trace, steps, DirectDone(0, true));
    DoneIs(s, 0, true);
    OptionsOffered();
    hide KindOf, Mark;
  }
}
