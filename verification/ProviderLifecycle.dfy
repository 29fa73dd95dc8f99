/** Calls into a provider and its closing (`internal/cli/provider_lifecycle.go`).

    The lifecycle's critical sections are specified by functions on `Life` and implemented by
    two classes.  Below them, a system interleaves any number of calls, turns and requests to
    close; a ghost account of the calls that run inside the provider says what the counters
    stand for. */
module ProviderLifecycle {
  import opened Common

  // ---- the lifecycle's fields

  /** A shared Cancel; a number stands for the pointer to it. */
  datatype CancelCall = CancelCall(done: bool, failed: bool)

  datatype Life = Life(liveCalls: int, closing: bool, closeStarted: bool, activeCancels: map<string, nat>, calls: seq<CancelCall>)

  const NEW_LIFE := Life(0, false, false, map[], [])

  /** Records the one close after a call has left; says whether it is to start now. */
  function Drained(l: Life): (Life, bool) {
    if l.closing && l.liveCalls == 0 && !l.closeStarted then (l.(closeStarted := true), true) else (l, false)
  }

  function Begun(l: Life): (Life, bool) {
    if l.closing then (l, false) else (l.(liveCalls := l.liveCalls + 1), true)
  }

  function Finished(l: Life): (Life, bool) {
    Drained(l.(liveCalls := l.liveCalls - 1))
  }

  function CloseRequested(l: Life): (Life, bool) {
    var closeNow := l.liveCalls == 0 && !l.closeStarted;
    (l.(closing := true, closeStarted := l.closeStarted || closeNow), closeNow)
  }

  /** The live Cancel of a session. */
  predicate Shared(l: Life, sessionID: string) {
    sessionID in l.activeCancels && l.activeCancels[sessionID] < |l.calls| && !l.calls[l.activeCancels[sessionID]].done
  }

  /** The Cancel a turn gets, and whether it is a new one that enters the provider. */
  function CancelRequested(l: Life, sessionID: string): (Life, nat, bool) {
    if Shared(l, sessionID) then (l, l.activeCancels[sessionID], false)
    else if l.closing then (l.(calls := l.calls + [CancelCall(true, true)]), |l.calls|, false)
    else
      (l.(liveCalls := l.liveCalls + 1, activeCancels := l.activeCancels[sessionID := |l.calls|],
          calls := l.calls + [CancelCall(false, false)]), |l.calls|, true)
  }

  function CancelFinished(l: Life, sessionID: string, call: nat, failed: bool): (Life, bool)
    requires call < |l.calls|
  {
    Drained(l.(
      calls := l.calls[call := CancelCall(true, failed)],
      activeCancels :=
        if sessionID in l.activeCancels && l.activeCancels[sessionID] == call then l.activeCancels - {sessionID} else l.activeCancels,
      liveCalls := l.liveCalls - 1))
  }

  class Lifecycle {
    var liveCalls: int
    var closing: bool
    var closeStarted: bool
    var activeCancels: map<string, nat>
    var calls: seq<CancelCall>

    function Model(): Life
      reads this
    {
      Life(liveCalls, closing, closeStarted, activeCancels, calls)
    }

    constructor ()
      ensures Model() == NEW_LIFE
    {
      liveCalls, closing, closeStarted, activeCancels, calls := 0, false, false, map[], [];
    }

    method BeginCall() returns (ok: bool)
      modifies this
      ensures (Model(), ok) == Begun(old(Model()))
    {
      if closing {
        return false;
      }
      liveCalls := liveCalls + 1;
      return true;
    }

    method StartCloseIfDrained() returns (closeNow: bool)
      modifies this
      ensures (Model(), closeNow) == Drained(old(Model()))
    {
      if closing && liveCalls == 0 && !closeStarted {
        closeStarted := true;
        return true;
      }
      return false;
    }

    method FinishCall() returns (closeNow: bool)
      modifies this
      ensures (Model(), closeNow) == Finished(old(Model()))
    {
      liveCalls := liveCalls - 1;
      closeNow := StartCloseIfDrained();
    }

    method RequestClose() returns (closeNow: bool)
      modifies this
      ensures (Model(), closeNow) == CloseRequested(old(Model()))
    {
      closing := true;
      closeNow := liveCalls == 0 && !closeStarted;
      if closeNow {
        closeStarted := true;
      }
    }

    /** Under the lock, what the goroutine of a Cancel does when the provider returns. */
    method FinishCancel(sessionID: string, call: nat, failed: bool) returns (closeNow: bool)
      requires call < |calls|
      modifies this
      ensures (Model(), closeNow) == CancelFinished(old(Model()), sessionID, call, failed)
    {
      calls := calls[call := CancelCall(true, failed)];
      if sessionID in activeCancels && activeCancels[sessionID] == call {
        activeCancels := activeCancels - {sessionID};
      }
      liveCalls := liveCalls - 1;
      closeNow := StartCloseIfDrained();
    }
  }

  /** One session wait's turn; its Cancel is requested once. */
  class Turn {
    const lifecycle: Lifecycle
    var cancelCall: Option<nat>

    constructor (lifecycle: Lifecycle)
      ensures this.lifecycle == lifecycle && cancelCall.None?
    {
      this.lifecycle, cancelCall := lifecycle, None;
    }

    method RequestCancel(sessionID: string) returns (enters: bool)
      modifies this, lifecycle
      ensures var (life, call, isNew) := CancelRequested(old(lifecycle.Model()), sessionID);
        if old(cancelCall).Some? then lifecycle.Model() == old(lifecycle.Model()) && cancelCall == old(cancelCall) && !enters
        else lifecycle.Model() == life && cancelCall == Some(call) && enters == isNew
    {
      if cancelCall.Some? {
        return false;
      }
      if sessionID in lifecycle.activeCancels {
        var call := lifecycle.activeCancels[sessionID];
        if call < |lifecycle.calls| && !lifecycle.calls[call].done {
          cancelCall := Some(call);
          return false;
        }
      }
      cancelCall := Some(|lifecycle.calls|);
      if lifecycle.closing {
        lifecycle.calls := lifecycle.calls + [CancelCall(true, true)];
        return false;
      }
      lifecycle.calls := lifecycle.calls + [CancelCall(false, false)];
      lifecycle.liveCalls := lifecycle.liveCalls + 1;
      lifecycle.activeCancels := lifecycle.activeCancels[sessionID := cancelCall.value];
      return true;
    }
  }

  // ---- the system

  /** A call that runs inside the provider. */
  datatype Work = Prompt | Answer | Cancel(sessionID: string, call: nat)

  /** `running` holds the calls inside the provider by number, `turns` the Cancel each turn got.
      `closers` counts the closes that are due but have not entered the provider, `closes`
      those that have, and `closed` those that returned. */
  datatype System = System(life: Life, running: map<nat, Work>, next: nat, turns: map<nat, nat>, closers: nat, closes: nat, closed: nat)

  ghost predicate Initial(s: System) {
    s == System(NEW_LIFE, map[], 0, map[], 0, 0, 0)
  }

  datatype Move =
    | Admit(work: Work)
    | Return(id: nat, failed: bool)
    | Close
    | EnterClose
    | LeaveClose
    | RequestTurnCancel(turn: nat, sessionID: string)

  predicate Can(s: System, m: Move) {
    match m
    case Admit(work) => !work.Cancel?
    case Return(id, _) => id in s.running && (s.running[id].Cancel? ==> s.running[id].call < |s.life.calls|)
    case EnterClose => s.closers > 0
    case LeaveClose => s.closes > s.closed
    case _ => true
  }

  function Due(s: System, life: Life, closeNow: bool): System {
    s.(life := life, closers := s.closers + if closeNow then 1 else 0)
  }

  function Enter(s: System, work: Work): System {
    s.(running := s.running[s.next := work], next := s.next + 1)
  }

  function Step(s: System, m: Move): System
    requires Can(s, m)
  {
    match m
    case Admit(work) =>
      var (life, ok) := Begun(s.life);
      if ok then Enter(s.(life := life), work) else s.(life := life)
    case Return(id, failed) =>
      var work := s.running[id];
      var (life, closeNow) :=
        if work.Cancel? then CancelFinished(s.life, work.sessionID, work.call, failed) else Finished(s.life);
      Due(s.(running := s.running - {id}), life, closeNow)
    case Close =>
      var (life, closeNow) := CloseRequested(s.life);
      Due(s, life, closeNow)
    case EnterClose => s.(closers := s.closers - 1, closes := s.closes + 1)
    case LeaveClose => s.(closed := s.closed + 1)
    case RequestTurnCancel(turn, sessionID) =>
      if turn in s.turns then s
      else
        var (life, call, enters) := CancelRequested(s.life, sessionID);
        var t := s.(life := life, turns := s.turns[turn := call]);
        if enters then Enter(t, Cancel(sessionID, call)) else t
  }

  // ---- what every step keeps

  /** The counters say what runs. */
  ghost predicate Counted(s: System) {
    && s.life.liveCalls == |s.running|
    && (forall id <- s.running :: id < s.next)
    && s.closers + s.closes == (if s.life.closeStarted then 1 else 0)
    && s.closed <= s.closes
  }

  /** A close has been started exactly when the lifecycle is closing and nothing runs. */
  ghost predicate ClosesWhenDrained(s: System) {
    s.life.closeStarted <==> s.life.closing && |s.running| == 0
  }

  /** A live Cancel is the one the table names for its session. */
  ghost predicate Tracks(work: Work, active: map<string, nat>, calls: seq<CancelCall>) {
    work.Cancel? ==>
      && work.sessionID in active && active[work.sessionID] == work.call
      && work.call < |calls| && !calls[work.call].done
  }

  /** The live Cancels are those the table names, one for a session. */
  ghost predicate Tracked(running: map<nat, Work>, active: map<string, nat>, calls: seq<CancelCall>) {
    && (forall id <- running :: Tracks(running[id], active, calls))
    && (forall a, b | a in running && b in running && running[a].Cancel? && running[b].Cancel? ::
          running[a].call == running[b].call ==> a == b)
    && (forall x <- active :: active[x] < |calls| && !calls[active[x]].done)
    && (forall x, y | x in active && y in active :: active[x] == active[y] ==> x == y)
  }

  ghost predicate Inv(s: System) {
    && Counted(s) && ClosesWhenDrained(s) && Tracked(s.running, s.life.activeCancels, s.life.calls)
    && (forall t <- s.turns :: s.turns[t] < |s.life.calls|)
  }

  lemma Entered(m: map<nat, Work>, id: nat, work: Work)
    requires id !in m
    ensures |m[id := work]| == |m| + 1
  {
    assert m[id := work].Keys == m.Keys + {id};
  }

  lemma Left(m: map<nat, Work>, id: nat)
    requires id in m
    ensures |m - {id}| == |m| - 1
  {
    assert (m - {id}).Keys == m.Keys - {id};
  }

  lemma TrackedNew(running: map<nat, Work>, active: map<string, nat>, calls: seq<CancelCall>, id: nat, sessionID: string)
    requires Tracked(running, active, calls) && id !in running && sessionID !in active
    ensures Tracked(running[id := Cancel(sessionID, |calls|)], active[sessionID := |calls|], calls + [CancelCall(false, false)])
  {
  }

  lemma TrackedDone(running: map<nat, Work>, active: map<string, nat>, calls: seq<CancelCall>, id: nat, result: CancelCall)
    requires Tracked(running, active, calls) && id in running && running[id].Cancel?
    requires running[id].call < |calls|
    ensures Tracked(running - {id}, active - {running[id].sessionID}, calls[running[id].call := result])
  {
    var call := running[id].call;
    assert active[running[id].sessionID] == call;
    forall other | other in running - {id}
      ensures Tracks(running[other], active - {running[id].sessionID}, calls[call := result])
    {
      assert Tracks(running[other], active, calls);
    }
  }

  lemma AdmitKeeps(s: System, work: Work)
    requires Inv(s) && !work.Cancel?
    ensures Inv(Step(s, Admit(work)))
  {
    Entered(s.running, s.next, work);
  }

  lemma ReturnKeeps(s: System, id: nat, failed: bool)
    requires Inv(s) && id in s.running && !s.running[id].Cancel?
    ensures Inv(Step(s, Return(id, failed)))
  {
    Left(s.running, id);
  }

  lemma CancelReturnKeeps(s: System, id: nat, failed: bool)
    requires Inv(s) && id in s.running && s.running[id].Cancel? && s.running[id].call < |s.life.calls|
    ensures Inv(Step(s, Return(id, failed)))
  {
    hide Tracked;
    Left(s.running, id);
    TrackedDone(s.running, s.life.activeCancels, s.life.calls, id, CancelCall(true, failed));
    TrackedRunning(s.running, s.life.activeCancels, s.life.calls, id);
  }

  lemma TrackedRunning(running: map<nat, Work>, active: map<string, nat>, calls: seq<CancelCall>, id: nat)
    requires Tracked(running, active, calls) && id in running
    ensures Tracks(running[id], active, calls)
  {
  }

  lemma TrackedActive(running: map<nat, Work>, active: map<string, nat>, calls: seq<CancelCall>, sessionID: string)
    requires Tracked(running, active, calls) && sessionID in active
    ensures active[sessionID] < |calls| && !calls[active[sessionID]].done
  {
  }

  lemma TrackedRefused(running: map<nat, Work>, active: map<string, nat>, calls: seq<CancelCall>)
    requires Tracked(running, active, calls)
    ensures Tracked(running, active, calls + [CancelCall(true, true)])
  {
  }

  lemma TurnCancelKeeps(s: System, turn: nat, sessionID: string)
    requires Inv(s)
    ensures Inv(Step(s, RequestTurnCancel(turn, sessionID)))
  {
    hide Tracked;
    if sessionID in s.life.activeCancels {
      TrackedActive(s.running, s.life.activeCancels, s.life.calls, sessionID);
    } else if s.life.closing {
      TrackedRefused(s.running, s.life.activeCancels, s.life.calls);
    } else {
      Entered(s.running, s.next, Cancel(sessionID, |s.life.calls|));
      TrackedNew(s.running, s.life.activeCancels, s.life.calls, s.next, sessionID);
    }
  }

  /** Every step keeps the invariant. */
  lemma StepKeeps(s: System, m: Move)
    requires Inv(s) && Can(s, m)
    ensures Inv(Step(s, m))
  {
    match m
    case Admit(work) => AdmitKeeps(s, work);
    case Return(id, failed) =>
      if s.running[id].Cancel? {
        CancelReturnKeeps(s, id, failed);
      } else {
        ReturnKeeps(s, id, failed);
      }
    case RequestTurnCancel(turn, sessionID) => TurnCancelKeeps(s, turn, sessionID);
    case _ =>
  }

  // ---- whole runs

  ghost predicate IsRun(s: System, moves: seq<Move>)
    decreases |moves|
  {
    moves == [] || (Can(s, moves[0]) && IsRun(Step(s, moves[0]), moves[1..]))
  }

  function After(s: System, moves: seq<Move>): System
    requires IsRun(s, moves)
    decreases |moves|
  {
    if moves == [] then s else After(Step(s, moves[0]), moves[1..])
  }

  /** From one state to a later one: closing is for good and lets nothing in, and a turn's
      Cancel is decided once. */
  ghost predicate Later(s: System, t: System) {
    && (s.life.closing ==> t.life.closing && t.running.Keys <= s.running.Keys)
    && s.closes <= t.closes
    && (forall turn <- s.turns :: turn in t.turns && t.turns[turn] == s.turns[turn])
  }

  lemma StepLater(s: System, m: Move)
    requires Can(s, m)
    ensures Later(s, Step(s, m))
  {
  }

  lemma {:induction false} RunKeeps(s: System, moves: seq<Move>)
    requires Inv(s) && IsRun(s, moves)
    ensures Inv(After(s, moves)) && Later(s, After(s, moves))
    decreases |moves|
  {
    hide Inv, Can, Step;
    if moves != [] {
      StepKeeps(s, moves[0]);
      StepLater(s, moves[0]);
      RunKeeps(Step(s, moves[0]), moves[1..]);
    }
  }

  // ---- theorems

  lemma Reached(s0: System, moves: seq<Move>)
    requires Initial(s0) && IsRun(s0, moves)
    ensures Inv(After(s0, moves))
  {
    hide IsRun, After;
    RunKeeps(s0, moves);
  }

  lemma NoneRuns(running: map<nat, Work>)
    ensures |running| == 0 <==> running == map[]
  {
  }

  ghost predicate ClosedOnce(s: System) {
    && s.closes <= 1 && s.closed <= s.closes
    && (s.closes == 1 ==> s.life.closing && s.running == map[])
    && (s.life.closing && s.running == map[] ==> s.closers + s.closes == 1)
  }

  lemma InvClosedOnce(s: System)
    requires Inv(s)
    ensures ClosedOnce(s)
  {
    hide Tracked;
    NoneRuns(s.running);
  }

  /** The provider's Close starts at most once, and only with no admitted call live; a lifecycle
      that is closing with no live call has always started it. */
  lemma {:induction false} CloseOnceWhenDrained(s0: System, moves: seq<Move>)
    requires Initial(s0) && IsRun(s0, moves)
    ensures ClosedOnce(After(s0, moves))
  {
    hide *;
    Reached(s0, moves);
    InvClosedOnce(After(s0, moves));
  }

  ghost predicate LetsNothingIn(s: System, t: System) {
    && t.life.closing && t.running.Keys <= s.running.Keys
    && (s.closes > 0 ==> t.running == map[] && t.closes == 1)
  }

  lemma LaterLetsNothingIn(s: System, t: System)
    requires Inv(s) && Inv(t) && Later(s, t) && s.life.closing
    ensures LetsNothingIn(s, t)
  {
    hide Inv;
    InvClosedOnce(s);
    InvClosedOnce(t);
  }

  /** Once the lifecycle is closing no call is ever admitted: whatever runs later ran then.  So
      nothing runs after Close has started. */
  lemma {:induction false} NothingAdmittedOnceClosing(s0: System, moves: seq<Move>, more: seq<Move>)
    requires Initial(s0) && IsRun(s0, moves) && After(s0, moves).life.closing && IsRun(After(s0, moves), more)
    ensures LetsNothingIn(After(s0, moves), After(After(s0, moves), more))
  {
    hide *;
    Reached(s0, moves);
    RunKeeps(After(s0, moves), more);
    LaterLetsNothingIn(After(s0, moves), After(After(s0, moves), more));
  }

  /** At most one Cancel of a session is live at a time. */
  lemma {:induction false} OneCancelPerSession(s0: System, moves: seq<Move>, a: nat, b: nat)
    requires Initial(s0) && IsRun(s0, moves)
    requires var s := After(s0, moves);
      a in s.running && b in s.running && s.running[a].Cancel? && s.running[b].Cancel? &&
      s.running[a].sessionID == s.running[b].sessionID
    ensures a == b
  {
    hide IsRun, After;
    RunKeeps(s0, moves);
    var s := After(s0, moves);
    TrackedRunning(s.running, s.life.activeCancels, s.life.calls, a);
    TrackedRunning(s.running, s.life.activeCancels, s.life.calls, b);
  }

  ghost predicate Shares(s: System, t: System, u: System, id: nat, turn: nat)
    requires id in s.running && s.running[id].Cancel?
  {
    t.running == s.running && turn in u.turns && u.turns[turn] == s.running[id].call
  }

  lemma StepShares(s: System, id: nat, turn: nat)
    requires Inv(s) && id in s.running && s.running[id].Cancel? && turn !in s.turns
    ensures var t := Step(s, RequestTurnCancel(turn, s.running[id].sessionID)); Shares(s, t, t, id, turn)
  {
    hide Tracked;
    TrackedRunning(s.running, s.life.activeCancels, s.life.calls, id);
  }

  /** A turn that asks for the first time while a Cancel of its session is live shares that very
      call, and nothing new enters the provider; what a turn got it keeps. */
  lemma {:induction false} TurnSharesLiveCancel(s0: System, moves: seq<Move>, s: System, id: nat, turn: nat, t: System, more: seq<Move>)
    requires Initial(s0) && IsRun(s0, moves) && s == After(s0, moves)
    requires id in s.running && s.running[id].Cancel? && turn !in s.turns
    requires t == Step(s, RequestTurnCancel(turn, s.running[id].sessionID)) && IsRun(t, more)
    ensures Shares(s, t, After(t, more), id, turn)
  {
    hide IsRun, After, Initial, Step, Inv;
    Reached(s0, moves);
    StepShares(s, id, turn);
    StepKeeps(s, RequestTurnCancel(turn, s.running[id].sessionID));
    RunKeeps(t, more);
  }

  // ---- what is let in

  lemma {:induction false} ClosingFrom(s: System, moves: seq<Move>)
    requires IsRun(s, moves)
    ensures After(s, moves).life.closing <==> s.life.closing || Close in moves
    decreases |moves|
  {
    if moves != [] {
      StepCloses(s, moves[0]);
      hide Can, Step;
      ClosingFrom(Step(s, moves[0]), moves[1..]);
      assert moves == [moves[0]] + moves[1..];
    }
  }

  lemma StepCloses(s: System, m: Move)
    requires Can(s, m)
    ensures Step(s, m).life.closing <==> s.life.closing || m == Close
  {
  }

  /** A call is let into the provider exactly if no close was requested before it; otherwise
      nothing changes. */
  lemma {:induction false} AdmittedUnlessClosed(s0: System, moves: seq<Move>, work: Work)
    requires Initial(s0) && IsRun(s0, moves) && !work.Cancel?
    ensures var s := After(s0, moves);
      && s.next !in s.running
      && Step(s, Admit(work)).running == if Close in moves then s.running else s.running[s.next := work]
  {
    hide IsRun, After, Tracked;
    Reached(s0, moves);
    ClosingFrom(s0, moves);
  }

  /** A turn that asks for the first time while no Cancel of its session is live: unless a close
      was requested before, a new Cancel of that session enters the provider for it; otherwise
      its Cancel has failed already and nothing enters. */
  lemma {:induction false} NewCancelEnters(s0: System, moves: seq<Move>, turn: nat, sessionID: string)
    requires Initial(s0) && IsRun(s0, moves)
    requires var s := After(s0, moves);
      turn !in s.turns && forall id <- s.running :: s.running[id].Cancel? ==> s.running[id].sessionID != sessionID
    ensures var s := After(s0, moves);
      && var t := Step(s, RequestTurnCancel(turn, sessionID));
      && turn in t.turns && t.turns[turn] < |t.life.calls|
      && if Close in moves then t.running == s.running && t.life.calls[t.turns[turn]] == CancelCall(true, true)
         else t.running == s.running[s.next := Cancel(sessionID, t.turns[turn])] && s.next !in s.running
  {
    hide IsRun, After, Tracked, AllNamed, Inv, Step;
    Reached(s0, moves);
    RunNamed(s0, moves);
    ClosingFrom(s0, moves);
    InitiallyOpen(s0);
    CancelEnters(After(s0, moves), turn, sessionID);
  }

  lemma InitiallyOpen(s0: System)
    requires Initial(s0)
    ensures !s0.life.closing
  {
  }

  lemma CancelEnters(s: System, turn: nat, sessionID: string)
    requires Inv(s) && AllNamed(s) && turn !in s.turns
    requires forall id <- s.running :: s.running[id].Cancel? ==> s.running[id].sessionID != sessionID
    ensures var t := Step(s, RequestTurnCancel(turn, sessionID));
      && turn in t.turns && t.turns[turn] < |t.life.calls|
      && if s.life.closing then t.running == s.running && t.life.calls[t.turns[turn]] == CancelCall(true, true)
         else t.running == s.running[s.next := Cancel(sessionID, t.turns[turn])] && s.next !in s.running
  {
    hide Tracked;
    NoneNamed(s, sessionID);
  }

  lemma NoneNamed(s: System, sessionID: string)
    requires AllNamed(s) && forall id <- s.running :: s.running[id].Cancel? ==> s.running[id].sessionID != sessionID
    ensures sessionID !in s.life.activeCancels
  {
  }

  /** A session that the table names has a live Cancel. */
  ghost predicate LiveNamed(running: map<nat, Work>, active: map<string, nat>, sessionID: string) {
    sessionID in active ==> exists id <- running :: running[id].Cancel? && running[id].sessionID == sessionID
  }

  ghost predicate AllNamed(s: System) {
    forall x <- s.life.activeCancels :: LiveNamed(s.running, s.life.activeCancels, x)
  }

  lemma StepNamed(s: System, m: Move)
    requires Inv(s) && AllNamed(s) && Can(s, m)
    ensures AllNamed(Step(s, m))
  {
    hide Tracked;
    var t := Step(s, m);
    forall x <- t.life.activeCancels
      ensures LiveNamed(t.running, t.life.activeCancels, x)
    {
      if x in s.life.activeCancels {
        assert LiveNamed(s.running, s.life.activeCancels, x);
        var id :| id in s.running && s.running[id].Cancel? && s.running[id].sessionID == x;
        if m.Return? && m.id == id {
          TrackedRunning(s.running, s.life.activeCancels, s.life.calls, id);
        } else {
          assert id in t.running && t.running[id] == s.running[id];
        }
      } else {
        assert s.next in t.running && t.running[s.next].Cancel? && t.running[s.next].sessionID == x;
      }
    }
  }

  lemma {:induction false} NamedFrom(s: System, moves: seq<Move>)
    requires Inv(s) && AllNamed(s) && IsRun(s, moves)
    ensures AllNamed(After(s, moves))
    decreases |moves|
  {
    hide Inv, AllNamed, Can, Step;
    if moves != [] {
      StepKeeps(s, moves[0]);
      StepNamed(s, moves[0]);
      NamedFrom(Step(s, moves[0]), moves[1..]);
    }
  }

  lemma InitialNamed(s0: System)
    requires Initial(s0)
    ensures Inv(s0) && AllNamed(s0)
  {
    NoneRuns(map[]);
  }

  lemma RunNamed(s0: System, moves: seq<Move>)
    requires Initial(s0) && IsRun(s0, moves)
    ensures AllNamed(After(s0, moves))
  {
    hide *;
    InitialNamed(s0);
    NamedFrom(s0, moves);
  }

  // ---- what a turn learns

  /** A finished Cancel keeps its result. */
  lemma StepKeepsResult(s: System, m: Move, call: nat)
    requires Inv(s) && Can(s, m) && call < |s.life.calls| && s.life.calls[call].done
    ensures call < |Step(s, m).life.calls| && Step(s, m).life.calls[call] == s.life.calls[call]
  {
    hide Tracked;
    if m.Return? && s.running[m.id].Cancel? {
      TrackedRunning(s.running, s.life.activeCancels, s.life.calls, m.id);
    }
  }

  lemma {:induction false} RunKeepsResult(s: System, moves: seq<Move>, call: nat)
    requires Inv(s) && IsRun(s, moves) && call < |s.life.calls| && s.life.calls[call].done
    ensures call < |After(s, moves).life.calls| && After(s, moves).life.calls[call] == s.life.calls[call]
    decreases |moves|
  {
    if moves != [] {
      hide Inv, Can, Step;
      StepKeepsResult(s, moves[0], call);
      StepKeeps(s, moves[0]);
      RunKeepsResult(Step(s, moves[0]), moves[1..], call);
    }
  }

  /** Every turn that got a Cancel that was live learns what the provider said when it returned,
      and nothing else from then on. */
  lemma {:induction false} TurnsLearnResult(s0: System, moves: seq<Move>, s: System, id: nat, failed: bool, more: seq<Move>, turn: nat)
    requires Initial(s0) && IsRun(s0, moves) && s == After(s0, moves)
    requires id in s.running && s.running[id].Cancel? && turn in s.turns && s.turns[turn] == s.running[id].call
    ensures Can(s, Return(id, failed))
    ensures IsRun(Step(s, Return(id, failed)), more) ==>
      var u := After(Step(s, Return(id, failed)), more);
      turn in u.turns && u.turns[turn] < |u.life.calls| && u.life.calls[u.turns[turn]] == CancelCall(true, failed)
  {
    hide IsRun, After, Tracked;
    Reached(s0, moves);
    TrackedRunning(s.running, s.life.activeCancels, s.life.calls, id);
    var t := Step(s, Return(id, failed));
    if IsRun(t, more) {
      StepKeeps(s, Return(id, failed));
      RunKeeps(t, more);
      RunKeepsResult(t, more, s.running[id].call);
    }
  }
}
