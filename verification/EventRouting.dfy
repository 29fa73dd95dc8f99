/** Which events reach a subscriber (`matches`, `recordSeqLocked` and `enqueue` in
    `internal/control/server.go`): only those of its runtime, and all of those but what its
    bounded buffers evict and what is not new any more. */
module EventRouting {
  import opened Common
  import opened EventStream

  // ---- only events of the subscribed runtime

  /** Every item belongs to the runtime that was asked for, if one was. */
  ghost predicate Belong(items: seq<Item>, runtimeID: string) {
    runtimeID != "" ==> forall x <- items :: x.event.runtime == runtimeID
  }

  /** What a subscriber has accepted belongs; what it was given to replay is not yet looked at. */
  ghost predicate Routed(s: Sub) {
    Belong(Passed(s), s.runtimeID) && Belong(s.batch, s.runtimeID) && Belong(s.pending, s.runtimeID) && Belong(s.evicted, s.runtimeID)
  }

  lemma AdmitRouted(s: Sub, x: Item)
    requires Belong(Passed(s), s.runtimeID) && s.sender.Unlocked? && Belong([x], s.runtimeID)
    ensures Belong(Passed(Admit(s, x)), s.runtimeID)
  {
    assert [x][0] == x;
    assert IsNew(s, x.event) ==> Passed(Admit(s, x)) == Passed(s) + [x];
  }

  lemma OfferRouted(s: Sub, e: Event)
    requires Routed(s) && s.sender.Unlocked?
    ensures Routed(Offered(s, e))
  {
    if !s.closed && Matches(s, e) {
      var x := Item(s.nextId, e);
      if s.ready {
        assert Passed(s.(nextId := s.nextId + 1)) == Passed(s);
        AdmitRouted(s.(nextId := s.nextId + 1), x);
      } else {
        assert Passed(Offered(s, e)) == Passed(s);
      }
    }
  }

  lemma ReplayRouted(s: Sub)
    requires Routed(s) && Enabled(s, ReplayOne)
    ensures Routed(Replayed(s))
  {
    var t := s.(replay := s.replay[1..]);
    assert Passed(t) == Passed(s);
    if Matches(s, s.replay[0].event) {
      AdmitRouted(t, s.replay[0]);
    }
  }

  lemma FlushRouted(s: Sub)
    requires Routed(s) && Enabled(s, FlushOne)
    ensures Routed(Flushed(s))
  {
    var t := s.(batch := s.batch[1..]);
    assert Passed(t) == Passed(s) == Passed(s.(batch := []));
    assert s.batch[0] in s.batch;
    AdmitRouted(t, s.batch[0]);
  }

  lemma EvictRouted(s: Sub)
    requires Routed(s) && s.sender.Evicting? && s.queue != []
    ensures Routed(Apply(s, Evict))
  {
    var t := Apply(s, Evict);
    var front, back := ItemsOf(s.out) + Optional(s.hand), s.queue[1..] + InSender(s);
    assert Passed(s) == front + [s.queue[0]] + back && Passed(t) == front + back;
    assert s.queue[0] in Passed(s) && forall x <- Passed(t) :: x in Passed(s);
  }

  lemma StepRouted(s: Sub, st: Step)
    requires Routed(s) && Enabled(s, st)
    ensures Routed(Apply(s, st))
  {
    match st
    case Offer(e) => OfferRouted(s, e);
    case ReplayOne => ReplayRouted(s);
    case FlushOne => FlushRouted(s);
    case Write => WritePasses(s);
    case _ =>
      if st.Evict? && s.queue != [] {
        EvictRouted(s);
      } else {
        QueueMoves(s, st);
      }
  }

  lemma NewSubRouted(runtimeID: string, afterSeq: int, replay: seq<Event>)
    ensures Routed(NewSub(runtimeID, afterSeq, replay))
  {
    assert Passed(NewSub(runtimeID, afterSeq, replay)) == [];
  }

  lemma {:induction false} RunRouted(trace: seq<Sub>, steps: seq<Step>, n: nat)
    requires IsRun(trace, steps) && n < |trace|
    ensures Routed(trace[n])
    decreases n
  {
    hide Apply, Enabled, Routed;
    if n == 0 {
      var runtimeID, afterSeq, replay :| trace[0] == NewSub(runtimeID, afterSeq, replay);
      NewSubRouted(runtimeID, afterSeq, replay);
    } else {
      RunRouted(trace, steps, n - 1);
      StepRouted(trace[n - 1], steps[n - 1]);
    }
  }

  /** In every run, every event that a subscriber of a runtime wrote, took, queued, holds or
      evicted is an event of that runtime. */
  lemma OnlyItsRuntime(trace: seq<Sub>, steps: seq<Step>, n: nat, x: Item)
    requires IsRun(trace, steps) && n < |trace| && trace[n].runtimeID != ""
    requires Wrote(x) in trace[n].out || trace[n].hand == Some(x) || x in trace[n].queue || (!trace[n].sender.Unlocked? && trace[n].sender.item == x)
      || x in trace[n].batch || x in trace[n].pending || x in trace[n].evicted
    ensures x.event.runtime == trace[n].runtimeID
  {
    RunRouted(trace, steps, n);
    var s := trace[n];
    if Wrote(x) in s.out {
      var p :| 0 <= p < |s.out| && s.out[p] == Wrote(x);
      WroteIsItem(s.out, p);
    }
    assert forall y <- ItemsOf(s.out) :: y in Passed(s);
    assert forall y <- Optional(s.hand) :: y in Passed(s);
    assert s.hand == Some(x) ==> x == Optional(s.hand)[0];
    assert !s.sender.Unlocked? ==> InSender(s)[0] == s.sender.item;
  }

  lemma StopRouted(s: Stopping, st: StopStep)
    requires Routed(s.sub) && Belong(s.batch, s.sub.runtimeID) && CanStop(s, st)
    ensures Routed(Stopped(s, st).sub) && Belong(Stopped(s, st).batch, s.sub.runtimeID) && Stopped(s, st).sub.runtimeID == s.sub.runtimeID
  {
    match st
    case Regular(own) => StepRouted(s.sub, own);
    case StopFlush =>
      assert s.batch[0] in s.batch;
      AdmitRouted(s.sub, s.batch[0]);
    case _ => assert Passed(Stopped(s, st).sub) == Passed(s.sub);
  }

  /** The same while `Stop` flushes beside a replay. */
  lemma {:induction false} StopKeepsRuntime(trace: seq<Stopping>, steps: seq<StopStep>, n: nat)
    requires IsStoppingRun(trace, steps) && n < |trace|
    ensures Routed(trace[n].sub) && Belong(trace[n].batch, trace[n].sub.runtimeID)
    decreases n
  {
    hide Stopped, CanStop, Routed;
    if n == 0 {
      var runtimeID, afterSeq, replay :| trace[0] == Stopping(NewSub(runtimeID, afterSeq, replay), []);
      NewSubRouted(runtimeID, afterSeq, replay);
    } else {
      StopKeepsRuntime(trace, steps, n - 1);
      StopRouted(trace[n - 1], steps[n - 1]);
    }
  }

  // ---- all of its events

  /** A number at or above the event's was let through for its runtime, or is the cursor. */
  predicate Superseded(s: Sub, e: Event) {
    e.seq_.Some? && e.runtime in s.seen && e.seq_.value <= s.seen[e.runtime]
  }

  /** The item was let through, waits to be, or was evicted, or it is not new any more. */
  ghost predicate Kept(s: Sub, x: Item) {
    x in Passed(s) || x in Waiting(s) || x in s.evicted || Superseded(s, x.event)
  }

  /** The item is wanted: no runtime was asked for, or its own was. */
  predicate Wanted(s: Sub, x: Item) {
    s.runtimeID == "" || x.event.runtime == s.runtimeID
  }

  lemma AdmitKeeps(s: Sub, t: Sub, y: Item, x: Item)
    requires s.sender.Unlocked? && t.sender.Unlocked? && Passed(t) == Passed(s) && t.seen == s.seen && t.evicted == s.evicted
    requires Kept(s, x)
    requires x in Waiting(s) ==> x in Waiting(t) || x == y
    ensures Kept(Admit(t, y), x)
  {
    var u := Admit(t, y);
    assert Waiting(u) == Waiting(t);
    if IsNew(t, y.event) {
      assert Passed(u) == Passed(t) + [y] && y == (Passed(t) + [y])[|Passed(t)|];
    }
  }

  lemma OfferKeeps(s: Sub, e: Event, x: Item)
    requires Kept(s, x) && s.sender.Unlocked?
    ensures Kept(Offered(s, e), x)
  {
    if !s.closed && Matches(s, e) {
      var y := Item(s.nextId, e);
      if s.ready {
        assert Waiting(s.(nextId := s.nextId + 1)) == Waiting(s);
        AdmitKeeps(s, s.(nextId := s.nextId + 1), y, x);
      } else {
        var t := Offered(s, e);
        assert Passed(t) == Passed(s);
        PendingKeeps(s.replay + s.batch, s.pending, y, x);
        assert |s.pending| >= CAPACITY ==> s.pending[0] == t.evicted[|s.evicted|];
      }
    }
  }

  lemma PendingKeeps(a: seq<Item>, pending: seq<Item>, y: Item, x: Item)
    ensures x in a + pending ==> x in a + (pending + [y])
    ensures x in a + pending && pending != [] ==> x in a + (pending[1..] + [y]) || x == pending[0]
  {
    if pending != [] {
      assert pending == [pending[0]] + pending[1..];
    }
  }

  lemma ReplayKeeps(s: Sub, x: Item)
    requires Kept(s, x) && Wanted(s, x) && Enabled(s, ReplayOne) && !s.closed
    ensures Kept(Replayed(s), x)
  {
    var t := s.(replay := s.replay[1..]);
    assert Waiting(s) == [s.replay[0]] + Waiting(t);
    if Matches(s, s.replay[0].event) {
      AdmitKeeps(s, t, s.replay[0], x);
    } else {
      assert Passed(t) == Passed(s);
    }
  }

  lemma FlushKeeps(s: Sub, x: Item)
    requires Kept(s, x) && Enabled(s, FlushOne) && !s.closed
    ensures Kept(Flushed(s), x)
  {
    var t := s.(batch := s.batch[1..]);
    assert Waiting(s) == [s.batch[0]] + Waiting(t);
    AdmitKeeps(s, t, s.batch[0], x);
  }

  lemma EvictKeeps(s: Sub, x: Item)
    requires Kept(s, x) && s.sender.Evicting? && s.queue != []
    ensures Kept(Apply(s, Evict), x)
  {
    var t := Apply(s, Evict);
    var front, back := ItemsOf(s.out) + Optional(s.hand), s.queue[1..] + InSender(s);
    assert Passed(s) == front + [s.queue[0]] + back && Passed(t) == front + back;
    assert t.evicted[|s.evicted|] == s.queue[0];
  }

  lemma StepKeepsItem(s: Sub, st: Step, x: Item)
    requires Kept(s, x) && Wanted(s, x) && Enabled(s, st) && !Apply(s, st).closed
    ensures Kept(Apply(s, st), x) && Wanted(Apply(s, st), x) && !s.closed
  {
    match st
    case Offer(e) => OfferKeeps(s, e, x);
    case ReplayOne => ReplayKeeps(s, x);
    case FlushOne => FlushKeeps(s, x);
    case Write => WritePasses(s);
    case _ =>
      if st.Evict? && s.queue != [] {
        EvictKeeps(s, x);
      } else {
        QueueMoves(s, st);
      }
  }

  lemma {:induction false} RunKeepsItem(trace: seq<Sub>, steps: seq<Step>, k: nat, n: nat, x: Item)
    requires IsRun(trace, steps) && k <= n < |trace| && Kept(trace[k], x) && Wanted(trace[k], x) && !trace[n].closed
    ensures Kept(trace[n], x)
    ensures Wanted(trace[n], x) && !trace[k].closed
    decreases n
  {
    hide Apply, Enabled, Kept, Wanted;
    if k < n {
      if trace[n - 1].closed {
        ClosedStays(trace[n - 1], steps[n - 1]);
      } else {
        RunKeepsItem(trace, steps, k, n - 1, x);
        StepKeepsItem(trace[n - 1], steps[n - 1], x);
      }
    }
  }

  lemma ClosedStays(s: Sub, st: Step)
    requires Enabled(s, st) && s.closed
    ensures Apply(s, st).closed
  {
  }

  /** An event that is offered is kept by an open subscriber that wants it. */
  lemma OfferAccepts(s: Sub, e: Event)
    requires s.sender.Unlocked? && !s.closed && (s.runtimeID == "" || e.runtime == s.runtimeID)
    ensures Kept(Offered(s, e), Item(s.nextId, e))
    ensures !s.ready || e.seq_.None? || e.runtime !in s.seen || s.seen[e.runtime] < e.seq_.value ==>
      var t := Offered(s, e); Item(s.nextId, e) in Passed(t) || Item(s.nextId, e) in Waiting(t)
  {
    var x, t := Item(s.nextId, e), Offered(s, e);
    if s.ready && IsNew(s, e) {
      assert Passed(t) == ItemsOf(s.out) + Optional(s.hand) + s.queue + [x] && [x][0] == x;
    } else if !s.ready {
      assert t.pending[|t.pending| - 1] == x;
    }
  }

  /** `seen` is the cursor or the number of an event that was let through. */
  ghost predicate SeenKnown(s: Sub, afterSeq: int) {
    forall r <- s.seen :: KnownNumber(s, afterSeq, r, s.seen[r])
  }

  ghost predicate KnownNumber(s: Sub, afterSeq: int, runtime: string, number: int) {
    (runtime == s.runtimeID && number == afterSeq) || LetThrough(s, runtime, number)
  }

  ghost predicate LetThrough(s: Sub, runtime: string, number: int) {
    exists y: Item :: (y in Passed(s) || y in s.evicted) && y.event.runtime == runtime && y.event.seq_ == Some(number)
  }

  /** What was let through stays so. */
  lemma LetThroughStays(s: Sub, t: Sub, runtime: string, number: int)
    requires LetThrough(s, runtime, number)
    requires forall y <- Passed(s) :: y in Passed(t) || y in t.evicted
    requires forall y <- s.evicted :: y in t.evicted
    ensures LetThrough(t, runtime, number)
  {
    var y: Item :| (y in Passed(s) || y in s.evicted) && y.event.runtime == runtime && y.event.seq_ == Some(number);
  }

  lemma SeenStays(s: Sub, t: Sub, afterSeq: int)
    requires SeenKnown(s, afterSeq) && t.seen == s.seen && t.runtimeID == s.runtimeID
    requires forall y <- Passed(s) :: y in Passed(t) || y in t.evicted
    requires forall y <- s.evicted :: y in t.evicted
    ensures SeenKnown(t, afterSeq)
  {
    forall r <- t.seen
      ensures KnownNumber(t, afterSeq, r, t.seen[r])
    {
      if LetThrough(s, r, s.seen[r]) {
        LetThroughStays(s, t, r, s.seen[r]);
      }
    }
  }

  lemma AdmitSeen(s: Sub, x: Item, afterSeq: int)
    requires SeenKnown(s, afterSeq) && s.sender.Unlocked?
    ensures SeenKnown(Admit(s, x), afterSeq)
  {
    var t := Admit(s, x);
    if IsNew(s, x.event) {
      assert Passed(t) == Passed(s) + [x] && (Passed(s) + [x])[|Passed(s)|] == x;
      forall r <- t.seen
        ensures KnownNumber(t, afterSeq, r, t.seen[r])
      {
        if r != x.event.runtime || x.event.seq_.None? {
          assert KnownNumber(s, afterSeq, r, s.seen[r]);
          if LetThrough(s, r, s.seen[r]) {
            LetThroughStays(s, t, r, s.seen[r]);
          }
        } else {
          assert x in Passed(t) && LetThrough(t, r, t.seen[r]);
        }
      }
    }
  }

  lemma OfferSeen(s: Sub, e: Event, afterSeq: int)
    requires SeenKnown(s, afterSeq) && s.sender.Unlocked?
    ensures SeenKnown(Offered(s, e), afterSeq)
  {
    if !s.closed && Matches(s, e) && s.ready {
      var u := s.(nextId := s.nextId + 1);
      assert Passed(u) == Passed(s);
      SeenStays(s, u, afterSeq);
      AdmitSeen(u, Item(s.nextId, e), afterSeq);
    } else {
      assert Passed(Offered(s, e)) == Passed(s);
      SeenStays(s, Offered(s, e), afterSeq);
    }
  }

  lemma EvictSeen(s: Sub, afterSeq: int)
    requires SeenKnown(s, afterSeq) && s.sender.Evicting? && s.queue != []
    ensures SeenKnown(Apply(s, Evict), afterSeq)
  {
    var t := Apply(s, Evict);
    var front, back := ItemsOf(s.out) + Optional(s.hand), s.queue[1..] + InSender(s);
    assert Passed(s) == front + [s.queue[0]] + back && Passed(t) == front + back;
    assert t.evicted[|s.evicted|] == s.queue[0];
    SeenStays(s, t, afterSeq);
  }

  lemma StepSeen(s: Sub, st: Step, afterSeq: int)
    requires SeenKnown(s, afterSeq) && Enabled(s, st)
    ensures SeenKnown(Apply(s, st), afterSeq)
  {
    hide SeenKnown;
    match st
    case Offer(e) => OfferSeen(s, e, afterSeq);
    case ReplayOne =>
      var t := s.(replay := s.replay[1..]);
      assert Passed(t) == Passed(s);
      SeenStays(s, t, afterSeq);
      AdmitSeen(t, s.replay[0], afterSeq);
    case FlushOne =>
      var t := s.(batch := s.batch[1..]);
      assert Passed(t) == Passed(s) == Passed(s.(batch := []));
      SeenStays(s, t, afterSeq);
      SeenStays(s, s.(batch := []), afterSeq);
      AdmitSeen(t, s.batch[0], afterSeq);
    case Write =>
      WritePasses(s);
      SeenStays(s, Written(s), afterSeq);
    case _ =>
      if st.Evict? && s.queue != [] {
        EvictSeen(s, afterSeq);
      } else {
        QueueMoves(s, st);
        SeenStays(s, Apply(s, st), afterSeq);
      }
  }

  lemma {:induction false} RunSeen(trace: seq<Sub>, steps: seq<Step>, n: nat) returns (afterSeq: int)
    requires IsRun(trace, steps) && n < |trace|
    ensures SeenKnown(trace[n], afterSeq)
    ensures exists runtimeID, replay :: trace[0] == NewSub(runtimeID, afterSeq, replay)
    decreases n
  {
    hide Apply, Enabled;
    if n == 0 {
      var runtimeID, after, replay :| trace[0] == NewSub(runtimeID, after, replay);
      afterSeq := after;
    } else {
      hide SeenKnown, NewSub;
      afterSeq := RunSeen(trace, steps, n - 1);
      StepSeen(trace[n - 1], steps[n - 1], afterSeq);
    }
  }

  /** Nothing is lost but what is reported: an event that an open subscriber is offered, and
      that is of its runtime if it asked for one, is at every later moment written, taken,
      queued, on its way or evicted, as long as the subscriber stays open; unless an event of
      its runtime with the same or a higher number was let through, or the client's cursor was
      already there. */
  lemma NothingLost(trace: seq<Sub>, steps: seq<Step>, k: nat, n: nat)
    requires IsRun(trace, steps) && k < n < |trace| && steps[k].Offer? && !trace[n].closed
    requires trace[k].runtimeID == "" || steps[k].event.runtime == trace[k].runtimeID
    ensures var s, x := trace[n], Item(trace[k].nextId, steps[k].event);
      || x in Passed(s) || x in Waiting(s) || x in s.evicted
      || (x.event.seq_.Some? &&
          ((exists y: Item :: (y in Passed(s) || y in s.evicted) && SameRuntime(x.event, y.event) && x.event.seq_.value <= y.event.seq_.value)
           || (x.event.runtime == s.runtimeID && exists after: int, replay ::
                 trace[0] == NewSub(s.runtimeID, after, replay) && x.event.seq_.value <= after)))
  {
    var s, x := trace[n], Item(trace[k].nextId, steps[k].event);
    assert Enabled(trace[k], steps[k]) && trace[k + 1] == Apply(trace[k], steps[k]);
    OfferStaysOpen(trace, steps, k, n);
    OfferAccepts(trace[k], steps[k].event);
    assert Wanted(trace[k + 1], x);
    hide Apply, Enabled, NewSub, Offered;
    RunKeepsItem(trace, steps, k + 1, n, x);
    if Superseded(s, x.event) {
      var after := RunSeen(trace, steps, n);
      assert KnownNumber(s, after, x.event.runtime, s.seen[x.event.runtime]);
      RuntimeFixed(trace, steps, n);
    }
  }

  lemma {:induction false} RuntimeFixed(trace: seq<Sub>, steps: seq<Step>, n: nat)
    requires IsRun(trace, steps) && n < |trace|
    ensures forall runtimeID, after, replay :: trace[0] == NewSub(runtimeID, after, replay) ==> trace[n].runtimeID == runtimeID
    decreases n
  {
    if n > 0 {
      RuntimeFixed(trace, steps, n - 1);
      assert Apply(trace[n - 1], steps[n - 1]).runtimeID == trace[n - 1].runtimeID;
    }
  }

  lemma {:induction false} OfferStaysOpen(trace: seq<Sub>, steps: seq<Step>, k: nat, n: nat)
    requires IsRun(trace, steps) && k <= n < |trace| && !trace[n].closed
    ensures !trace[k].closed
    decreases n - k
  {
    if k < n {
      hide Apply, Enabled;
      OfferStaysOpen(trace, steps, k + 1, n);
      if trace[k].closed {
        ClosedStays(trace[k], steps[k]);
      }
    }
  }

  // ---- a stream that fits its buffers

  /** Evictions come only with more items than a buffer has room for. */
  ghost predicate EvictsOnlyWhenFull(s: Sub) {
    s.evicted != [] || s.sender.Evicting? || s.sender.Sending? ==> s.nextId > CAPACITY
  }

  lemma {:induction false} LineFits(items: seq<Item>, nextId: nat)
    requires InLine(items, nextId)
    ensures |items| <= nextId
    decreases |items|
  {
    if items != [] {
      var n := |items| - 1;
      assert items[n] in items;
      assert InLine(items[..n], items[n].id) by {
        assert forall i | 0 <= i < n :: items[i].id < items[n].id;
      }
      LineFits(items[..n], items[n].id);
    }
  }

  lemma FullMeansMany(s: Sub)
    requires EventStream.Sound(s)
    ensures s.sender.Trying? && |s.queue| >= CAPACITY ==> s.nextId > CAPACITY
    ensures |s.pending| >= CAPACITY ==> s.nextId >= CAPACITY
  {
    LineFits(Passed(s) + Waiting(s), s.nextId);
  }

  lemma StepEvictsOnlyWhenFull(s: Sub, st: Step)
    requires EventStream.Sound(s) && EvictsOnlyWhenFull(s) && Enabled(s, st)
    ensures EvictsOnlyWhenFull(Apply(s, st))
  {
    FullMeansMany(s);
    hide EventStream.Sound;
  }

  /** As long as a subscriber has been given no more events than its buffer holds, replay and
      live events together, none was evicted. */
  lemma {:induction false} SmallStreamsEvictNothing(trace: seq<Sub>, steps: seq<Step>, n: nat)
    requires IsRun(trace, steps) && n < |trace|
    ensures trace[n].nextId <= CAPACITY ==> trace[n].evicted == []
    ensures EvictsOnlyWhenFull(trace[n])
    decreases n
  {
    hide Apply, Enabled, EventStream.Sound;
    if n == 0 {
      var runtimeID, afterSeq, replay :| trace[0] == NewSub(runtimeID, afterSeq, replay);
    } else {
      SmallStreamsEvictNothing(trace, steps, n - 1);
      EventStream.RunSound(trace, steps, n - 1);
      StepEvictsOnlyWhenFull(trace[n - 1], steps[n - 1]);
    }
  }

  // ---- a subscriber that is left alone

  /** What is to be done next: finish a send, queue the replay and then what is pending, become
      ready, and write what is queued. */
  function NextStep(s: Sub): Option<Step> {
    match s.sender
    case Trying(_) => Some(Try)
    case Evicting(_) => Some(Evict)
    case Sending(_) => Some(Send)
    case Unlocked =>
      if s.replay != [] then Some(ReplayOne)
      else if s.batch != [] then Some(FlushOne)
      else if !s.ready then Some(TakeBatch)
      else if s.hand.Some? then Some(Write)
      else if s.queue != [] then Some(Receive)
      else None
  }

  function SenderRank(sender: Sender): nat {
    match sender
    case Unlocked => 0
    case Sending(_) => 3
    case Evicting(_) => 4
    case Trying(_) => 5
  }

  /** How much is left to do. */
  function Rank(s: Sub): nat {
    6 * |s.replay| + 6 * |s.batch| + 7 * |s.pending| + (if s.ready then 0 else 1) + SenderRank(s.sender) +
    2 * |s.queue| + (if s.hand.Some? then 1 else 0)
  }

  lemma NextStepOk(s: Sub)
    requires EventStream.Sound(s) && !s.closed && NextStep(s).Some?
    ensures Enabled(s, NextStep(s).value) && Rank(Apply(s, NextStep(s).value)) < Rank(s) && !Apply(s, NextStep(s).value).closed
  {
    assert Room(s);
    hide EventStream.Sound, Waiting, Rank;
    if s.sender.Unlocked? {
      LineRank(s);
    } else {
      SendRank(s);
    }
  }

  lemma AdmitRank(s: Sub, x: Item)
    requires s.sender.Unlocked?
    ensures Rank(Admit(s, x)) <= Rank(s) + 5
  {
  }

  /** A send takes an item on, or an eviction drops one. */
  lemma SendRank(s: Sub)
    requires !s.sender.Unlocked? && Enabled(s, NextStep(s).value)
    ensures Rank(Apply(s, NextStep(s).value)) < Rank(s)
  {
  }

  lemma LineRank(s: Sub)
    requires s.sender.Unlocked? && !s.closed && NextStep(s).Some?
    ensures Enabled(s, NextStep(s).value) && Rank(Apply(s, NextStep(s).value)) < Rank(s)
  {
    if s.replay != [] {
      AdmitRank(s.(replay := s.replay[1..]), s.replay[0]);
    } else if s.batch != [] {
      AdmitRank(s.(batch := s.batch[1..]), s.batch[0]);
    }
    hide Admit, Matches;
  }

  /** The steps lead from one state to the other. */
  ghost predicate Path(s: Sub, steps: seq<Step>, t: Sub)
    decreases |steps|
  {
    if steps == [] then s == t else Enabled(s, steps[0]) && Path(Apply(s, steps[0]), steps[1..], t)
  }

  /** Nothing is left to do. */
  ghost predicate Rests(t: Sub) {
    t.ready && t.sender.Unlocked? && t.hand.None? && t.queue == [] && Waiting(t) == [] && !t.closed
  }

  lemma {:induction false} ComesToRest(s: Sub, items: set<Item>) returns (steps: seq<Step>, t: Sub)
    requires EventStream.Sound(s) && !s.closed && forall x <- items :: Kept(s, x) && Wanted(s, x)
    ensures Path(s, steps, t) && Rests(t) && forall x <- items :: Kept(t, x)
    decreases Rank(s)
  {
    var next := NextStep(s);
    if next.None? {
      assert Room(s);
      return [], s;
    }
    NextStepOk(s);
    EventStream.SoundStep(s, next.value);
    hide Apply, Enabled, EventStream.Sound, NextStep, Rank, Kept, Wanted, Rests;
    forall x <- items
      ensures Kept(Apply(s, next.value), x) && Wanted(Apply(s, next.value), x)
    {
      StepKeepsItem(s, next.value, x);
    }
    var rest;
    rest, t := ComesToRest(Apply(s, next.value), items);
    steps := [next.value] + rest;
    assert steps[1..] == rest;
  }

  /** At any moment of any run, an open subscriber that is left alone gets everything done: it
      queues its replay and what waits, becomes ready and writes all of it.  Every item of its
      runtime that it held is then written, evicted or not new any more. */
  lemma LeftAloneDelivers(trace: seq<Sub>, steps: seq<Step>, n: nat, items: set<Item>) returns (more: seq<Step>, t: Sub)
    requires IsRun(trace, steps) && n < |trace| && !trace[n].closed
    requires forall x <- items :: (x in Passed(trace[n]) || x in Waiting(trace[n])) && (trace[n].runtimeID == "" || x.event.runtime == trace[n].runtimeID)
    ensures Path(trace[n], more, t) && Rests(t)
    ensures forall x <- items :: x in ItemsOf(t.out) || x in t.evicted || Superseded(t, x.event)
  {
    EventStream.RunSound(trace, steps, n);
    hide IsRun, EventStream.Sound, Path;
    more, t := ComesToRest(trace[n], items);
    assert Passed(t) == ItemsOf(t.out);
  }
}
