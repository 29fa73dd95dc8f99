/** Attaching to a runtime's event stream: the history kept by the control server
    (`internal/control/event_stream.go`), the replay handed to a new subscription, and the
    events published from then on.  Publishing appends to the history and takes note of the
    subscribers in one critical section, and hands the event to them in later ones. */
module EventAttach {
  import opened Common
  import opened EventStream

  // ---- the history

  /** An event without a number counts as number 0. */
  function Number(e: Event): int {
    if e.seq_.Some? then e.seq_.value else 0
  }

  predicate Above(e: Event, afterSeq: int) {
    Number(e) > afterSeq
  }

  function Kept(s: seq<Event>, afterSeq: int): seq<Event> {
    if s == [] then []
    else Kept(s[..|s| - 1], afterSeq) + (if Above(s[|s| - 1], afterSeq) then [s[|s| - 1]] else [])
  }

  /** One runtime's part of the control server's event state. */
  class RuntimeEventState {
    var latestSeq: int
    var history: seq<Event>

    constructor ()
      ensures latestSeq == 0 && history == []
    {
      latestSeq, history := 0, [];
    }

    /** Gives an event its number, unless it has one. */
    method CanonicalizeEvent(e: Event) returns (out: Event)
      modifies this`latestSeq
      ensures e.seq_.Some? ==> out == e && latestSeq == if e.seq_.value > old(latestSeq) then e.seq_.value else old(latestSeq)
      ensures e.seq_.None? ==> out == e.(seq_ := Some(old(latestSeq) + 1)) && latestSeq == old(latestSeq) + 1
    {
      out := e;
      if e.seq_.Some? {
        if e.seq_.value > latestSeq {
          latestSeq := e.seq_.value;
        }
      } else {
        latestSeq := latestSeq + 1;
        out := e.(seq_ := Some(latestSeq));
      }
    }

    method Append(e: Event)
      requires |history| <= HISTORY
      modifies this
      ensures history == LastN(old(history) + [e], HISTORY) && |history| <= HISTORY
      ensures latestSeq == if e.seq_.Some? && Above(e, old(latestSeq)) then e.seq_.value else old(latestSeq)
    {
      if e.seq_.Some? && e.seq_.value > latestSeq {
        latestSeq := e.seq_.value;
      }
      history := history + [e];
      if |history| > HISTORY {
        history := history[|history| - HISTORY..];
      }
    }

    /** The retained events above the cursor, at most `limit` of them. */
    method HistorySince(afterSeq: int, limit: nat) returns (events: seq<Event>)
      ensures events == LastN(Kept(history, afterSeq), limit)
    {
      events := [];
      for i := 0 to |history|
        invariant events == Kept(history[..i], afterSeq)
      {
        assert history[..i + 1][..i] == history[..i];
        if Number(history[i]) > afterSeq {
          events := events + [history[i]];
        }
      }
      assert history[..|history|] == history;
      if |events| > limit {
        events := events[|events| - limit..];
      }
    }
  }

  // ---- publishing and attaching

  /** What a subscription asks for. */
  datatype Request = Request(runtimeID: string, replay: bool, afterSeq: int, limit: nat)

  /** `published` is every event of any runtime so far; `history` and `latest` are kept for the
      subscribed runtime; `inflight` is the event of it whose publisher has yet to hand it to
      the subscriber, and `foreign` are such events of other runtimes; `attachedAt` is the
      number of events published before the subscription was registered. */
  datatype Sys = Sys(
    request: Request,
    published: seq<Event>,
    history: seq<Event>,
    latest: int,
    inflight: Option<Event>,
    foreign: seq<Event>,
    sub: Option<Sub>,
    attachedAt: nat
  )

  function Init(request: Request): Sys {
    Sys(request, [], [], 0, None, [], None, 0)
  }

  datatype Move =
    | Publish(event: Event)
    | HandOver
    | HandOverForeign(index: nat)
    | Attach
    | Own(step: Step)

  /** Publishers of the subscribed runtime are serialised and number its events upwards from 1;
      those of other runtimes publish what and when they like. */
  predicate CanMove(s: Sys, m: Move) {
    match m
    case Publish(e) => e.runtime == s.request.runtimeID ==> s.inflight.None? && e.seq_.Some? && e.seq_.value > s.latest
    case HandOver => s.inflight.Some? && s.sub.Some? && s.sub.value.sender.Unlocked?
    case HandOverForeign(k) => k < |s.foreign| && s.sub.Some? && s.sub.value.sender.Unlocked?
    case Attach => s.sub.None?
    case Own(st) => s.sub.Some? && !st.Offer? && !st.Close? && Enabled(s.sub.value, st)
  }

  function Replay(s: Sys): seq<Event> {
    if s.request.replay then LastN(Kept(s.history, s.request.afterSeq), s.request.limit) else []
  }

  function Moved(s: Sys, m: Move): Sys
    requires CanMove(s, m)
  {
    match m
    case Publish(e) =>
      if e.runtime == s.request.runtimeID then
        s.(published := s.published + [e], history := LastN(s.history + [e], HISTORY), latest := e.seq_.value,
           inflight := if s.sub.Some? then Some(e) else None)
      else s.(published := s.published + [e], foreign := if s.sub.Some? then s.foreign + [e] else s.foreign)
    case HandOver => s.(sub := Some(Offered(s.sub.value, s.inflight.value)), inflight := None)
    case HandOverForeign(k) =>
      s.(sub := Some(Offered(s.sub.value, s.foreign[k])), foreign := s.foreign[..k] + s.foreign[k + 1..])
    case Attach =>
      s.(sub := Some(NewSub(s.request.runtimeID, s.request.afterSeq, Replay(s))), attachedAt := |s.published|)
    case Own(st) => s.(sub := Some(Apply(s.sub.value, st)))
  }

  ghost predicate IsRun(trace: seq<Sys>, moves: seq<Move>) {
    && |trace| == |moves| + 1
    && trace[0].request.runtimeID != "" && trace[0] == Init(trace[0].request)
    && (forall n | 0 <= n < |moves| :: CanMove(trace[n], moves[n]) && trace[n + 1] == Moved(trace[n], moves[n]))
  }

  /** The events of one runtime. */
  function OfRuntime(events: seq<Event>, runtime: string): seq<Event> {
    if events == [] then []
    else OfRuntime(events[..|events| - 1], runtime) + (if events[|events| - 1].runtime == runtime then [events[|events| - 1]] else [])
  }

  /** What the subscription is to deliver, in terms of the published events alone: of those of
      its runtime, the last `limit` retained ones above the cursor when it attached, then every
      later one above the cursor. */
  function Expected(s: Sys): seq<Event>
    requires s.attachedAt <= |s.published|
  {
    (if s.request.replay
     then LastN(Kept(LastN(OfRuntime(s.published[..s.attachedAt], s.request.runtimeID), HISTORY), s.request.afterSeq), s.request.limit)
     else [])
    + Kept(OfRuntime(s.published[s.attachedAt..], s.request.runtimeID), s.request.afterSeq)
  }

  // ---- the invariant

  function Events(items: seq<Item>): (events: seq<Event>)
    ensures |events| == |items| && forall i | 0 <= i < |items| :: events[i] == items[i].event
  {
    seq(|items|, i requires 0 <= i < |items| => items[i].event)
  }

  /** Numbered events of one runtime, numbered upwards from 1 and not above `latest`. */
  ghost predicate Ordered(events: seq<Event>, runtime: string, latest: int) {
    && (forall e <- events :: e.runtime == runtime && e.seq_.Some? && 1 <= e.seq_.value <= latest)
    && (forall i, j | 0 <= i < j < |events| :: Number(events[i]) < Number(events[j]))
  }

  /** What was let through to the client. */
  function Through(s: Sys): seq<Event>
    requires s.sub.Some?
  {
    Events(Passed(s.sub.value))
  }

  /** What waits to be let through. */
  function Later(s: Sys): seq<Event>
    requires s.sub.Some?
  {
    Events(Waiting(s.sub.value)) + Optional(s.inflight)
  }

  /** `through` and then what of `later` is above the cursor is just what is expected. */
  ghost predicate OnCourse(through: seq<Event>, later: seq<Event>, r: Request, latest: int, expected: seq<Event>) {
    && Ordered(through + later, r.runtimeID, latest)
    && (forall e <- through :: Above(e, r.afterSeq))
    && through + Kept(later, r.afterSeq) == expected
  }

  /** `seen` is the number let through last, or else the cursor. */
  ghost predicate SeenIsLast(through: seq<Event>, seen: map<string, int>, r: Request) {
    if through == [] then (r.runtimeID in seen <==> r.afterSeq > 0) && (r.runtimeID in seen ==> seen[r.runtimeID] == r.afterSeq)
    else r.runtimeID in seen && seen[r.runtimeID] == Number(through[|through| - 1])
  }

  ghost predicate Attached(s: Sys)
    requires s.sub.Some?
  {
    && s.attachedAt <= |s.published|
    && !s.sub.value.closed && s.sub.value.runtimeID == s.request.runtimeID
    && OnCourse(Through(s), Later(s), s.request, s.latest, Expected(s))
    && SeenIsLast(Through(s), s.sub.value.seen, s.request)
  }

  /** What was published of the subscribed runtime. */
  function Published(s: Sys): seq<Event> {
    OfRuntime(s.published, s.request.runtimeID)
  }

  ghost predicate Sound(s: Sys) {
    && s.request.runtimeID != "" && 0 <= s.latest
    && s.history == LastN(Published(s), HISTORY)
    && Ordered(Published(s), s.request.runtimeID, s.latest)
    && (forall e <- s.foreign :: e.runtime != s.request.runtimeID)
    && (s.sub.None? ==> s.inflight.None?)
    && (s.sub.Some? ==> EventStream.Sound(s.sub.value) && s.sub.value.runtimeID == s.request.runtimeID)
    && (s.sub.Some? && s.sub.value.evicted == [] ==> Attached(s))
  }

  // ---- facts about sequences of events

  lemma {:induction false} KeptConcat(a: seq<Event>, b: seq<Event>, afterSeq: int)
    ensures Kept(a + b, afterSeq) == Kept(a, afterSeq) + Kept(b, afterSeq)
  {
    if b == [] {
      assert a + b == a;
    } else {
      assert (a + b)[..|a + b| - 1] == a + b[..|b| - 1];
      KeptConcat(a, b[..|b| - 1], afterSeq);
    }
  }

  lemma OneMorePublished(events: seq<Event>, e: Event, runtime: string)
    ensures OfRuntime(events + [e], runtime) == OfRuntime(events, runtime) + if e.runtime == runtime then [e] else []
  {
    assert (events + [e])[..|events|] == events;
  }

  lemma KeptOne(e: Event, afterSeq: int)
    ensures Kept([e], afterSeq) == if Above(e, afterSeq) then [e] else []
  {
    assert [e][..0] == [];
  }

  lemma {:induction false} KeptAll(a: seq<Event>, afterSeq: int)
    requires forall e <- a :: Above(e, afterSeq)
    ensures Kept(a, afterSeq) == a
  {
    if a != [] {
      KeptAll(a[..|a| - 1], afterSeq);
      assert a == a[..|a| - 1] + [a[|a| - 1]];
    }
  }

  lemma OrderedDrop(a: seq<Event>, runtime: string, latest: int, n: nat)
    requires Ordered(a, runtime, latest) && n <= |a|
    ensures Ordered(a[n..], runtime, latest)
    ensures Ordered(a[..n], runtime, latest)
  {
  }

  lemma OrderedAppend(a: seq<Event>, e: Event, runtime: string, latest: int)
    requires Ordered(a, runtime, latest) && 0 <= latest
    requires e.runtime == runtime && e.seq_.Some? && latest < e.seq_.value
    ensures Ordered(a + [e], runtime, e.seq_.value)
  {
  }

  lemma OrderedWithout(a: seq<Event>, e: Event, b: seq<Event>, runtime: string, latest: int)
    requires Ordered(a + ([e] + b), runtime, latest)
    ensures Ordered(a + b, runtime, latest)
    ensures forall i | 0 <= i < |a| :: Number(a[i]) < Number(e)
    ensures e.runtime == runtime && e.seq_.Some? && 1 <= e.seq_.value
  {
    var c, d := a + ([e] + b), a + b;
    assert c[|a|] == e;
    forall i, j | 0 <= i < j < |d| ensures Number(d[i]) < Number(d[j]) {
      var i', j' := if i < |a| then i else i + 1, if j < |a| then j else j + 1;
      assert d[i] == c[i'] && d[j] == c[j'];
    }
    forall i | 0 <= i < |a| ensures Number(a[i]) < Number(e) {
      assert c[i] == a[i];
    }
    assert forall x <- d :: x in c;
  }

  lemma {:induction false} OrderedKept(a: seq<Event>, runtime: string, latest: int, afterSeq: int)
    requires Ordered(a, runtime, latest)
    ensures Ordered(Kept(a, afterSeq), runtime, latest)
    ensures forall e <- Kept(a, afterSeq) :: e in a && Above(e, afterSeq)
  {
    if a != [] {
      var b, e := a[..|a| - 1], a[|a| - 1];
      OrderedDrop(a, runtime, latest, |a| - 1);
      OrderedKept(b, runtime, latest, afterSeq);
      forall i | 0 <= i < |Kept(b, afterSeq)| ensures Number(Kept(b, afterSeq)[i]) < Number(e) {
        var x := Kept(b, afterSeq)[i];
        assert x in b;
      }
    }
  }

  lemma LastNAppend(s: seq<Event>, e: Event, n: nat)
    requires n > 0
    ensures LastN(LastN(s, n) + [e], n) == LastN(s + [e], n)
  {
  }

  // ---- steps of the subscriber

  /** Letting the head of what waits through, or dropping it as not new, stays on course. */
  lemma LetThrough(through: seq<Event>, e: Event, later: seq<Event>, r: Request, latest: int, expected: seq<Event>, sub: Sub)
    requires OnCourse(through, [e] + later, r, latest, expected) && SeenIsLast(through, sub.seen, r)
    ensures e.runtime == r.runtimeID && e.seq_.Some?
    ensures IsNew(sub, e) ==> OnCourse(through + [e], later, r, latest, expected)
    ensures !IsNew(sub, e) ==> OnCourse(through, later, r, latest, expected)
  {
    hide Kept;
    OrderedWithout(through, e, later, r.runtimeID, latest);
    if through != [] {
      assert through[|through| - 1] in through;
    }
    KeptConcat([e], later, r.afterSeq);
    KeptOne(e, r.afterSeq);
    assert through + [e] + later == through + ([e] + later);
    assert through + [e] + Kept(later, r.afterSeq) == through + ([e] + Kept(later, r.afterSeq));
  }

  lemma EventsConcat(a: seq<Item>, b: seq<Item>)
    ensures Events(a + b) == Events(a) + Events(b)
  {
  }

  lemma EventsOne(x: Item)
    ensures Events([x]) == [x.event]
  {
  }

  lemma PassedOn(sub: Sub, x: Item)
    requires sub.sender.Unlocked? && IsNew(sub, x.event)
    ensures Events(Passed(Admit(sub, x))) == Events(Passed(sub)) + [x.event]
  {
    assert Passed(Admit(sub, x)) == Passed(sub) + [x];
    EventsConcat(Passed(sub), [x]);
    EventsOne(x);
  }

  /** The sender gets the head of what waits, unless it is not new. */
  lemma AdmitKeeps(s: Sys, sub: Sub, x: Item, t: Sys)
    requires s.sub.Some? && Attached(s) && s.sub.value.sender.Unlocked?
    requires Passed(sub) == Passed(s.sub.value) && sub.sender.Unlocked? && sub.seen == s.sub.value.seen
    requires !sub.closed && sub.runtimeID == s.request.runtimeID
    requires t == s.(sub := Some(Admit(sub, x)), inflight := t.inflight)
    requires Later(s) == [x.event] + Later(t)
    ensures Matches(sub, x.event) && Attached(t)
  {
    LetThrough(Through(s), x.event, Later(t), s.request, s.latest, Expected(s), sub);
    if IsNew(sub, x.event) {
      PassedOn(sub, x);
    }
  }

  /** The same events are on their way in the same order. */
  lemma SameCourse(s: Sys, t: Sys)
    requires s.sub.Some? && t.sub.Some? && Attached(s)
    requires t == s.(sub := t.sub, inflight := t.inflight)
    requires Passed(t.sub.value) == Passed(s.sub.value) && Later(t) == Later(s)
    requires t.sub.value.seen == s.sub.value.seen
    requires t.sub.value.closed == s.sub.value.closed && t.sub.value.runtimeID == s.sub.value.runtimeID
    ensures Attached(t)
  {
  }

  lemma HeadOfLater(s: Sys, x: Item, rest: seq<Item>)
    requires s.sub.Some? && Waiting(s.sub.value) == [x] + rest
    ensures Later(s) == [x.event] + (Events(rest) + Optional(s.inflight))
  {
    EventsConcat([x], rest);
    EventsOne(x);
  }

  lemma ReplayKeeps(s: Sys)
    requires s.sub.Some? && Attached(s) && CanMove(s, Own(ReplayOne))
    ensures Attached(Moved(s, Own(ReplayOne)))
  {
    var sub := s.sub.value;
    var rest := sub.replay[1..] + sub.batch + sub.pending;
    assert Waiting(sub) == [sub.replay[0]] + rest;
    HeadOfLater(s, sub.replay[0], rest);
    var u := sub.(replay := sub.replay[1..]);
    AdmitKeeps(s, u, sub.replay[0], s.(sub := Some(Admit(u, sub.replay[0]))));
  }

  lemma FlushKeeps(s: Sys)
    requires s.sub.Some? && Attached(s) && CanMove(s, Own(FlushOne))
    ensures Attached(Moved(s, Own(FlushOne)))
  {
    var sub := s.sub.value;
    var rest := sub.batch[1..] + sub.pending;
    HeadOfBatch(sub.batch, sub.pending);
    HeadOfLater(s, sub.batch[0], rest);
    var u := sub.(batch := sub.batch[1..]);
    AdmitKeeps(s, u, sub.batch[0], s.(sub := Some(Admit(u, sub.batch[0]))));
  }

  lemma HeadOfBatch(batch: seq<Item>, pending: seq<Item>)
    requires batch != []
    ensures [] + batch + pending == [batch[0]] + (batch[1..] + pending)
    ensures [] + batch[1..] + pending == batch[1..] + pending
  {
  }

  lemma OwnKeeps(s: Sys, st: Step)
    requires s.sub.Some? && Attached(s) && CanMove(s, Own(st)) && (st.Evict? ==> s.sub.value.queue == [])
    ensures Attached(Moved(s, Own(st)))
  {
    if st.ReplayOne? {
      ReplayKeeps(s);
    } else if st.FlushOne? {
      FlushKeeps(s);
    } else {
      StaysInLine(s.sub.value, st);
      SameCourse(s, Moved(s, Own(st)));
    }
  }

  lemma StaysInLine(sub: Sub, st: Step)
    requires Enabled(sub, st) && !st.Offer? && !st.ReplayOne? && !st.FlushOne? && !st.Close?
    requires st.Evict? ==> sub.queue == []
    ensures var t := Apply(sub, st);
      Passed(t) == Passed(sub) && Waiting(t) == Waiting(sub) && t.seen == sub.seen && t.closed == sub.closed &&
      t.runtimeID == sub.runtimeID
  {
    if st.Write? {
      WritePasses(sub);
    } else {
      QueueMoves(sub, st);
    }
  }

  lemma HandOverKeeps(s: Sys)
    requires s.sub.Some? && Attached(s) && CanMove(s, HandOver) && (s.sub.value.ready ==> Waiting(s.sub.value) == [])
    requires s.sub.value.ready || |s.sub.value.pending| < CAPACITY
    ensures Attached(Moved(s, HandOver))
  {
    InflightMatches(s);
    if s.sub.value.ready {
      LiveKeeps(s);
    } else {
      PendingKeeps(s);
    }
  }

  lemma InflightMatches(s: Sys)
    requires s.sub.Some? && Attached(s) && s.inflight.Some?
    ensures Matches(s.sub.value, s.inflight.value)
  {
    var all := Through(s) + Later(s);
    assert all[|all| - 1] == s.inflight.value;
    assert s.inflight.value in all;
  }

  lemma LiveKeeps(s: Sys)
    requires s.sub.Some? && Attached(s) && CanMove(s, HandOver) && Matches(s.sub.value, s.inflight.value)
    requires s.sub.value.ready && Waiting(s.sub.value) == []
    ensures Attached(Moved(s, HandOver))
  {
    var sub, x := s.sub.value, Item(s.sub.value.nextId, s.inflight.value);
    var u := sub.(nextId := sub.nextId + 1);
    var t := s.(sub := Some(Admit(u, x)), inflight := None);
    assert Moved(s, HandOver) == t;
    EventsNone();
    assert Waiting(Admit(u, x)) == Waiting(sub);
    AdmitKeeps(s, u, x, t);
  }

  lemma EventsNone()
    ensures Events([]) == []
    ensures forall e: Event {:trigger Optional(Some(e))} :: [] + Optional(Some(e)) == [e] + ([] + Optional(None))
  {
  }

  lemma PendingKeeps(s: Sys)
    requires s.sub.Some? && Attached(s) && CanMove(s, HandOver) && Matches(s.sub.value, s.inflight.value)
    requires !s.sub.value.ready && |s.sub.value.pending| < CAPACITY
    ensures Attached(Moved(s, HandOver))
  {
    var sub, x := s.sub.value, Item(s.sub.value.nextId, s.inflight.value);
    var u := sub.(pending := sub.pending + [x], nextId := sub.nextId + 1);
    var t := s.(sub := Some(u), inflight := None);
    assert Moved(s, HandOver) == t;
    ArriveLast(sub.replay + sub.batch, sub.pending, x);
    SameCourse(s, t);
  }

  lemma ArriveLast(a: seq<Item>, b: seq<Item>, x: Item)
    ensures Events(a + (b + [x])) + Optional(None) == Events(a + b) + Optional(Some(x.event))
  {
    assert a + (b + [x]) == a + b + [x];
    EventsConcat(a + b, [x]);
    EventsOne(x);
  }

  lemma PublishKeeps(s: Sys, e: Event)
    requires s.sub.Some? && Attached(s) && CanMove(s, Publish(e)) && 0 <= s.latest && e.runtime == s.request.runtimeID
    ensures Attached(Moved(s, Publish(e)))
  {
    var t := Moved(s, Publish(e));
    ExpectedGrows(s, e);
    assert Later(t) == Later(s) + [e];
    CourseGrows(Through(s), Later(s), s.request, s.latest, Expected(s), e);
  }

  lemma ExpectedGrows(s: Sys, e: Event)
    requires s.sub.Some? && s.attachedAt <= |s.published| && CanMove(s, Publish(e))
    ensures Expected(Moved(s, Publish(e))) ==
      Expected(s) + if e.runtime == s.request.runtimeID then Kept([e], s.request.afterSeq) else []
  {
    hide Kept, OfRuntime, LastN;
    var t := Moved(s, Publish(e));
    assert t.published[..s.attachedAt] == s.published[..s.attachedAt];
    assert t.published[s.attachedAt..] == s.published[s.attachedAt..] + [e];
    OneMorePublished(s.published[s.attachedAt..], e, s.request.runtimeID);
    var mine := OfRuntime(s.published[s.attachedAt..], s.request.runtimeID);
    if e.runtime == s.request.runtimeID {
      KeptConcat(mine, [e], s.request.afterSeq);
    } else {
      assert mine + [] == mine && Expected(s) + [] == Expected(s);
    }
  }

  /** An event of another runtime changes nothing, neither when it is published nor when it is
      handed over. */
  lemma ForeignKeeps(s: Sys, e: Event)
    requires s.sub.Some? && Attached(s) && e.runtime != s.request.runtimeID && CanMove(s, Publish(e))
    ensures Attached(Moved(s, Publish(e)))
  {
    ExpectedGrows(s, e);
  }

  lemma CourseGrows(through: seq<Event>, later: seq<Event>, r: Request, latest: int, expected: seq<Event>, e: Event)
    requires OnCourse(through, later, r, latest, expected) && 0 <= latest
    requires e.runtime == r.runtimeID && e.seq_.Some? && latest < e.seq_.value
    ensures OnCourse(through, later + [e], r, e.seq_.value, expected + Kept([e], r.afterSeq))
  {
    OrderedAppend(through + later, e, r.runtimeID, latest);
    assert through + (later + [e]) == through + later + [e];
    KeptConcat(later, [e], r.afterSeq);
  }

  lemma AttachKeeps(s: Sys)
    requires Sound(s) && CanMove(s, Attach)
    ensures Attached(Moved(s, Attach)) && EventStream.Sound(Moved(s, Attach).sub.value)
  {
    var replay := Replay(s);
    ReplayOrdered(s);
    NewSubSound(s.request.runtimeID, s.request.afterSeq, replay);
    StartsEmpty(s);
    CourseAtFirst(replay, s.request, s.latest);
    ExpectedAtFirst(s);
  }

  lemma StartsEmpty(s: Sys)
    requires s.sub.None? && s.inflight.None?
    ensures Through(Moved(s, Attach)) == [] && Later(Moved(s, Attach)) == Replay(s)
  {
    NewSubEvents(s.request.runtimeID, s.request.afterSeq, Replay(s));
  }

  lemma NewSubEvents(runtimeID: string, afterSeq: int, replay: seq<Event>)
    ensures var sub := NewSub(runtimeID, afterSeq, replay);
      Events(Passed(sub)) == [] && Events(Waiting(sub)) + Optional(None) == replay
  {
    NewSubSound(runtimeID, afterSeq, replay);
    assert Events(Numbered(replay)) == replay;
  }

  lemma CourseAtFirst(replay: seq<Event>, r: Request, latest: int)
    requires Ordered(replay, r.runtimeID, latest) && forall e <- replay :: Above(e, r.afterSeq)
    ensures OnCourse([], replay, r, latest, replay)
  {
    KeptAll(replay, r.afterSeq);
    assert [] + replay == replay;
  }

  lemma ExpectedAtFirst(s: Sys)
    requires Sound(s) && s.sub.None?
    ensures Expected(Moved(s, Attach)) == Replay(s)
  {
    hide Kept, LastN;
    var t := Moved(s, Attach);
    assert OfRuntime([], s.request.runtimeID) == [] && Kept([], s.request.afterSeq) == [] by { NoEvents(s.request); }
    assert s.published[..|s.published|] == s.published && t.published[t.attachedAt..] == [];
  }

  lemma NoEvents(r: Request)
    ensures OfRuntime([], r.runtimeID) == [] && Kept([], r.afterSeq) == []
  {
  }

  lemma NewSubSound(runtimeID: string, afterSeq: int, replay: seq<Event>)
    ensures var sub := NewSub(runtimeID, afterSeq, replay);
      EventStream.Sound(sub) && Passed(sub) == [] && Waiting(sub) == Numbered(replay)
  {
    var sub := NewSub(runtimeID, afterSeq, replay);
    assert Passed(sub) == [] && Waiting(sub) == Numbered(replay);
    assert Passed(sub) + Waiting(sub) == Numbered(replay);
  }

  lemma ReplayOrdered(s: Sys)
    requires Sound(s)
    ensures Ordered(Replay(s), s.request.runtimeID, s.latest)
    ensures forall e <- Replay(s) :: Above(e, s.request.afterSeq)
  {
    var r, n := s.request, |Published(s)|;
    OrderedDrop(Published(s), r.runtimeID, s.latest, if n <= HISTORY then 0 else n - HISTORY);
    assert n <= HISTORY ==> Published(s)[0..] == Published(s);
    OrderedKept(s.history, r.runtimeID, s.latest, r.afterSeq);
    var kept := Kept(s.history, r.afterSeq);
    OrderedDrop(kept, r.runtimeID, s.latest, if |kept| <= r.limit then 0 else |kept| - r.limit);
    assert |kept| <= r.limit ==> kept[0..] == kept;
  }

  /** A step after which nothing was evicted did not find its buffer full. */
  lemma OverflowEvicts(sub: Sub, st: Step)
    requires Enabled(sub, st) && Apply(sub, st).evicted == []
    ensures sub.evicted == []
    ensures st.Evict? ==> sub.queue == []
    ensures st.Offer? && !sub.closed && Matches(sub, st.event) && !sub.ready ==> |sub.pending| < CAPACITY
  {
  }

  lemma OwnPublishSound(s: Sys, e: Event)
    requires Sound(s) && CanMove(s, Publish(e)) && e.runtime == s.request.runtimeID
    ensures Sound(Moved(s, Publish(e)))
  {
    hide Attached, OfRuntime, LastN, Ordered, EventStream.Sound;
    OneMorePublished(s.published, e, s.request.runtimeID);
    LastNAppend(Published(s), e, HISTORY);
    OrderedAppend(Published(s), e, s.request.runtimeID, s.latest);
    if s.sub.Some? && s.sub.value.evicted == [] {
      PublishKeeps(s, e);
    }
  }

  lemma ForeignPublishSound(s: Sys, e: Event)
    requires Sound(s) && CanMove(s, Publish(e)) && e.runtime != s.request.runtimeID
    ensures Sound(Moved(s, Publish(e)))
  {
    hide Attached, OfRuntime, LastN, Ordered, EventStream.Sound;
    OneMorePublished(s.published, e, s.request.runtimeID);
    assert Published(s) + [] == Published(s);
    if s.sub.Some? && s.sub.value.evicted == [] {
      ForeignKeeps(s, e);
    }
  }

  lemma HandOverSound(s: Sys)
    requires Sound(s) && CanMove(s, HandOver)
    ensures Sound(Moved(s, HandOver))
  {
    var t := Moved(s, HandOver);
    OfferSound(s.sub.value, s.inflight.value);
    if t.sub.value.evicted == [] {
      OverflowEvicts(s.sub.value, Offer(s.inflight.value));
      InflightMatches(s);
      assert s.sub.value.ready ==> Waiting(s.sub.value) == [];
      hide Attached, OfRuntime, LastN, Ordered, EventStream.Sound, Offered;
      HandOverKeeps(s);
    } else {
      hide Attached, OfRuntime, LastN, Ordered, EventStream.Sound, Offered;
    }
  }

  /** An event of another runtime that is handed over is ignored. */
  lemma ForeignIgnored(sub: Sub, e: Event)
    requires sub.runtimeID != "" && e.runtime != sub.runtimeID
    ensures Offered(sub, e) == sub
  {
  }

  lemma ForeignHandOverSound(s: Sys, k: nat)
    requires Sound(s) && CanMove(s, HandOverForeign(k))
    ensures Sound(Moved(s, HandOverForeign(k)))
  {
    hide EventStream.Sound, Offered, OnCourse, SeenIsLast, Kept, LastN, OfRuntime, Ordered;
    ForeignIgnored(s.sub.value, s.foreign[k]);
  }

  lemma RuntimeStays(sub: Sub, st: Step)
    requires Enabled(sub, st)
    ensures Apply(sub, st).runtimeID == sub.runtimeID
  {
  }

  lemma OwnSound(s: Sys, st: Step)
    requires Sound(s) && CanMove(s, Own(st))
    ensures Sound(Moved(s, Own(st)))
  {
    hide Attached, OfRuntime, LastN, Ordered, EventStream.Sound, Apply;
    EventStream.SoundStep(s.sub.value, st);
    RuntimeStays(s.sub.value, st);
    if Moved(s, Own(st)).sub.value.evicted == [] {
      OverflowEvicts(s.sub.value, st);
      OwnKeeps(s, st);
    }
  }

  lemma SoundStep(s: Sys, m: Move)
    requires Sound(s) && CanMove(s, m)
    ensures Sound(Moved(s, m))
  {
    match m
    case Publish(e) =>
      if e.runtime == s.request.runtimeID {
        OwnPublishSound(s, e);
      } else {
        ForeignPublishSound(s, e);
      }
    case HandOver => HandOverSound(s);
    case HandOverForeign(k) => ForeignHandOverSound(s, k);
    case Attach => AttachKeeps(s);
    case Own(st) => OwnSound(s, st);
  }

  lemma {:induction false} RunSound(trace: seq<Sys>, moves: seq<Move>, n: nat)
    requires IsRun(trace, moves) && n < |trace|
    ensures Sound(trace[n])
    decreases n
  {
    if n > 0 {
      RunSound(trace, moves, n - 1);
      SoundStep(trace[n - 1], moves[n - 1]);
    }
  }

  /** What waits behind the writer: taken, queued, in a sender's hands, or not let through yet. */
  function Behind(s: Sys): seq<Event>
    requires s.sub.Some?
  {
    var sub := s.sub.value;
    Events(Optional(sub.hand) + sub.queue + InSender(sub)) + Later(s)
  }

  /** Exactly once and in order: as long as nothing overflowed, what was written and then
      what waits behind the writer and is above the cursor is what the subscription is to
      deliver, however publishing interleaved with registration, replay and flush. */
  lemma ExactlyOnce(trace: seq<Sys>, moves: seq<Move>, n: nat)
    requires IsRun(trace, moves) && n < |trace|
    requires trace[n].sub.Some? && trace[n].sub.value.evicted == []
    ensures trace[n].attachedAt <= |trace[n].published|
    ensures Events(ItemsOf(trace[n].sub.value.out)) + Kept(Behind(trace[n]), trace[n].request.afterSeq) == Expected(trace[n])
  {
    RunSound(trace, moves, n);
    WrittenFirst(trace[n]);
  }

  lemma WrittenFirst(s: Sys)
    requires s.sub.Some? && Attached(s)
    ensures Events(ItemsOf(s.sub.value.out)) + Kept(Behind(s), s.request.afterSeq) == Expected(s)
  {
    var sub, after := s.sub.value, s.request.afterSeq;
    var out, mid := ItemsOf(sub.out), Optional(sub.hand) + sub.queue + InSender(sub);
    assert Passed(sub) == out + mid;
    EventsConcat(out, mid);
    KeptBehind(Events(out), Events(mid), Later(s), after);
  }

  lemma KeptBehind(out: seq<Event>, mid: seq<Event>, later: seq<Event>, afterSeq: int)
    requires forall e <- out + mid :: Above(e, afterSeq)
    ensures out + Kept(mid + later, afterSeq) == out + mid + Kept(later, afterSeq)
  {
    KeptConcat(mid, later, afterSeq);
    assert forall e <- mid :: e in out + mid;
    KeptAll(mid, afterSeq);
  }

  /** Once nothing waits behind the writer, everything was written. */
  lemma DrainedMeansDelivered(trace: seq<Sys>, moves: seq<Move>, n: nat)
    requires IsRun(trace, moves) && n < |trace|
    requires trace[n].sub.Some? && trace[n].sub.value.evicted == [] && Behind(trace[n]) == []
    ensures trace[n].attachedAt <= |trace[n].published|
    ensures Events(ItemsOf(trace[n].sub.value.out)) == Expected(trace[n])
  {
    ExactlyOnce(trace, moves, n);
  }

  lemma {:induction false} KeptIs(events: seq<Event>, afterSeq: int, e: Event)
    ensures e in Kept(events, afterSeq) <==> e in events && Number(e) > afterSeq
    decreases |events|
  {
    if events != [] {
      KeptIs(events[..|events| - 1], afterSeq, e);
      assert events == events[..|events| - 1] + [events[|events| - 1]];
    }
  }

  lemma {:induction false} OfRuntimeIs(events: seq<Event>, runtime: string, e: Event)
    ensures e in OfRuntime(events, runtime) <==> e in events && e.runtime == runtime
    decreases |events|
  {
    if events != [] {
      OfRuntimeIs(events[..|events| - 1], runtime, e);
      assert events == events[..|events| - 1] + [events[|events| - 1]];
    }
  }

  /** The client gets only what was published for its runtime above its cursor. */
  lemma OnlyItsEvents(trace: seq<Sys>, moves: seq<Move>, n: nat, e: Event)
    requires IsRun(trace, moves) && n < |trace| && trace[n].sub.Some? && trace[n].sub.value.evicted == []
    requires e in Events(ItemsOf(trace[n].sub.value.out))
    ensures e in trace[n].published && e.runtime == trace[n].request.runtimeID && Number(e) > trace[n].request.afterSeq
  {
    hide IsRun, Kept, OfRuntime;
    ExactlyOnce(trace, moves, n);
    var s := trace[n];
    var r := s.request;
    assert e in Expected(s);
    var before, later := OfRuntime(s.published[..s.attachedAt], r.runtimeID), OfRuntime(s.published[s.attachedAt..], r.runtimeID);
    KeptIs(later, r.afterSeq, e);
    KeptIs(LastN(before, HISTORY), r.afterSeq, e);
    OfRuntimeIs(s.published[s.attachedAt..], r.runtimeID, e);
    OfRuntimeIs(s.published[..s.attachedAt], r.runtimeID, e);
  }

  /** And all of what was published for it, above its cursor, since it attached was written or
      is on its way, whatever other runtimes published in between. */
  lemma AllItsEvents(trace: seq<Sys>, moves: seq<Move>, n: nat, k: nat)
    requires IsRun(trace, moves) && n < |trace| && trace[n].sub.Some? && trace[n].sub.value.evicted == []
    requires trace[n].attachedAt <= k < |trace[n].published|
    requires trace[n].published[k].runtime == trace[n].request.runtimeID && Number(trace[n].published[k]) > trace[n].request.afterSeq
    ensures trace[n].published[k] in Events(ItemsOf(trace[n].sub.value.out)) || trace[n].published[k] in Behind(trace[n])
  {
    hide IsRun, Kept, OfRuntime, Behind;
    ExactlyOnce(trace, moves, n);
    var s, e := trace[n], trace[n].published[k];
    var later := s.published[s.attachedAt..];
    assert e == later[k - s.attachedAt];
    OfRuntimeIs(later, s.request.runtimeID, e);
    KeptIs(OfRuntime(later, s.request.runtimeID), s.request.afterSeq, e);
    KeptIs(Behind(s), s.request.afterSeq, e);
    assert e in Expected(s);
  }
}
