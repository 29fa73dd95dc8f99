/** One subscriber of the control server's event stream
    (`subscriber` in `internal/control/server.go`): replay of the history, a buffer for
    events that arrive before the replay is queued, a bounded queue that drops its oldest
    event, and a writer that reports how many events were dropped.

    A step is one critical section under the subscriber's lock, one channel operation of
    a sender that holds the lock, or one action of the writer, which takes events off the
    queue without the lock. */
module EventStream {
  import opened Common

  /** `subscriberBuffer`: the capacity of the queue and of the pending buffer. */
  const CAPACITY: nat := 256

  /** `eventHistoryLimit`: how many events a runtime's history retains. */
  const HISTORY: nat := 256

  datatype Event = Event(runtime: string, seq_: Option<int>, body: string)

  /** An event in line.  Replayed events are numbered first, then live ones as they arrive. */
  datatype Item = Item(id: nat, event: Event)

  /** What the subscriber's connection gets: a lag notice or an event. */
  datatype Output = Lag(count: nat) | Wrote(item: Item)

  /** How far a sender that holds the lock has got with an item. */
  datatype Sender = Unlocked | Trying(item: Item) | Evicting(item: Item) | Sending(item: Item)

  /** `replay` and `batch` are what is left to queue of the history and of a batch taken
      from `pending`; `hand` is the event the writer took last; `evicted` and `out` are
      history. */
  datatype Sub = Sub(
    runtimeID: string,
    queue: seq<Item>,
    pending: seq<Item>,
    dropped: nat,
    seen: map<string, int>,
    ready: bool,
    closed: bool,
    sender: Sender,
    hand: Option<Item>,
    replay: seq<Item>,
    batch: seq<Item>,
    nextId: nat,
    evicted: seq<Item>,
    out: seq<Output>
  )

  /** A new subscriber; a positive cursor counts as seen. */
  function NewSub(runtimeID: string, afterSeq: int, replay: seq<Event>): Sub {
    Sub(runtimeID, [], [], 0, if runtimeID != "" && afterSeq > 0 then map[runtimeID := afterSeq] else map[],
        false, false, Unlocked, None, Numbered(replay), [], |replay|, [], [])
  }

  function Numbered(events: seq<Event>): (items: seq<Item>)
    ensures |items| == |events| && forall i | 0 <= i < |events| :: items[i] == Item(i, events[i])
  {
    seq(|events|, i requires 0 <= i < |events| => Item(i, events[i]))
  }

  predicate Matches(s: Sub, e: Event) {
    s.runtimeID == "" || e.runtime == s.runtimeID
  }

  predicate IsNew(s: Sub, e: Event) {
    e.seq_.None? || e.runtime !in s.seen || s.seen[e.runtime] < e.seq_.value
  }

  /** Notes the event's number and hands the event to the sender, unless it is not new. */
  function Admit(s: Sub, x: Item): Sub {
    if !IsNew(s, x.event) then s
    else s.(seen := if x.event.seq_.None? then s.seen else s.seen[x.event.runtime := x.event.seq_.value],
            sender := Trying(x))
  }

  datatype Step =
    | Offer(event: Event)
    | ReplayOne
    | TakeBatch
    | FlushOne
    | Try
    | Evict
    | Send
    | Receive
    | Write
    | Close

  predicate Enabled(s: Sub, st: Step) {
    match st
    case Offer(_) => s.sender.Unlocked?
    case ReplayOne => s.sender.Unlocked? && s.replay != []
    case TakeBatch => s.sender.Unlocked? && s.replay == [] && s.batch == [] && !s.ready
    case FlushOne => s.sender.Unlocked? && s.replay == [] && s.batch != []
    case Try => s.sender.Trying?
    case Evict => s.sender.Evicting?
    case Send => s.sender.Sending? && |s.queue| < CAPACITY
    case Receive => s.hand.None? && s.queue != []
    case Write => s.hand.Some? && s.sender.Unlocked?
    case Close => s.sender.Unlocked?
  }

  /** An event reaches the subscriber: it waits in `pending` until the replay is queued. */
  function Offered(s: Sub, e: Event): Sub {
    var x := Item(s.nextId, e);
    if s.closed || !Matches(s, e) then s
    else if s.ready then Admit(s.(nextId := s.nextId + 1), x)
    else if |s.pending| >= CAPACITY then
      s.(pending := s.pending[1..] + [x], dropped := s.dropped + 1, evicted := s.evicted + [s.pending[0]],
         nextId := s.nextId + 1)
    else s.(pending := s.pending + [x], nextId := s.nextId + 1)
  }

  function Replayed(s: Sub): Sub
    requires s.replay != []
  {
    var t := s.(replay := s.replay[1..]);
    if s.closed || !Matches(s, s.replay[0].event) then t else Admit(t, s.replay[0])
  }

  function Flushed(s: Sub): Sub
    requires s.batch != []
  {
    if s.closed then s.(batch := []) else Admit(s.(batch := s.batch[1..]), s.batch[0])
  }

  function Apply(s: Sub, st: Step): Sub
    requires Enabled(s, st)
  {
    match st
    case Offer(e) => Offered(s, e)
    case ReplayOne => Replayed(s)
    case TakeBatch =>
      if s.closed then s
      else if s.pending == [] then s.(ready := true)
      else s.(batch := s.pending, pending := [])
    case FlushOne => Flushed(s)
    case Try =>
      if |s.queue| < CAPACITY then s.(queue := s.queue + [s.sender.item], sender := Unlocked)
      else s.(sender := Evicting(s.sender.item))
    case Evict =>
      if s.queue == [] then s.(sender := Sending(s.sender.item))
      else s.(queue := s.queue[1..], dropped := s.dropped + 1, evicted := s.evicted + [s.queue[0]],
              sender := Sending(s.sender.item))
    case Send => s.(queue := s.queue + [s.sender.item], sender := Unlocked)
    case Receive => s.(hand := Some(s.queue[0]), queue := s.queue[1..])
    case Write => Written(s)
    case Close => s.(closed := true)
  }

  /** The writer reports what was dropped so far, then writes its event. */
  function Written(s: Sub): Sub
    requires s.hand.Some?
  {
    s.(out := OutputAfter(s.out, s.dropped, s.hand.value), dropped := 0, hand := None)
  }

  function OutputAfter(out: seq<Output>, dropped: nat, x: Item): seq<Output> {
    out + (if dropped > 0 then [Lag(dropped)] else []) + [Wrote(x)]
  }

  ghost predicate IsRun(trace: seq<Sub>, steps: seq<Step>) {
    && |trace| == |steps| + 1
    && (exists runtimeID, afterSeq, replay :: trace[0] == NewSub(runtimeID, afterSeq, replay))
    && (forall n | 0 <= n < |steps| :: Enabled(trace[n], steps[n]) && trace[n + 1] == Apply(trace[n], steps[n]))
  }

  // ---- views of a subscriber

  function LagSum(out: seq<Output>): nat {
    if out == [] then 0
    else LagSum(out[..|out| - 1]) + (match out[|out| - 1] case Lag(n) => n case Wrote(_) => 0)
  }

  function ItemsOf(out: seq<Output>): seq<Item> {
    if out == [] then []
    else ItemsOf(out[..|out| - 1]) + (match out[|out| - 1] case Lag(_) => [] case Wrote(x) => [x])
  }

  function InSender(s: Sub): seq<Item> {
    if s.sender.Unlocked? then [] else [s.sender.item]
  }

  /** What was let through: written, taken by the writer, queued, or being queued. */
  function Passed(s: Sub): seq<Item> {
    ItemsOf(s.out) + Optional(s.hand) + s.queue + InSender(s)
  }

  /** What still waits to be let through. */
  function Waiting(s: Sub): seq<Item> {
    s.replay + s.batch + s.pending
  }

  ghost predicate Sorted(items: seq<Item>) {
    forall i, j | 0 <= i < j < |items| :: items[i].id < items[j].id
  }

  /** Items are in line in the order of their numbers. */
  ghost predicate InLine(items: seq<Item>, nextId: nat) {
    Sorted(items) && forall x <- items :: x.id < nextId
  }

  predicate SameRuntime(a: Event, b: Event) {
    a.runtime == b.runtime && a.seq_.Some? && b.seq_.Some?
  }

  /** Event numbers grow, runtime by runtime. */
  ghost predicate SeqsGrow(items: seq<Item>) {
    forall i, j | 0 <= i < j < |items| && SameRuntime(items[i].event, items[j].event) ::
      items[i].event.seq_.value < items[j].event.seq_.value
  }

  /** Event numbers grow, and `seen` is at least the last one of each runtime. */
  ghost predicate Ascending(items: seq<Item>, seen: map<string, int>) {
    && SeqsGrow(items)
    && forall x <- items | x.event.seq_.Some? ::
         x.event.runtime in seen && x.event.seq_.value <= seen[x.event.runtime]
  }

  /** The number of evicted items that were ahead of item `id`. */
  function Older(evicted: seq<Item>, id: nat): nat {
    if evicted == [] then 0
    else Older(evicted[..|evicted| - 1], id) + (if evicted[|evicted| - 1].id < id then 1 else 0)
  }

  ghost predicate LagCovers(out: seq<Output>, evicted: seq<Item>) {
    forall p | 0 <= p < |out| && out[p].Wrote? :: Older(evicted, out[p].item.id) <= LagSum(out[..p])
  }

  /** Every eviction is reported or about to be, and each in time. */
  ghost predicate Accounted(out: seq<Output>, evicted: seq<Item>, dropped: nat) {
    LagSum(out) + dropped == |evicted| && LagCovers(out, evicted)
  }

  ghost predicate Room(s: Sub) {
    |s.queue| <= CAPACITY && (s.sender.Sending? ==> |s.queue| < CAPACITY) && (s.ready ==> Waiting(s) == [])
  }

  ghost predicate Sound(s: Sub) {
    && InLine(Passed(s) + Waiting(s), s.nextId)
    && Ascending(Passed(s), s.seen)
    && Accounted(s.out, s.evicted, s.dropped)
    && Room(s)
  }

  // ---- facts about lines of items

  lemma InLineWithout(a: seq<Item>, x: Item, b: seq<Item>, nextId: nat)
    requires InLine(a + [x] + b, nextId)
    ensures InLine(a + b, nextId)
    ensures forall y <- a :: y.id < x.id
  {
    var c, d := a + [x] + b, a + b;
    assert c[|a|] == x;
    forall i, j | 0 <= i < j < |d| ensures d[i].id < d[j].id {
      var i', j' := if i < |a| then i else i + 1, if j < |a| then j else j + 1;
      assert d[i] == c[i'] && d[j] == c[j'];
    }
    forall y <- a ensures y.id < x.id {
      var i :| 0 <= i < |a| && a[i] == y;
      assert c[i] == y;
    }
    assert forall y <- d :: y in c;
  }

  lemma InLineAppend(a: seq<Item>, x: Item)
    requires InLine(a, x.id)
    ensures InLine(a + [x], x.id + 1)
  {
  }

  lemma AscendingWithout(a: seq<Item>, x: Item, b: seq<Item>, seen: map<string, int>)
    requires Ascending(a + [x] + b, seen)
    ensures Ascending(a + b, seen)
  {
    var c, d := a + [x] + b, a + b;
    forall i, j | 0 <= i < j < |d| && SameRuntime(d[i].event, d[j].event)
      ensures d[i].event.seq_.value < d[j].event.seq_.value
    {
      var i', j' := if i < |a| then i else i + 1, if j < |a| then j else j + 1;
      assert d[i] == c[i'] && d[j] == c[j'];
    }
    assert forall y <- d :: y in c;
  }

  lemma AscendingAppend(s: Sub, items: seq<Item>, x: Item)
    requires Ascending(items, s.seen) && IsNew(s, x.event)
    ensures Ascending(items + [x], Admit(s, x).seen)
  {
    var d := items + [x];
    forall i, j | 0 <= i < j < |d| && SameRuntime(d[i].event, d[j].event)
      ensures d[i].event.seq_.value < d[j].event.seq_.value
    {
      assert d[i] in items;
    }
  }

  lemma OlderGrows(evicted: seq<Item>, x: Item, id: nat)
    ensures Older(evicted + [x], id) == Older(evicted, id) + if x.id < id then 1 else 0
  {
    assert (evicted + [x])[..|evicted|] == evicted;
  }

  lemma OlderAtMostAll(evicted: seq<Item>, id: nat)
    ensures Older(evicted, id) <= |evicted|
  {
  }

  lemma OutGrows(out: seq<Output>, o: Output)
    ensures LagSum(out + [o]) == LagSum(out) + (match o case Lag(n) => n case Wrote(_) => 0)
    ensures ItemsOf(out + [o]) == ItemsOf(out) + (match o case Lag(_) => [] case Wrote(x) => [x])
  {
    assert (out + [o])[..|out|] == out;
  }

  lemma {:induction false} WroteIsItem(out: seq<Output>, p: nat)
    requires p < |out| && out[p].Wrote?
    ensures out[p].item in ItemsOf(out)
  {
    if p < |out| - 1 {
      WroteIsItem(out[..|out| - 1], p);
    }
  }

  /** Evicting an item that is behind everything written keeps the lag notices sufficient. */
  lemma EvictAccounted(out: seq<Output>, evicted: seq<Item>, dropped: nat, x: Item)
    requires Accounted(out, evicted, dropped)
    requires forall y <- ItemsOf(out) :: y.id < x.id
    ensures Accounted(out, evicted + [x], dropped + 1)
  {
    forall p | 0 <= p < |out| && out[p].Wrote?
      ensures Older(evicted + [x], out[p].item.id) <= LagSum(out[..p])
    {
      WroteIsItem(out, p);
      OlderGrows(evicted, x, out[p].item.id);
    }
  }

  lemma WriteAccounted(out: seq<Output>, evicted: seq<Item>, dropped: nat, x: Item)
    requires Accounted(out, evicted, dropped)
    ensures Accounted(OutputAfter(out, dropped, x), evicted, 0)
    ensures ItemsOf(OutputAfter(out, dropped, x)) == ItemsOf(out) + [x]
  {
    var mid := out + if dropped > 0 then [Lag(dropped)] else [];
    if dropped > 0 {
      OutGrows(out, Lag(dropped));
    } else {
      assert mid == out;
    }
    var out' := mid + [Wrote(x)];
    OutGrows(mid, Wrote(x));
    forall p | 0 <= p < |out'| && out'[p].Wrote? ensures Older(evicted, out'[p].item.id) <= LagSum(out'[..p]) {
      if p < |out| {
        assert out'[..p] == out[..p];
      } else {
        assert out'[..p] == mid;
        OlderAtMostAll(evicted, x.id);
      }
    }
  }

  // ---- every step keeps the invariant

  /** The head of what waits is let through or dropped as not new. */
  lemma AdmitSound(s: Sub, t: Sub, x: Item, rest: seq<Item>)
    requires Sound(s) && s.sender.Unlocked? && !s.ready
    requires Waiting(s) == [x] + rest && Waiting(t) == rest
    requires t == s.(replay := t.replay, batch := t.batch)
    ensures Sound(Admit(t, x)) && Sound(t)
  {
    var u := Admit(t, x);
    assert Passed(s) + Waiting(s) == Passed(s) + [x] + rest;
    InLineWithout(Passed(s), x, rest, s.nextId);
    assert Passed(t) == Passed(s) && Waiting(u) == rest;
    if IsNew(t, x.event) {
      AscendingAppend(t, Passed(s), x);
      assert Passed(u) == Passed(s) + [x];
    } else {
      assert u == t;
    }
  }

  lemma LiveSound(s: Sub, e: Event)
    requires Sound(s) && s.sender.Unlocked? && !s.closed && Matches(s, e) && s.ready
    ensures Sound(Offered(s, e))
  {
    var x := Item(s.nextId, e);
    var t := Offered(s, e);
    assert Passed(s) + Waiting(s) == Passed(s) && Waiting(t) == [];
    if IsNew(s, e) {
      InLineAppend(Passed(s), x);
      AscendingAppend(s.(nextId := s.nextId + 1), Passed(s), x);
      assert Passed(t) == Passed(s) + [x];
      assert Passed(t) + Waiting(t) == Passed(t);
    } else {
      assert Passed(t) == Passed(s);
    }
  }

  /** The line after an arrival, which may cost the oldest pending item its place. */
  lemma InLineArrive(a: seq<Item>, b: seq<Item>, pending: seq<Item>, x: Item)
    requires InLine(a + (b + pending), x.id)
    ensures InLine(a + (b + (pending + [x])), x.id + 1)
    ensures pending != [] ==> InLine(a + (b + (pending[1..] + [x])), x.id + 1) && forall y <- a :: y.id < pending[0].id
  {
    InLineAppend(a + (b + pending), x);
    assert a + (b + (pending + [x])) == a + (b + pending) + [x];
    if pending != [] {
      assert a + (b + pending) == (a + b) + [pending[0]] + pending[1..];
      InLineWithout(a + b, pending[0], pending[1..], x.id);
      InLineAppend(a + b + pending[1..], x);
      assert a + (b + (pending[1..] + [x])) == a + b + pending[1..] + [x];
    }
  }

  lemma PendingSound(s: Sub, e: Event)
    requires Sound(s) && s.sender.Unlocked? && !s.closed && Matches(s, e) && !s.ready
    ensures Sound(Offered(s, e))
  {
    var t := Offered(s, e);
    assert Passed(t) == Passed(s);
    InLineArrive(Passed(s), s.replay + s.batch, s.pending, Item(s.nextId, e));
    if |s.pending| >= CAPACITY {
      assert forall z <- ItemsOf(s.out) :: z in Passed(s);
      EvictAccounted(s.out, s.evicted, s.dropped, s.pending[0]);
    }
  }

  lemma QueueEvictSound(s: Sub)
    requires Sound(s) && s.sender.Evicting? && s.queue != []
    ensures Sound(Apply(s, Evict))
  {
    var t := Apply(s, Evict);
    var front := ItemsOf(s.out) + Optional(s.hand);
    var back := s.queue[1..] + InSender(s);
    assert Passed(s) == front + [s.queue[0]] + back && Passed(t) == front + back;
    assert Passed(s) + Waiting(s) == front + [s.queue[0]] + (back + Waiting(s));
    InLineWithout(front, s.queue[0], back + Waiting(s), s.nextId);
    assert Passed(t) + Waiting(t) == front + (back + Waiting(s));
    AscendingWithout(front, s.queue[0], back, s.seen);
    assert forall z <- ItemsOf(s.out) :: z in front;
    EvictAccounted(s.out, s.evicted, s.dropped, s.queue[0]);
  }

  lemma BatchDropped(s: Sub)
    requires Sound(s) && s.replay == []
    ensures Sound(s.(batch := []))
  {
    var t := s.(batch := []);
    assert Waiting(t) == s.pending;
    assert Passed(s) + Waiting(s) == Passed(s) + s.batch + s.pending;
    InLineSkip(Passed(s), s.batch, s.pending, s.nextId);
    assert Passed(t) == Passed(s);
  }

  lemma {:induction false} InLineSkip(a: seq<Item>, b: seq<Item>, c: seq<Item>, nextId: nat)
    requires InLine(a + b + c, nextId)
    ensures InLine(a + c, nextId)
  {
    if b == [] {
      assert a + b + c == a + c;
    } else {
      assert a + b + c == a + [b[0]] + (b[1..] + c);
      InLineWithout(a, b[0], b[1..] + c, nextId);
      assert a + (b[1..] + c) == a + b[1..] + c;
      InLineSkip(a, b[1..], c, nextId);
    }
  }

  lemma OfferSound(s: Sub, e: Event)
    requires Sound(s) && s.sender.Unlocked?
    ensures Sound(Offered(s, e))
  {
    if !s.closed && Matches(s, e) {
      if s.ready {
        LiveSound(s, e);
      } else {
        PendingSound(s, e);
      }
    }
  }

  lemma ReplaySound(s: Sub)
    requires Sound(s) && Enabled(s, ReplayOne)
    ensures Sound(Replayed(s))
  {
    var rest := s.replay[1..] + s.batch + s.pending;
    assert Waiting(s) == [s.replay[0]] + rest;
    AdmitSound(s, s.(replay := s.replay[1..]), s.replay[0], rest);
  }

  lemma FlushSound(s: Sub)
    requires Sound(s) && Enabled(s, FlushOne)
    ensures Sound(Flushed(s))
  {
    if s.closed {
      BatchDropped(s);
    } else {
      assert Waiting(s) == [s.batch[0]] + (s.batch[1..] + s.pending);
      AdmitSound(s, s.(batch := s.batch[1..]), s.batch[0], s.batch[1..] + s.pending);
    }
  }

  lemma WriteSound(s: Sub)
    requires Sound(s) && Enabled(s, Write)
    ensures Sound(Written(s)) && Passed(Written(s)) == Passed(s)
  {
    WriteAccounted(s.out, s.evicted, s.dropped, s.hand.value);
    WritePasses(s);
  }

  lemma WritePasses(s: Sub)
    requires s.hand.Some?
    ensures Passed(Written(s)) == Passed(s)
  {
    var t, x := Written(s), s.hand.value;
    if s.dropped > 0 {
      OutGrows(s.out, Lag(s.dropped));
      OutGrows(s.out + [Lag(s.dropped)], Wrote(x));
    } else {
      assert s.out + [] == s.out;
      OutGrows(s.out, Wrote(x));
    }
    var rest := s.queue + InSender(s);
    assert Passed(s) == ItemsOf(s.out) + [x] + rest;
    assert Passed(t) == ItemsOf(t.out) + rest;
  }

  /** An item moves on without overtaking any other. */
  lemma MovedSound(s: Sub, t: Sub)
    requires Sound(s) && Room(t)
    requires Passed(t) == Passed(s) && Waiting(t) == Waiting(s)
    requires t.nextId == s.nextId && t.seen == s.seen
    requires t.out == s.out && t.evicted == s.evicted && t.dropped == s.dropped
    ensures Sound(t)
  {
  }

  lemma QueueMoves(s: Sub, st: Step)
    requires Enabled(s, st) && (st.Try? || st.Send? || st.Receive? || st.TakeBatch? || st.Close? || (st.Evict? && s.queue == []))
    ensures Passed(Apply(s, st)) == Passed(s) && Waiting(Apply(s, st)) == Waiting(s)
  {
    var t := Apply(s, st);
    if st.Receive? {
      assert s.queue == [s.queue[0]] + t.queue;
    } else if st.TakeBatch? {
      assert [] + [] + s.pending == [] + s.pending + [];
    }
  }

  lemma SoundStep(s: Sub, st: Step)
    requires Sound(s) && Enabled(s, st)
    ensures Sound(Apply(s, st))
  {
    match st
    case Offer(e) => OfferSound(s, e);
    case ReplayOne => ReplaySound(s);
    case FlushOne => FlushSound(s);
    case Write => WriteSound(s);
    case _ =>
      if st.Evict? && s.queue != [] {
        QueueEvictSound(s);
      } else {
        QueueMoves(s, st);
        MovedSound(s, Apply(s, st));
      }
  }

  // ---- theorems about every interleaving

  lemma {:induction false} RunSound(trace: seq<Sub>, steps: seq<Step>, n: nat)
    requires IsRun(trace, steps) && n < |trace|
    ensures Sound(trace[n])
    decreases n
  {
    if n == 0 {
      var runtimeID, afterSeq, replay :| trace[0] == NewSub(runtimeID, afterSeq, replay);
      assert Passed(trace[0]) == [] && Waiting(trace[0]) == Numbered(replay);
    } else {
      RunSound(trace, steps, n - 1);
      SoundStep(trace[n - 1], steps[n - 1]);
    }
  }

  /** The events written for a runtime have strictly increasing numbers. */
  lemma OutputAscends(trace: seq<Sub>, steps: seq<Step>, n: nat)
    requires IsRun(trace, steps) && n < |trace|
    ensures SeqsGrow(ItemsOf(trace[n].out))
  {
    RunSound(trace, steps, n);
    var items := ItemsOf(trace[n].out);
    assert Passed(trace[n])[..|items|] == items;
  }

  /** Evictions are exactly the reported lag and the count not yet reported. */
  lemma EvictionsReported(trace: seq<Sub>, steps: seq<Step>, n: nat)
    requires IsRun(trace, steps) && n < |trace|
    ensures |trace[n].evicted| == LagSum(trace[n].out) + trace[n].dropped
  {
    RunSound(trace, steps, n);
  }

  /** Whatever is evicted later, the lag notices before a written event cover every
      evicted event that was ahead of it. */
  lemma LagBeforeEvent(trace: seq<Sub>, steps: seq<Step>, n: nat, p: nat)
    requires IsRun(trace, steps) && n < |trace| && p < |trace[n].out| && trace[n].out[p].Wrote?
    ensures Older(trace[n].evicted, trace[n].out[p].item.id) <= LagSum(trace[n].out[..p])
  {
    RunSound(trace, steps, n);
  }

  /** A sender that holds the lock always finds room: its last send never blocks, whatever
      the writer took in between. */
  lemma SendNeverBlocks(trace: seq<Sub>, steps: seq<Step>, n: nat)
    requires IsRun(trace, steps) && n < |trace| && !trace[n].sender.Unlocked?
    ensures Enabled(trace[n], if trace[n].sender.Trying? then Try else if trace[n].sender.Evicting? then Evict else Send)
  {
    RunSound(trace, steps, n);
  }

  // ---- a server that stops while the replay is under way

  /** `Stop` flushes the pending events too, with a batch of its own, whatever the replay has
      come to.  The order of items is lost then, but not the order of numbers. */
  datatype Stopping = Stopping(sub: Sub, batch: seq<Item>)

  datatype StopStep = Regular(step: Step) | StopTake | StopFlush | StopGivesUp

  predicate CanStop(s: Stopping, st: StopStep) {
    match st
    case Regular(own) => Enabled(s.sub, own)
    case StopTake => s.sub.sender.Unlocked? && s.batch == []
    case StopFlush => s.sub.sender.Unlocked? && s.batch != []
    case StopGivesUp => true
  }

  function Stopped(s: Stopping, st: StopStep): Stopping
    requires CanStop(s, st)
  {
    match st
    case Regular(own) => s.(sub := Apply(s.sub, own))
    case StopTake =>
      if s.sub.closed then s
      else if s.sub.pending == [] then s.(sub := s.sub.(ready := true))
      else Stopping(s.sub.(pending := []), s.sub.pending)
    case StopFlush => if s.sub.closed then s.(batch := []) else Stopping(Admit(s.sub, s.batch[0]), s.batch[1..])
    case StopGivesUp => s.(batch := [])
  }

  /** What holds even then. */
  ghost predicate Numbers(s: Sub) {
    && Ascending(Passed(s), s.seen)
    && LagSum(s.out) + s.dropped == |s.evicted|
    && |s.queue| <= CAPACITY && (s.sender.Sending? ==> |s.queue| < CAPACITY)
  }

  lemma AdmitNumbers(s: Sub, x: Item)
    requires Numbers(s) && s.sender.Unlocked?
    ensures Numbers(Admit(s, x))
  {
    if IsNew(s, x.event) {
      AscendingAppend(s, Passed(s), x);
      assert Passed(Admit(s, x)) == Passed(s) + [x];
    }
  }

  lemma OfferNumbers(s: Sub, e: Event)
    requires Numbers(s) && s.sender.Unlocked?
    ensures Numbers(Offered(s, e))
  {
    if !s.closed && Matches(s, e) && s.ready {
      var t := s.(nextId := s.nextId + 1);
      assert Passed(t) == Passed(s);
      AdmitNumbers(t, Item(s.nextId, e));
    } else {
      assert Passed(Offered(s, e)) == Passed(s);
    }
  }

  lemma EvictNumbers(s: Sub)
    requires Numbers(s) && s.sender.Evicting?
    ensures Numbers(Apply(s, Evict))
  {
    var t := Apply(s, Evict);
    if s.queue == [] {
      QueueMoves(s, Evict);
    } else {
      var front := ItemsOf(s.out) + Optional(s.hand);
      var back := s.queue[1..] + InSender(s);
      assert Passed(s) == front + [s.queue[0]] + back && Passed(t) == front + back;
      AscendingWithout(front, s.queue[0], back, s.seen);
    }
  }

  lemma WriteNumbers(s: Sub)
    requires Numbers(s) && s.hand.Some?
    ensures Numbers(Written(s))
  {
    WritePasses(s);
    if s.dropped > 0 {
      OutGrows(s.out, Lag(s.dropped));
      OutGrows(s.out + [Lag(s.dropped)], Wrote(s.hand.value));
    } else {
      assert s.out + [] == s.out;
      OutGrows(s.out, Wrote(s.hand.value));
    }
  }

  lemma StepNumbers(s: Sub, st: Step)
    requires Numbers(s) && Enabled(s, st)
    ensures Numbers(Apply(s, st))
  {
    match st
    case Offer(e) => OfferNumbers(s, e);
    case ReplayOne => AdmitNumbers(s.(replay := s.replay[1..]), s.replay[0]);
    case FlushOne => AdmitNumbers(s.(batch := s.batch[1..]), s.batch[0]);
    case Evict => EvictNumbers(s);
    case Write => WriteNumbers(s);
    case _ => QueueMoves(s, st);
  }

  ghost predicate IsStoppingRun(trace: seq<Stopping>, steps: seq<StopStep>) {
    && |trace| == |steps| + 1
    && (exists runtimeID, afterSeq, replay :: trace[0] == Stopping(NewSub(runtimeID, afterSeq, replay), []))
    && (forall n | 0 <= n < |steps| :: CanStop(trace[n], steps[n]) && trace[n + 1] == Stopped(trace[n], steps[n]))
  }

  lemma StoppedNumbers(s: Stopping, st: StopStep)
    requires Numbers(s.sub) && CanStop(s, st)
    ensures Numbers(Stopped(s, st).sub)
  {
    match st
    case Regular(own) => StepNumbers(s.sub, own);
    case StopFlush => AdmitNumbers(s.sub, s.batch[0]);
    case _ => assert Passed(Stopped(s, st).sub) == Passed(s.sub);
  }

  lemma {:induction false} StoppingRunNumbers(trace: seq<Stopping>, steps: seq<StopStep>, n: nat)
    requires IsStoppingRun(trace, steps) && n < |trace|
    ensures Numbers(trace[n].sub)
    decreases n
  {
    if n == 0 {
      var runtimeID, afterSeq, replay :| trace[0] == Stopping(NewSub(runtimeID, afterSeq, replay), []);
      assert Passed(trace[0].sub) == [];
    } else {
      StoppingRunNumbers(trace, steps, n - 1);
      StoppedNumbers(trace[n - 1], steps[n - 1]);
    }
  }

  /** Even while `Stop` flushes beside a replay, the numbers written for a runtime strictly
      increase, evictions are the lag reported and the count not yet reported, and a sender
      that holds the lock finds room. */
  lemma StopKeepsOrder(trace: seq<Stopping>, steps: seq<StopStep>, n: nat)
    requires IsStoppingRun(trace, steps) && n < |trace|
    ensures var s := trace[n].sub;
      && SeqsGrow(ItemsOf(s.out)) && |s.evicted| == LagSum(s.out) + s.dropped
      && (s.sender.Sending? ==> Enabled(s, Send))
  {
    StoppingRunNumbers(trace, steps, n);
    var items := ItemsOf(trace[n].sub.out);
    assert Passed(trace[n].sub)[..|items|] == items;
  }

  // ---- the subscriber object

  /** A sender's steps when the writer does not come in between. */
  function SendAll(s: Sub): Sub {
    if !s.sender.Trying? then s
    else
      var t := Apply(s, Try);
      if t.sender.Unlocked? then t
      else var u := Apply(t, Evict); if Enabled(u, Send) then Apply(u, Send) else u
  }

  /** The critical sections of a subscriber, each run to its end. */
  class Subscriber {
    const runtimeID: string
    var ch: seq<Item>
    var pending: seq<Item>
    var dropped: nat
    var seenSeq: map<string, int>
    var ready: bool
    var closed: bool
    var nextId: nat
    ghost var others: Sub

    /** The abstract subscriber; what belongs to other goroutines is kept in `others`. */
    ghost function Model(): Sub
      reads this
    {
      others.(runtimeID := runtimeID, queue := ch, pending := pending, dropped := dropped, seen := seenSeq,
              ready := ready, closed := closed, nextId := nextId, sender := Unlocked)
    }

    constructor (runtimeID: string, afterSeq: int, ghost replay: seq<Event>, replayCount: nat)
      requires replayCount == |replay|
      ensures Model() == NewSub(runtimeID, afterSeq, replay)
    {
      this.runtimeID := runtimeID;
      ch, pending, dropped, ready, closed, nextId := [], [], 0, false, false, replayCount;
      seenSeq := if runtimeID != "" && afterSeq > 0 then map[runtimeID := afterSeq] else map[];
      others := NewSub(runtimeID, afterSeq, replay);
    }

    method RecordSeqLocked(e: Event) returns (fresh_: bool)
      modifies this`seenSeq
      ensures fresh_ == IsNew(old(Model()), e)
      ensures seenSeq == if fresh_ then Admit(old(Model()), Item(0, e)).seen else old(seenSeq)
    {
      if e.seq_.None? {
        return true;
      }
      if e.runtime in seenSeq && e.seq_.value <= seenSeq[e.runtime] {
        return false;
      }
      seenSeq := seenSeq[e.runtime := e.seq_.value];
      return true;
    }

    method EnqueueLocked(x: Item)
      requires |ch| <= CAPACITY
      modifies this`ch, this`dropped, this`others
      ensures Model() == SendAll(old(Model()).(sender := Trying(x))) && |ch| <= CAPACITY
    {
      if |ch| < CAPACITY {
        ch := ch + [x];
        return;
      }
      if ch != [] {
        others := others.(evicted := others.evicted + [ch[0]]);
        ch := ch[1..];
        dropped := dropped + 1;
      }
      ch := ch + [x];
    }

    /** Keeps an event that arrived before the replay was queued. */
    method HoldLocked(x: Item)
      modifies this`pending, this`dropped, this`others
      ensures pending == (if |old(pending)| < CAPACITY then old(pending) else old(pending)[1..]) + [x]
      ensures dropped == old(dropped) + if |old(pending)| < CAPACITY then 0 else 1
      ensures others == if |old(pending)| < CAPACITY then old(others)
                        else old(others).(evicted := old(others).evicted + [old(pending)[0]])
    {
      if |pending| >= CAPACITY {
        others := others.(evicted := others.evicted + [pending[0]]);
        pending := pending[1..];
        dropped := dropped + 1;
      }
      pending := pending + [x];
    }

    method Enqueue(e: Event)
      requires |ch| <= CAPACITY
      modifies this
      ensures Model() == SendAll(Offered(old(Model()), e)) && |ch| <= CAPACITY
    {
      if closed || !(runtimeID == "" || e.runtime == runtimeID) {
        return;
      }
      var x := Item(nextId, e);
      nextId := nextId + 1;
      ghost var m := Model();
      if !ready {
        HoldLocked(x);
        assert Model() == Offered(old(Model()), e);
        return;
      }
      var fresh_ := RecordSeqLocked(e);
      assert Offered(old(Model()), e) == Admit(m, x);
      if fresh_ {
        assert Model().(sender := Trying(x)) == Admit(m, x);
        EnqueueLocked(x);
      } else {
        assert Model() == m;
      }
    }
  }
}
